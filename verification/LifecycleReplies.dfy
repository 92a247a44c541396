/**
 What the answer to a controller request means: which calls it has made, in which order, what made it fail, and
 what it leaves behind.
 */
module LifecycleReplies {
  import opened ThreadSafe
  import opened Lifecycle
  import opened LifecycleController
  import opened LifecycleWipes

  // ---- The history of one request -----------------------------------------------------------------------------

  ghost predicate OwnStep(d: Deployment, w: World, s: Step, r: RequestID)
  {
    s.ControllerStep? && s.r == r && Enabled(d, w, s)
  }

  /** The step is one of the request, taken like this. */
  ghost predicate Happens(d: Deployment, w: World, s: Step, r: RequestID, such: (World, Request, Outcome) -> bool)
  {
    OwnStep(d, w, s, r) && such(w, w.requests[r], s.outcome)
  }

  /** Some step of the request was taken like this. */
  ghost predicate Sometime(d: Deployment, w: World, steps: seq<Step>, r: RequestID,
      such: (World, Request, Outcome) -> bool)
  {
    steps != []
    && var k := |steps| - 1;
       Sometime(d, w, steps[..k], r, such) || Happens(d, Run(d, w, steps[..k]), steps[k], r, such)
  }

  /** The calls of the request that have succeeded. */
  ghost function Done(d: Deployment, w: World, steps: seq<Step>, r: RequestID): (calls: set<Phase>)
  {
    if steps == [] then {}
    else
      var k := |steps| - 1;
      var before := Run(d, w, steps[..k]);
      Done(d, w, steps[..k], r)
      + if OwnStep(d, before, steps[k], r) && steps[k].outcome == Ok then {before.requests[r].phase} else {}
  }

  /** The calls of the request that have been made, with whatever outcome. */
  ghost function Made(d: Deployment, w: World, steps: seq<Step>, r: RequestID): (calls: set<Phase>)
  {
    if steps == [] then {}
    else
      var k := |steps| - 1;
      var before := Run(d, w, steps[..k]);
      Made(d, w, steps[..k], r) + if OwnStep(d, before, steps[k], r) then {before.requests[r].phase} else {}
  }

  /** What the environment may do to a request at this point. */
  predicate Possible(q: Request, o: Outcome)
  {
    && (o == GiveUp ==> q.phase == CheckEmpty)
    && (o.Unlink? ==> q.phase == RemoveNodesDir)
    && (o.Wipe? ==> q.phase == RemoveWorkDir)
  }

  /** Nobody else touches a request; a restart of the controller ends it. */
  lemma OthersLeaveRequest(d: Deployment, w: World, s: Step, r: RequestID)
    requires r in w.requests
    ensures r in Next(d, w, s).requests
    ensures
      var q, q' := w.requests[r], Next(d, w, s).requests[r];
      if OwnStep(d, w, s, r) then Possible(q, s.outcome) && q' == NextRequest(w, q, s.outcome)
      else q' == q || q' == EndedByRestart(q)
  {
  }

  // ---- What makes a request fail --------------------------------------------------------------------------------

  /** The cleanup is best effort except in a delete; making the tracking directory always is. */
  predicate ErrorCounts(q: Request)
  {
    match q.phase
    case ListMounts => q.kind == Delete
    case UnmountWork => q.kind == Delete
    case RemoveWorkDir => q.kind == Delete
    case CreateNodesDir => false
    case WriteCreated => false
    case WriteDeleted => false
    case ReleaseLock => false
    case _ => Holds(q)
  }

  /** A call fails that counts, a tracking directory vanishes under a delete, or the volume to validate is missing. */
  predicate GoesWrong(w: World, q: Request, o: Outcome)
  {
    || (o.Fail? && ErrorCounts(q))
    || (q.phase == CheckEmpty && q.volume !in w.nodesDirs)
    || (q.phase == StatVolDir && q.volume !in w.volDirs)
  }

  predicate FindsLocked(w: World, q: Request, o: Outcome)
  {
    q.phase == ObtainLock && q.volume in w.locks
  }

  /** The status in the cache is the one that the request is to bring about. */
  predicate FindsDone(w: World, q: Request, o: Outcome)
  {
    && q.phase == ReadStatus && q.volume in w.status && q.kind != Validate
    && w.status[q.volume] == (if q.kind == Create then Created else Deleted)
  }

  predicate Answered(q: Request, wrong: bool, locked: bool, cached: bool)
  {
    && q.failed == wrong && (Holds(q) ==> q.obtained == 1)
    && (if q.phase != Finished then
          q.reply == NoReply && !locked && !cached && (!Holds(q) ==> !wrong && q.obtained == 0)
        else
          match q.reply
          case NoReply => false
          case Lost => !locked && !cached
          case Aborted => locked && !cached && !wrong && q.obtained == 0
          case Failure => wrong && !locked && !cached && q.obtained == 1
          case Success => !wrong && !locked && q.obtained == if cached then 0 else 1)
  }

  lemma FailedExactly(w: World, q: Request, o: Outcome)
    requires Possible(q, o) && (q.phase == ReadStatus ==> q.kind != Validate)
    ensures NextRequest(w, q, o).failed <==> q.failed || GoesWrong(w, q, o)
  {
  }

  lemma AnsweredNext(w: World, q: Request, o: Outcome, wrong: bool, locked: bool, cached: bool)
    requires Possible(q, o) && (q.phase == ReadStatus ==> q.kind != Validate) && Answered(q, wrong, locked, cached)
    ensures
      Answered(NextRequest(w, q, o), wrong || GoesWrong(w, q, o), locked || FindsLocked(w, q, o),
        cached || FindsDone(w, q, o))
  {
    FailedExactly(w, q, o);
    HoldsMoves(w, q, o);
    if Holds(q) && q.phase != ReleaseLock {
      CountsStay(w, q, o);
    }
  }

  lemma {:induction false} AnsweredAlways(d: Deployment, w: World, r: RequestID, steps: seq<Step>)
    requires r in w.requests && Answered(w.requests[r], false, false, false)
    requires w.requests[r].phase == ReadStatus ==> w.requests[r].kind != Validate
    ensures r in Run(d, w, steps).requests
    ensures
      var q := Run(d, w, steps).requests[r];
      && (q.phase == ReadStatus ==> q.kind != Validate)
      && Answered(q, Sometime(d, w, steps, r, GoesWrong), Sometime(d, w, steps, r, FindsLocked),
           Sometime(d, w, steps, r, FindsDone))
  {
    if steps != [] {
      var k := |steps| - 1;
      AnsweredAlways(d, w, r, steps[..k]);
      AnsweredStep(d, Run(d, w, steps[..k]), steps[k], r, Sometime(d, w, steps[..k], r, GoesWrong),
        Sometime(d, w, steps[..k], r, FindsLocked), Sometime(d, w, steps[..k], r, FindsDone));
    }
  }

  lemma AnsweredStep(d: Deployment, w: World, s: Step, r: RequestID, wrong: bool, locked: bool, cached: bool)
    requires r in w.requests && Answered(w.requests[r], wrong, locked, cached)
    requires w.requests[r].phase == ReadStatus ==> w.requests[r].kind != Validate
    ensures r in Next(d, w, s).requests
    ensures
      var q := Next(d, w, s).requests[r];
      && (q.phase == ReadStatus ==> q.kind != Validate)
      && Answered(q, wrong || Happens(d, w, s, r, GoesWrong), locked || Happens(d, w, s, r, FindsLocked),
           cached || Happens(d, w, s, r, FindsDone))
  {
    OthersLeaveRequest(d, w, s, r);
    if OwnStep(d, w, s, r) {
      AnsweredNext(w, w.requests[r], s.outcome, wrong, locked, cached);
      NeverReadsAgain(w, w.requests[r], s.outcome);
    }
  }

  lemma NeverReadsAgain(w: World, q: Request, o: Outcome)
    ensures NextRequest(w, q, o).phase != ReadStatus
  {
    if q.phase == Finished {
      FinishedStays(w, q, o);
    } else {
      StepsApproachEnd(w, q, o);
    }
  }

  /**
   On every run, a request that is answered is told Aborted exactly if it found the lock taken, Failure exactly if
   something went wrong that counts, and Success in every other case: at once if the cache had the status asked
   for, and otherwise after its work under the lock.
   */
  lemma ReplyExactly(d: Deployment, w: World, r: RequestID, kind: Kind, v: VolumeID, special: bool, steps: seq<Step>)
    requires Enabled(d, w, BeginRequest(r, kind, v, special))
    ensures
      var begun := Next(d, w, BeginRequest(r, kind, v, special));
      && r in Run(d, begun, steps).requests
      && var q := Run(d, begun, steps).requests[r];
         q.phase == Finished && q.reply != Reply.Lost ==>
           && (q.reply == Aborted <==> Sometime(d, begun, steps, r, FindsLocked))
           && (q.reply == Failure <==> Sometime(d, begun, steps, r, GoesWrong))
           && (q.reply == Success <==>
                 !Sometime(d, begun, steps, r, FindsLocked) && !Sometime(d, begun, steps, r, GoesWrong))
           && (q.reply == Success && q.obtained == 0 <==> Sometime(d, begun, steps, r, FindsDone))
  {
    AnsweredAlways(d, Next(d, w, BeginRequest(r, kind, v, special)), r, steps);
  }

  // ---- Validating a volume that is not there ---------------------------------------------------------------------

  /** A directory comes into being only if a create makes it. */
  lemma {:induction false} StaysMissing(d: Deployment, w: World, steps: seq<Step>, v: VolumeID)
    requires v !in w.volDirs && !EverMade(d, w, steps, v)
    ensures v !in Run(d, w, steps).volDirs
  {
    if steps != [] {
      var k := |steps| - 1;
      MadeStep(d, w, steps, v);
      StaysMissing(d, w, steps[..k], v);
      DirNext(d, Run(d, w, steps[..k]), steps[k], v);
    }
  }

  /** A validation that has not looked yet, or has an error to report. */
  predicate NotValidated(q: Request)
  {
    && q.kind == Validate && q.reply != Success && PhaseFits(q)
    && (q.phase == ObtainLock || q.phase == MakeWorkDir || q.phase == WriteClientFiles || q.phase == StatVolDir
        || q.phase == Finished || q.failed)
  }

  lemma NotValidatedNext(w: World, q: Request, o: Outcome)
    requires NotValidated(q) && q.volume !in w.volDirs && Possible(q, o) && (q.phase == ObtainLock ==> !q.failed)
    ensures NotValidated(NextRequest(w, q, o)) && NextRequest(w, q, o).volume == q.volume
    ensures NextRequest(w, q, o).phase == ObtainLock ==> !NextRequest(w, q, o).failed
  {
    NextPhaseFits(w, q, o);
  }

  lemma {:induction false} NeverValidated(d: Deployment, w: World, r: RequestID, v: VolumeID, steps: seq<Step>)
    requires r in w.requests && NotValidated(w.requests[r]) && w.requests[r].volume == v
    requires w.requests[r].phase == ObtainLock ==> !w.requests[r].failed
    requires v !in w.volDirs && !EverMade(d, w, steps, v)
    ensures r in Run(d, w, steps).requests
    ensures
      var q := Run(d, w, steps).requests[r];
      NotValidated(q) && q.volume == v && (q.phase == ObtainLock ==> !q.failed)
  {
    if steps != [] {
      var k := |steps| - 1;
      MadeStep(d, w, steps, v);
      NeverValidated(d, w, r, v, steps[..k]);
      StaysMissing(d, w, steps[..k], v);
      StillNotValidated(d, Run(d, w, steps[..k]), steps[k], r);
    }
  }

  lemma StillNotValidated(d: Deployment, w: World, s: Step, r: RequestID)
    requires r in w.requests && NotValidated(w.requests[r]) && w.requests[r].volume !in w.volDirs
    requires w.requests[r].phase == ObtainLock ==> !w.requests[r].failed
    ensures r in Next(d, w, s).requests
    ensures
      var q := Next(d, w, s).requests[r];
      NotValidated(q) && q.volume == w.requests[r].volume && (q.phase == ObtainLock ==> !q.failed)
  {
    OthersLeaveRequest(d, w, s, r);
    if OwnStep(d, w, s, r) {
      NotValidatedNext(w, w.requests[r], s.outcome);
    }
  }

  /** From every state without the volume's directory: unless somebody makes it, no validation begun now succeeds. */
  lemma ValidateOfMissingFails(d: Deployment, w: World, r: RequestID, v: VolumeID, special: bool, steps: seq<Step>)
    requires Enabled(d, w, BeginRequest(r, Validate, v, special)) && v !in w.volDirs
    requires !EverMade(d, Next(d, w, BeginRequest(r, Validate, v, special)), steps, v)
    ensures
      var end := Run(d, Next(d, w, BeginRequest(r, Validate, v, special)), steps);
      r in end.requests && end.requests[r].reply != Success
  {
    NeverValidated(d, Next(d, w, BeginRequest(r, Validate, v, special)), r, v, steps);
  }

  // ---- The calls of a request and their order -------------------------------------------------------------------

  /** The calls without which there is no success. */
  function Calls(kind: Kind, special: bool): (calls: set<Phase>)
  {
    match kind
    case Create =>
      {MakeWorkDir, WriteClientFiles, CreateVolDir, SetPattern} + if special then {MountForChmod, ChangeMode} else {}
    case Delete =>
      {MakeWorkDir, WriteClientFiles, MountForDelete, CheckNodesDir, RemoveVolDir, ListMounts, UnmountWork,
        RemoveWorkDir}
    case Validate => {MakeWorkDir, WriteClientFiles, StatVolDir}
  }

  /** The calls that have succeeded when a request comes to this point. */
  function Beforehand(q: Request): (calls: set<Phase>)
  {
    match q.phase
    case WriteClientFiles => {MakeWorkDir}
    case CreateVolDir => {MakeWorkDir, WriteClientFiles}
    case SetPattern => {MakeWorkDir, WriteClientFiles, CreateVolDir}
    case MountForChmod => {MakeWorkDir, WriteClientFiles, CreateVolDir, SetPattern}
    case ChangeMode => {MakeWorkDir, WriteClientFiles, CreateVolDir, SetPattern, MountForChmod}
    case CreateNodesDir => Calls(Create, q.special)
    case WriteCreated => Calls(Create, q.special)
    case MountForDelete => {MakeWorkDir, WriteClientFiles}
    case CheckNodesDir => {MakeWorkDir, WriteClientFiles, MountForDelete}
    case CheckEmpty => {MakeWorkDir, WriteClientFiles, MountForDelete, CheckNodesDir}
    case RemoveNodesDir => {MakeWorkDir, WriteClientFiles, MountForDelete, CheckNodesDir}
    case RemoveVolDir => {MakeWorkDir, WriteClientFiles, MountForDelete, CheckNodesDir}
    case StatVolDir => {MakeWorkDir, WriteClientFiles}
    case ListMounts => if q.failed then {} else Calls(q.kind, q.special) - {ListMounts, UnmountWork, RemoveWorkDir}
    case UnmountWork =>
      {ListMounts} + if q.failed then {} else Calls(q.kind, q.special) - {UnmountWork, RemoveWorkDir}
    case RemoveWorkDir =>
      (if q.kind == Validate then {} else {ListMounts, UnmountWork})
      + if q.failed then {} else Calls(q.kind, q.special) - {RemoveWorkDir}
    case WriteDeleted => Calls(Delete, q.special)
    case ReleaseLock => if q.failed then {} else Calls(q.kind, q.special)
    case Finished => if q.reply == Success && q.obtained == 1 then Calls(q.kind, q.special) else {}
    case _ => {}
  }

  /** The calls that have at least been made when a request comes to this point. */
  function Tried(q: Request): (calls: set<Phase>)
  {
    var created := if q.kind == Create && !q.failed then {CreateNodesDir, WriteCreated} else {};
    match q.phase
    case WriteCreated => {CreateNodesDir}
    case ListMounts => created
    case UnmountWork => created + {ListMounts}
    case RemoveWorkDir => created + if q.kind == Validate then {} else {ListMounts}
    case WriteDeleted => {ListMounts}
    case ReleaseLock => AtTheEnd(q)
    case Finished => if (q.reply == Success || q.reply == Failure) && q.obtained == 1 then AtTheEnd(q) else {}
    case _ => {}
  }

  /** Whether or not it has failed, a request has turned to its cleanup. */
  function AtTheEnd(q: Request): (calls: set<Phase>)
  {
    match q.kind
    case Create => {ListMounts} + if q.failed then {} else {CreateNodesDir, WriteCreated}
    case Delete => {ListMounts} + if q.failed then {} else {WriteDeleted}
    case Validate => {RemoveWorkDir}
  }

  predicate SpecialFits(q: Request)
  {
    q.phase == MountForChmod || q.phase == ChangeMode ==> q.special
  }

  /** The calls that each step adds are what comes before the next. */
  lemma WorkInOrder(w: World, q: Request, o: Outcome)
    requires PhaseFits(q) && SpecialFits(q) && Possible(q, o) && (BeforeChange(q.phase) || q.phase == StatVolDir)
    ensures Beforehand(NextRequest(w, q, o)) <= Beforehand(q) + if o == Ok then {q.phase} else {}
  {
  }

  lemma CreationInOrder(w: World, q: Request, o: Outcome)
    requires PhaseFits(q) && SpecialFits(q) && Possible(q, o) && AfterCreation(q.phase)
    ensures Beforehand(NextRequest(w, q, o)) <= Beforehand(q) + if o == Ok then {q.phase} else {}
  {
  }

  predicate CleaningUp(p: Phase)
  {
    p == ListMounts || p == UnmountWork || p == RemoveWorkDir || p == WriteDeleted
  }

  lemma CleanupInOrder(w: World, q: Request, o: Outcome)
    requires PhaseFits(q) && Possible(q, o) && CleaningUp(q.phase) && q.phase != RemoveWorkDir
    ensures Beforehand(NextRequest(w, q, o)) <= Beforehand(q) + if o == Ok then {q.phase} else {}
  {
  }

  lemma RemovalInOrder(w: World, q: Request, o: Outcome)
    requires PhaseFits(q) && q.phase == RemoveWorkDir
    ensures Beforehand(NextRequest(w, q, o)) <= Beforehand(q) + if o == Ok then {q.phase} else {}
  {
  }

  lemma EndsInOrder(w: World, q: Request, o: Outcome)
    requires !Holds(q) || q.phase == ReleaseLock
    requires q.phase == ReadStatus ==> q.obtained == 0
    ensures Beforehand(NextRequest(w, q, o)) <= Beforehand(q)
  {
  }

  lemma TriedInOrder(w: World, q: Request, o: Outcome)
    requires PhaseFits(q) && Possible(q, o) && (q.phase == ReadStatus ==> q.obtained == 0)
    ensures Tried(NextRequest(w, q, o)) <= Tried(q) + {q.phase}
  {
  }

  lemma SpecialNext(w: World, q: Request, o: Outcome)
    requires SpecialFits(q)
    ensures SpecialFits(NextRequest(w, q, o))
  {
  }

  /** Where a request stands, by the calls it has made. */
  predicate InOrder(q: Request, done: set<Phase>, made: set<Phase>)
  {
    && PhaseFits(q) && SpecialFits(q) && (q.phase == ObtainLock || q.phase == ReadStatus ==> !q.failed)
    && (q.phase == Finished || Answered(q, q.failed, false, false))
    && Beforehand(q) <= done && Tried(q) <= made && done <= made
    && (MountForChmod in made || ChangeMode in made ==> q.special)
  }

  lemma InOrderNext(w: World, q: Request, o: Outcome, done: set<Phase>, made: set<Phase>)
    requires InOrder(q, done, made) && Possible(q, o)
    ensures InOrder(NextRequest(w, q, o), done + if o == Ok then {q.phase} else {}, made + {q.phase})
  {
    NextPhaseFits(w, q, o);
    SpecialNext(w, q, o);
    TriedInOrder(w, q, o);
    if BeforeChange(q.phase) || q.phase == StatVolDir {
      WorkInOrder(w, q, o);
    } else if AfterCreation(q.phase) {
      CreationInOrder(w, q, o);
    } else if q.phase == RemoveWorkDir {
      RemovalInOrder(w, q, o);
    } else if CleaningUp(q.phase) {
      CleanupInOrder(w, q, o);
    } else {
      EndsInOrder(w, q, o);
    }
    AnswerStays(w, q, o);
  }

  lemma AnswerStays(w: World, q: Request, o: Outcome)
    requires Possible(q, o) && (q.phase == ReadStatus ==> q.kind != Validate)
    requires q.phase == Finished || Answered(q, q.failed, false, false)
    ensures
      var q' := NextRequest(w, q, o);
      q'.phase == Finished || Answered(q', q'.failed, false, false)
  {
    if q.phase == Finished {
      FinishedStays(w, q, o);
    } else {
      AnsweredNext(w, q, o, q.failed, false, false);
    }
  }

  lemma {:induction false} InOrderAlways(d: Deployment, w: World, r: RequestID, steps: seq<Step>)
    requires r in w.requests && InOrder(w.requests[r], {}, {})
    ensures r in Run(d, w, steps).requests
    ensures InOrder(Run(d, w, steps).requests[r], Done(d, w, steps, r), Made(d, w, steps, r))
  {
    if steps != [] {
      var k := |steps| - 1;
      InOrderAlways(d, w, r, steps[..k]);
      var before := Run(d, w, steps[..k]);
      OthersLeaveRequest(d, before, steps[k], r);
      if OwnStep(d, before, steps[k], r) {
        InOrderNext(before, before.requests[r], steps[k].outcome, Done(d, w, steps[..k], r), Made(d, w, steps[..k], r));
      }
    }
  }

  /**
   On every run, a request makes each call only after those before it have succeeded. It succeeds under its lock
   only after all of its calls have, and it does not end without having turned to its cleanup. A create sets
   permission bits exactly if they are special.
   */
  lemma CallsInOrder(d: Deployment, w: World, r: RequestID, kind: Kind, v: VolumeID, special: bool, steps: seq<Step>)
    requires Enabled(d, w, BeginRequest(r, kind, v, special))
    ensures
      var begun := Next(d, w, BeginRequest(r, kind, v, special));
      var done, made := Done(d, begun, steps, r), Made(d, begun, steps, r);
      && r in Run(d, begun, steps).requests
      && var q := Run(d, begun, steps).requests[r];
         && q.kind == kind && q.special == special && Beforehand(q) <= done && Tried(q) <= made
         && (MountForChmod in made || ChangeMode in made ==> special)
  {
    var begun := Next(d, w, BeginRequest(r, kind, v, special));
    InOrderAlways(d, begun, r, steps);
    KindStays(d, begun, r, steps);
  }

  lemma {:induction false} KindStays(d: Deployment, w: World, r: RequestID, steps: seq<Step>)
    requires r in w.requests
    ensures r in Run(d, w, steps).requests
    ensures
      var q, q' := w.requests[r], Run(d, w, steps).requests[r];
      q'.kind == q.kind && q'.special == q.special && q'.volume == q.volume
  {
    if steps != [] {
      var k := |steps| - 1;
      KindStays(d, w, r, steps[..k]);
      var before := Run(d, w, steps[..k]);
      OthersLeaveRequest(d, before, steps[k], r);
      if OwnStep(d, before, steps[k], r) {
        IdentityStays(before, before.requests[r], steps[k].outcome);
        SpecialStays(before, before.requests[r], steps[k].outcome);
      }
    }
  }

  lemma SpecialStays(w: World, q: Request, o: Outcome)
    ensures NextRequest(w, q, o).special == q.special
  {
  }
}
