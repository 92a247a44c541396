/** The controller over whole runs: who holds which lock, and what the status cache says about the file system. */
module LifecycleController {
  import opened Wrappers
  import opened ThreadSafe
  import opened Lifecycle

  // ---- One step of a request ------------------------------------------------------------------------------

  /** Between obtaining and releasing the lock on its volume. */
  predicate Holds(q: Request)
  {
    q.phase != ReadStatus && q.phase != ObtainLock && q.phase != Finished
  }

  /** The phases each kind of request goes through, and the error it carries along. */
  predicate PhaseFits(q: Request)
  {
    match q.phase
    case ReadStatus => q.kind != Validate
    case MakeWorkDir => !q.failed
    case WriteClientFiles => !q.failed
    case CreateVolDir => q.kind == Create && !q.failed
    case SetPattern => q.kind == Create && !q.failed
    case MountForChmod => q.kind == Create && !q.failed
    case ChangeMode => q.kind == Create && !q.failed
    case CreateNodesDir => q.kind == Create && !q.failed
    case WriteCreated => q.kind == Create && !q.failed
    case MountForDelete => q.kind == Delete && !q.failed
    case CheckNodesDir => q.kind == Delete && !q.failed
    case CheckEmpty => q.kind == Delete && !q.failed
    case RemoveNodesDir => q.kind == Delete && !q.failed
    case RemoveVolDir => q.kind == Delete && !q.failed
    case StatVolDir => q.kind == Validate && !q.failed
    case ListMounts => q.kind != Validate
    case UnmountWork => q.kind != Validate
    case WriteDeleted => q.kind == Delete && !q.failed
    case _ => true
  }

  /**
   Locks are obtained at most once, released as often as obtained unless a restart has dropped them, and never
   by an aborted request.
   */
  predicate CountsFit(q: Request)
  {
    if Holds(q) then q.obtained == 1 && q.released == 0
    else if q.phase == Finished && q.reply == Lost then q.obtained <= 1 && q.released == 0
    else if q.phase == Finished then q.obtained == q.released <= 1 && (q.reply == Aborted ==> q.released == 0)
    else q.obtained == 0 && q.released == 0 && q.reply == NoReply
  }

  predicate RequestFits(d: Deployment, q: Request)
  {
    q.volume in d.volumes && PhaseFits(q)
    && (q.phase == ObtainLock || q.phase == ReadStatus ==> !q.failed) && CountsFit(q)
  }

  /** A step of a request changes that request and, as far as the controller's own state goes, its lock. */
  predicate LockMove(w: World, r: RequestID, w': World)
    requires r in w.requests && r in w'.requests
  {
    var q, q' := w.requests[r], w'.requests[r];
    && q'.volume == q.volume && q'.kind == q.kind
    && w'.requests == w.requests[r := q']
    && (if Holds(q) == Holds(q') then w'.locks == w.locks
        else if Holds(q') then q.volume !in w.locks && w'.locks == w.locks + {q.volume}
        else w'.locks == w.locks - {q.volume})
  }

  lemma StepMovesLock(d: Deployment, w: World, r: RequestID, o: Outcome)
    requires r in w.requests
    ensures LockMove(w, r, ControllerNext(d, w, r, o))
  {
    IdentityStays(w, w.requests[r], o);
    HoldsMoves(w, w.requests[r], o);
  }

  lemma IdentityStays(w: World, q: Request, o: Outcome)
    ensures NextRequest(w, q, o).volume == q.volume && NextRequest(w, q, o).kind == q.kind
  {
  }

  /** A request comes to hold its lock by obtaining it, and ceases to by releasing it. */
  lemma HoldsMoves(w: World, q: Request, o: Outcome)
    ensures
      Holds(NextRequest(w, q, o)) <==>
        (Holds(q) && q.phase != ReleaseLock) || (q.phase == ObtainLock && q.volume !in w.locks)
  {
  }

  lemma NextPhaseFits(w: World, q: Request, o: Outcome)
    requires PhaseFits(q) && (q.phase == ObtainLock ==> !q.failed) && (o == GiveUp ==> q.phase == CheckEmpty)
    requires q.phase == ReadStatus ==> !q.failed
    ensures PhaseFits(NextRequest(w, q, o))
    ensures NextRequest(w, q, o).phase == ObtainLock ==> !NextRequest(w, q, o).failed
  {
  }

  lemma NextCountsFit(w: World, q: Request, o: Outcome)
    requires CountsFit(q)
    ensures CountsFit(NextRequest(w, q, o))
  {
    HoldsMoves(w, q, o);
    if Holds(q) && q.phase != ReleaseLock {
      CountsStay(w, q, o);
    }
  }

  lemma CountsStay(w: World, q: Request, o: Outcome)
    requires Holds(q) && q.phase != ReleaseLock
    ensures NextRequest(w, q, o).obtained == q.obtained && NextRequest(w, q, o).released == q.released
  {
  }

  lemma StepKeepsFit(d: Deployment, w: World, r: RequestID, o: Outcome)
    requires r in w.requests && RequestFits(d, w.requests[r]) && Enabled(d, w, ControllerStep(r, o))
    ensures RequestFits(d, ControllerNext(d, w, r, o).requests[r])
  {
    StepMovesLock(d, w, r, o);
    NextPhaseFits(w, w.requests[r], o);
    NextCountsFit(w, w.requests[r], o);
  }

  /** Everything recorded about one volume and its directory. */
  datatype View = View(status: Option<Status>, dirExists: bool, createFailed: bool, deleteFailed: bool, wiped: bool)

  function ViewOf(w: World, v: VolumeID): (r: View)
  {
    View(if v in w.status then Some(w.status[v]) else None,
         v in w.volDirs, v in w.createFailed, v in w.deleteFailed, v in w.wiped)
  }

  /** What a step does to the view of the request's own volume. */
  function NextView(view: View, q: Request, o: Outcome): (r: View)
  {
    match q.phase
    case WriteCreated => View(Some(Created), view.dirExists, false, false, view.wiped)
    case WriteDeleted => View(Some(Deleted), view.dirExists, false, false, view.wiped)
    case CreateVolDir => if Applies(o) then view.(dirExists := true, wiped := false) else view
    case RemoveVolDir => view.(dirExists := view.dirExists && !Applies(o))
    case ReleaseLock =>
      view.(createFailed := view.createFailed || (q.failed && q.kind == Create),
            deleteFailed := view.deleteFailed || (q.failed && q.kind == Delete))
    case _ => view
  }

  /** What is left of a view when the volume's directory is taken away. */
  function WithoutDir(view: View): (r: View)
  {
    view.(dirExists := false, wiped := view.wiped || view.dirExists)
  }

  lemma StepView(d: Deployment, w: World, r: RequestID, o: Outcome)
    requires r in w.requests && !Exposed(d, w, w.requests[r])
    ensures ViewOf(ControllerNext(d, w, r, o), w.requests[r].volume)
         == NextView(ViewOf(w, w.requests[r].volume), w.requests[r], o)
  {
    StepDir(d, w, w.requests[r], o);
    StepFailed(w.createFailed, Create, w.requests[r]);
    StepFailed(w.deleteFailed, Delete, w.requests[r]);
  }

  lemma StepDir(d: Deployment, w: World, q: Request, o: Outcome)
    requires !Exposed(d, w, q)
    ensures
      var view := NextView(ViewOf(w, q.volume), q, o);
      view.dirExists == (q.volume in NextVolDirs(d, w, q, o)) && view.wiped == (q.volume in NextWiped(d, w, q, o))
  {
  }

  lemma StepFailed(failed: set<VolumeID>, kind: Kind, q: Request)
    ensures
      q.volume in NextFailed(failed, kind, q) <==>
        q.phase != WriteCreated && q.phase != WriteDeleted
        && (q.volume in failed || (q.phase == ReleaseLock && q.failed && q.kind == kind))
  {
  }

  /** The removal of an exposed working directory does the same to every volume of the file system, its own or not. */
  lemma ExposedView(d: Deployment, w: World, r: RequestID, o: Outcome, u: VolumeID)
    requires r in w.requests && Exposed(d, w, w.requests[r])
    ensures
      ViewOf(ControllerNext(d, w, r, o), u)
      == if TakesVolume(d, w, w.requests[r], o, u) then WithoutDir(ViewOf(w, u)) else ViewOf(w, u)
  {
  }

  predicate SameTracking(w: World, w': World, u: VolumeID)
  {
    (u in w'.nodesDirs <==> u in w.nodesDirs) && (u in w.nodesDirs ==> w'.nodesDirs[u] == w.nodesDirs[u])
  }

  /** A create or delete that holds the lock on this volume. */
  predicate WorksOn(q: Request, u: VolumeID)
  {
    u == q.volume && Holds(q) && q.kind != Validate
  }

  predicate MayTouch(d: Deployment, w: World, q: Request, u: VolumeID)
  {
    WorksOn(q, u) || (Exposed(d, w, q) && SameFs(u, q.volume))
  }

  lemma StepTouchesOwnVolume(d: Deployment, w: World, r: RequestID, o: Outcome, u: VolumeID)
    requires r in w.requests && PhaseFits(w.requests[r]) && !MayTouch(d, w, w.requests[r], u)
    ensures
      var w' := ControllerNext(d, w, r, o);
      ViewOf(w', u) == ViewOf(w, u) && SameTracking(w, w', u)
  {
  }

  /** No outcome of the request's next step changes anything about this volume. */
  ghost predicate Spares(d: Deployment, w: World, r: RequestID, u: VolumeID)
    requires r in w.requests
  {
    forall o :: Enabled(d, w, ControllerStep(r, o)) ==>
      var w' := ControllerNext(d, w, r, o);
      ViewOf(w', u) == ViewOf(w, u) && SameTracking(w, w', u)
  }

  /**
   A request spares every volume except the one that it creates or deletes under the lock, exactly unless it is
   about to remove its working directory with the volume's file system still mounted inside, and there is
   something to lose.
   */
  lemma SparesExactly(d: Deployment, w: World, r: RequestID, u: VolumeID)
    requires r in w.requests && PhaseFits(w.requests[r]) && !WorksOn(w.requests[r], u)
    ensures
      Spares(d, w, r, u)
      <==> !(Exposed(d, w, w.requests[r]) && SameFs(u, w.requests[r].volume) && (u in w.volDirs || u in w.nodesDirs))
  {
    var q := w.requests[r];
    if Exposed(d, w, q) && SameFs(u, q.volume) && (u in w.volDirs || u in w.nodesDirs) {
      assert Enabled(d, w, ControllerStep(r, Fail(true)));
      ExposedView(d, w, r, Fail(true), u);
      assert u !in ControllerNext(d, w, r, Fail(true)).nodesDirs;
    } else {
      forall o | Enabled(d, w, ControllerStep(r, o))
        ensures
          var w' := ControllerNext(d, w, r, o);
          ViewOf(w', u) == ViewOf(w, u) && SameTracking(w, w', u)
      {
        if Exposed(d, w, q) {
          ExposedView(d, w, r, o, u);
        } else {
          StepTouchesOwnVolume(d, w, r, o, u);
        }
      }
    }
  }

  // ---- Lock discipline --------------------------------------------------------------------------------------

  ghost predicate LockInv(d: Deployment, w: World)
  {
    && (forall r :: r in w.requests ==> RequestFits(d, w.requests[r]))
    && (forall r :: r in w.requests && Holds(w.requests[r]) ==> w.requests[r].volume in w.locks)
    && (forall r, s :: r in w.requests && s in w.requests && r != s && Holds(w.requests[r]) && Holds(w.requests[s])
          ==> w.requests[r].volume != w.requests[s].volume)
    && (forall v :: v in w.locks ==> HasHolder(w, v))
  }

  predicate HasHolder(w: World, v: VolumeID)
  {
    exists r :: r in w.requests && Holds(w.requests[r]) && w.requests[r].volume == v
  }

  lemma LockMoveKeepsInv(d: Deployment, w: World, r: RequestID, w': World)
    requires LockInv(d, w) && r in w.requests && r in w'.requests
    requires LockMove(w, r, w') && RequestFits(d, w'.requests[r])
    ensures LockInv(d, w')
  {
    forall v | v in w'.locks ensures HasHolder(w', v) {
      LockMoveKeepsHolder(d, w, r, w', v);
    }
  }

  lemma LockMoveKeepsHolder(d: Deployment, w: World, r: RequestID, w': World, v: VolumeID)
    requires LockInv(d, w) && r in w.requests && r in w'.requests && LockMove(w, r, w') && v in w'.locks
    ensures HasHolder(w', v)
  {
    if v in w.locks {
      assert HasHolder(w, v);
      var s :| s in w.requests && Holds(w.requests[s]) && w.requests[s].volume == v;
      assert s in w'.requests && Holds(w'.requests[s]) && w'.requests[s].volume == v;
    } else {
      assert Holds(w'.requests[r]) && w'.requests[r].volume == v;
    }
  }

  lemma NodesLeaveController(d: Deployment, w: World, n: NodeID, v: VolumeID, o: Outcome)
    ensures
      var w' := NodeNext(d, w, n, v, o);
      && w'.requests == w.requests && w'.locks == w.locks && w'.status == w.status
      && w'.createFailed == w.createFailed && w'.deleteFailed == w.deleteFailed
      && w'.wiped == w.wiped && w'.volDirs == w.volDirs
      && w'.files == w.files && w'.mounts == w.mounts
      && (forall u :: u != v ==> SameTracking(w, w', u))
  {
  }

  lemma LockInvBegin(d: Deployment, w: World, r: RequestID, q: Request, w': World)
    requires LockInv(d, w) && r !in w.requests && RequestFits(d, q) && !Holds(q)
    requires w'.requests == w.requests[r := q] && w'.locks == w.locks
    ensures LockInv(d, w')
  {
    forall u | u in w'.locks ensures HasHolder(w', u) {
      assert HasHolder(w, u);
      var t :| t in w.requests && Holds(w.requests[t]) && w.requests[t].volume == u;
      assert w'.requests[t] == w.requests[t];
    }
  }

  lemma LockInvNext(d: Deployment, w: World, s: Step)
    requires LockInv(d, w)
    ensures LockInv(d, Next(d, w, s))
  {
    if Enabled(d, w, s) {
      match s
      case BeginRequest(r, kind, v, special) =>
        LockInvBegin(d, w, r, Next(d, w, s).requests[r], Next(d, w, s));
      case ControllerStep(r, o) =>
        StepMovesLock(d, w, r, o);
        StepKeepsFit(d, w, r, o);
        LockMoveKeepsInv(d, w, r, Next(d, w, s));
      case Restart =>
        LockInvRestart(d, w);
      case Reboot =>
        LockInvRestart(d, w);
        LockInvElsewhere(d, Restarted(w), Next(d, w, s));
      case _ =>
        LockInvElsewhere(d, w, Next(d, w, s));
    }
  }

  lemma LockInvElsewhere(d: Deployment, w: World, w': World)
    requires LockInv(d, w) && w'.requests == w.requests && w'.locks == w.locks
    ensures LockInv(d, w')
  {
    forall v | v in w'.locks ensures HasHolder(w', v) {
      assert HasHolder(w, v);
    }
  }

  lemma LockInvRestart(d: Deployment, w: World)
    requires LockInv(d, w)
    ensures LockInv(d, Restarted(w))
  {
    forall r | r in w.requests ensures RequestFits(d, EndedByRestart(w.requests[r])) {
      assert RequestFits(d, w.requests[r]);
    }
  }

  /** Over every run: one holder per volume, no lock without a holder, every lock released exactly once. */
  lemma {:induction false} LockDiscipline(d: Deployment, steps: seq<Step>)
    ensures LockInv(d, Run(d, INITIAL, steps))
  {
    if steps != [] {
      LockDiscipline(d, steps[..|steps| - 1]);
      LockInvNext(d, Run(d, INITIAL, steps[..|steps| - 1]), steps[|steps| - 1]);
    }
  }

  // ---- The status cache ---------------------------------------------------------------------------------------

  /**
   A cached "created" is true unless a delete has failed under the lock since it was written, or the directory
   was wiped.
   */
  predicate CreatedIsTrue(view: View)
  {
    view.status == Some(Created) && !view.deleteFailed && !view.wiped ==> view.dirExists
  }

  /** A cached "deleted" is true unless a create has failed under the lock since it was written. */
  predicate DeletedIsTrue(view: View)
  {
    view.status == Some(Deleted) && !view.createFailed ==> !view.dirExists
  }

  predicate WipedIsGone(view: View)
  {
    view.wiped ==> !view.dirExists
  }

  predicate Agrees(view: View)
  {
    CreatedIsTrue(view) && DeletedIsTrue(view) && WipedIsGone(view)
  }

  predicate BeforeChange(p: Phase)
  {
    || p == MakeWorkDir || p == WriteClientFiles || p == CreateVolDir || p == MountForDelete || p == CheckNodesDir
    || p == CheckEmpty || p == RemoveNodesDir || p == RemoveVolDir
  }

  predicate AfterCreation(p: Phase)
  {
    p == SetPattern || p == MountForChmod || p == ChangeMode || p == CreateNodesDir || p == WriteCreated
  }

  /** What the holder of a lock knows about its volume on the way. */
  predicate CreatorKnows(view: View, q: Request)
  {
    && CreatedIsTrue(view) && WipedIsGone(view)
    && (BeforeChange(q.phase) ==> DeletedIsTrue(view))
    && (AfterCreation(q.phase) && !view.wiped ==> view.dirExists)
    && (!BeforeChange(q.phase) && !AfterCreation(q.phase) && !q.failed ==>
          view.status == Some(Created) && (view.dirExists <==> !view.wiped))
  }

  predicate DeleterKnows(view: View, q: Request)
  {
    && DeletedIsTrue(view) && WipedIsGone(view)
    && (BeforeChange(q.phase) ==> CreatedIsTrue(view))
    && (!BeforeChange(q.phase) && !q.failed ==> !view.dirExists)
    && (q.phase == ReleaseLock && !q.failed ==> view.status == Some(Deleted))
  }

  /** A validation that has looked and has no error to report has seen the directory. */
  predicate ValidatorKnows(view: View, q: Request)
  {
    Agrees(view) && (!BeforeChange(q.phase) && q.phase != StatVolDir && !q.failed ==> view.dirExists || view.wiped)
  }

  /** Known about a volume while a request is at this point: the agreement, unless the request is changing it. */
  predicate Known(view: View, q: Request)
  {
    if !Holds(q) then Agrees(view)
    else if q.kind == Validate then ValidatorKnows(view, q)
    else if q.kind == Create then CreatorKnows(view, q)
    else DeleterKnows(view, q)
  }

  ghost predicate CacheInv(w: World)
  {
    && (forall v :: v !in w.locks ==> Agrees(ViewOf(w, v)))
    && (forall r :: r in w.requests && Holds(w.requests[r]) ==> Known(ViewOf(w, w.requests[r].volume), w.requests[r]))
  }

  lemma CreatorStillPreparing(w: World, view: View, q: Request, o: Outcome)
    requires q.kind == Create && BeforeChange(q.phase) && PhaseFits(q) && o != GiveUp && CreatorKnows(view, q)
    ensures Known(NextView(view, q, o), NextRequest(w, q, o))
  {
  }

  lemma CreatorStillWorking(w: World, view: View, q: Request, o: Outcome)
    requires q.kind == Create && AfterCreation(q.phase) && PhaseFits(q) && o != GiveUp && CreatorKnows(view, q)
    ensures Known(NextView(view, q, o), NextRequest(w, q, o))
  {
  }

  lemma CreatorStillKnows(w: World, view: View, q: Request, o: Outcome)
    requires q.kind == Create && Holds(q) && !BeforeChange(q.phase) && !AfterCreation(q.phase) && PhaseFits(q)
    requires o != GiveUp && CreatorKnows(view, q)
    ensures Known(NextView(view, q, o), NextRequest(w, q, o))
  {
  }

  lemma DeleterStillWorking(w: World, view: View, q: Request, o: Outcome)
    requires q.kind == Delete && BeforeChange(q.phase) && PhaseFits(q) && (o == GiveUp ==> q.phase == CheckEmpty)
    requires DeleterKnows(view, q)
    ensures Known(NextView(view, q, o), NextRequest(w, q, o))
  {
  }

  lemma DeleterStillKnows(w: World, view: View, q: Request, o: Outcome)
    requires q.kind == Delete && !BeforeChange(q.phase) && Holds(q) && PhaseFits(q) && o != GiveUp
    requires DeleterKnows(view, q)
    ensures Known(NextView(view, q, o), NextRequest(w, q, o))
  {
  }

  lemma BystanderKnows(w: World, view: View, q: Request, o: Outcome)
    requires !Holds(q) && PhaseFits(q) && (q.phase == ObtainLock ==> !q.failed) && Agrees(view)
    ensures Known(NextView(view, q, o), NextRequest(w, q, o))
  {
  }

  lemma ValidatorStillKnows(w: World, view: View, q: Request, o: Outcome)
    requires Holds(q) && q.kind == Validate && PhaseFits(q) && o != GiveUp && ValidatorKnows(view, q)
    requires q.phase == StatVolDir ==> (view.dirExists <==> q.volume in w.volDirs)
    ensures Known(NextView(view, q, o), NextRequest(w, q, o))
  {
  }

  lemma NextKnown(w: World, view: View, q: Request, o: Outcome)
    requires PhaseFits(q) && (q.phase == ObtainLock ==> !q.failed) && (o == GiveUp ==> q.phase == CheckEmpty)
    requires Known(view, q) && (q.phase == StatVolDir ==> (view.dirExists <==> q.volume in w.volDirs))
    ensures Known(NextView(view, q, o), NextRequest(w, q, o))
  {
    if q.kind == Create && BeforeChange(q.phase) {
      CreatorStillPreparing(w, view, q, o);
    } else if q.kind == Create && AfterCreation(q.phase) {
      CreatorStillWorking(w, view, q, o);
    } else if Holds(q) && q.kind == Create {
      CreatorStillKnows(w, view, q, o);
    } else if q.kind == Delete && BeforeChange(q.phase) {
      DeleterStillWorking(w, view, q, o);
    } else if Holds(q) && q.kind == Delete {
      DeleterStillKnows(w, view, q, o);
    } else if Holds(q) {
      ValidatorStillKnows(w, view, q, o);
    } else {
      BystanderKnows(w, view, q, o);
    }
  }

  /** Losing its directory breaks nothing that is known about a volume. */
  lemma KnownWithoutDir(view: View, q: Request)
    requires Known(view, q)
    ensures Known(WithoutDir(view), q)
  {
  }

  lemma ExposedKnown(w: World, view: View, q: Request, o: Outcome)
    requires q.phase == RemoveWorkDir && PhaseFits(q) && o != GiveUp && Known(view, q)
    ensures Known(view, NextRequest(w, q, o)) && Known(WithoutDir(view), NextRequest(w, q, o))
  {
    KnownWithoutDir(view, q);
    if !o.Wipe? {
      NextKnown(w, view, q, o);
      NextKnown(w, WithoutDir(view), q, o);
    }
  }

  /** A step that takes directories away, and otherwise only moves one lock holder on. */
  lemma CacheInvAfterLoss(w: World, r: RequestID, w': World)
    requires CacheInv(w) && r in w.requests && r in w'.requests && Holds(w.requests[r])
    requires w'.locks == w.locks && w'.requests == w.requests[r := w'.requests[r]]
    requires w'.requests[r].volume == w.requests[r].volume
    requires forall v :: ViewOf(w', v) == ViewOf(w, v) || ViewOf(w', v) == WithoutDir(ViewOf(w, v))
    requires
      var view := ViewOf(w, w.requests[r].volume);
      Known(view, w'.requests[r]) && Known(WithoutDir(view), w'.requests[r])
    ensures CacheInv(w')
  {
    forall s | s in w'.requests && Holds(w'.requests[s])
      ensures Known(ViewOf(w', w'.requests[s].volume), w'.requests[s])
    {
      if s != r {
        KnownWithoutDir(ViewOf(w, w.requests[s].volume), w.requests[s]);
      }
    }
  }

  lemma CacheInvExposed(d: Deployment, w: World, r: RequestID, o: Outcome)
    requires LockInv(d, w) && CacheInv(w) && Enabled(d, w, ControllerStep(r, o)) && Exposed(d, w, w.requests[r])
    ensures CacheInv(ControllerNext(d, w, r, o))
  {
    var q, w' := w.requests[r], ControllerNext(d, w, r, o);
    assert RequestFits(d, q) && Known(ViewOf(w, q.volume), q);
    ExposedKnown(w, ViewOf(w, q.volume), q, o);
    ExposedStays(w, q, o);
    forall v ensures ViewOf(w', v) == ViewOf(w, v) || ViewOf(w', v) == WithoutDir(ViewOf(w, v)) {
      ExposedView(d, w, r, o, v);
    }
    CacheInvAfterLoss(w, r, w');
  }

  lemma ExposedStays(w: World, q: Request, o: Outcome)
    requires q.phase == RemoveWorkDir
    ensures NextLocks(w, q) == w.locks && NextRequest(w, q, o).volume == q.volume && Holds(NextRequest(w, q, o))
  {
  }

  lemma CacheInvController(d: Deployment, w: World, r: RequestID, o: Outcome)
    requires LockInv(d, w) && CacheInv(w) && Enabled(d, w, ControllerStep(r, o)) && !Exposed(d, w, w.requests[r])
    ensures CacheInv(ControllerNext(d, w, r, o))
  {
    var w' := ControllerNext(d, w, r, o);
    var q := w.requests[r];
    StepMovesLock(d, w, r, o);
    StepView(d, w, r, o);
    if Holds(q) || q.volume !in w.locks {
      NextKnown(w, ViewOf(w, q.volume), q, o);
    }
    forall v | v !in w'.locks && (v != q.volume || !Holds(q)) ensures Agrees(ViewOf(w', v)) {
      OtherStillAgrees(d, w, r, o, v);
    }
    forall s | s in w'.requests && Holds(w'.requests[s])
      ensures Known(ViewOf(w', w'.requests[s].volume), w'.requests[s])
    {
      if s != r {
        OtherHolderKnows(d, w, r, o, s);
      }
    }
  }

  lemma OtherStillAgrees(d: Deployment, w: World, r: RequestID, o: Outcome, v: VolumeID)
    requires LockInv(d, w) && CacheInv(w) && Enabled(d, w, ControllerStep(r, o)) && !Exposed(d, w, w.requests[r])
    requires v !in ControllerNext(d, w, r, o).locks && (v != w.requests[r].volume || !Holds(w.requests[r]))
    ensures Agrees(ViewOf(ControllerNext(d, w, r, o), v))
  {
    assert RequestFits(d, w.requests[r]);
    StepMovesLock(d, w, r, o);
    StepTouchesOwnVolume(d, w, r, o, v);
  }

  lemma OtherHolderKnows(d: Deployment, w: World, r: RequestID, o: Outcome, s: RequestID)
    requires LockInv(d, w) && CacheInv(w) && r in w.requests && !Exposed(d, w, w.requests[r])
    requires s in w.requests && s != r && Holds(w.requests[s])
    ensures Known(ViewOf(ControllerNext(d, w, r, o), w.requests[s].volume), w.requests[s])
  {
    assert RequestFits(d, w.requests[r]);
    StepTouchesOwnVolume(d, w, r, o, w.requests[s].volume);
  }

  lemma CacheInvElsewhere(w: World, w': World)
    requires CacheInv(w) && w'.locks == w.locks
    requires w'.status == w.status && w'.volDirs == w.volDirs && w'.createFailed == w.createFailed
    requires w'.deleteFailed == w.deleteFailed
    requires w'.wiped == w.wiped
    requires forall t :: t in w'.requests && Holds(w'.requests[t]) ==>
      t in w.requests && w'.requests[t] == w.requests[t]
    ensures CacheInv(w')
  {
    assert forall v :: ViewOf(w', v) == ViewOf(w, v);
  }

  lemma CacheInvRestart(d: Deployment, w: World)
    requires LockInv(d, w) && CacheInv(w)
    ensures CacheInv(Restarted(w))
  {
    forall v ensures Agrees(ViewOf(Restarted(w), v)) {
      if v in w.locks {
        assert HasHolder(w, v);
        var r :| r in w.requests && Holds(w.requests[r]) && w.requests[r].volume == v;
        assert Known(ViewOf(w, v), w.requests[r]);
      } else {
        assert Agrees(ViewOf(w, v));
      }
    }
  }

  lemma CacheInvNext(d: Deployment, w: World, s: Step)
    requires LockInv(d, w) && CacheInv(w)
    ensures CacheInv(Next(d, w, s))
  {
    if Enabled(d, w, s) {
      if s.ControllerStep? && Exposed(d, w, w.requests[s.r]) {
        CacheInvExposed(d, w, s.r, s.outcome);
      } else if s.ControllerStep? {
        CacheInvController(d, w, s.r, s.outcome);
      } else if s.Restart? || s.Reboot? {
        CacheInvRestart(d, w);
        CacheInvElsewhere(Restarted(w), Next(d, w, s));
      } else {
        CacheInvElsewhere(w, Next(d, w, s));
      }
    }
  }

  lemma {:induction false} CacheInvAlways(d: Deployment, steps: seq<Step>)
    ensures LockInv(d, Run(d, INITIAL, steps)) && CacheInv(Run(d, INITIAL, steps))
  {
    LockDiscipline(d, steps);
    if steps != [] {
      CacheInvAlways(d, steps[..|steps| - 1]);
      CacheInvNext(d, Run(d, INITIAL, steps[..|steps| - 1]), steps[|steps| - 1]);
    }
  }

  /** A delete of the volume holds its lock and may have removed the directory. */
  ghost predicate DeleteUnderWay(w: World, v: VolumeID)
  {
    exists r :: r in w.requests && Holds(w.requests[r]) && w.requests[r].volume == v
                && w.requests[r].kind == Delete && !BeforeChange(w.requests[r].phase)
  }

  /** A create of the volume holds its lock and may have made the directory. */
  ghost predicate CreateUnderWay(w: World, v: VolumeID)
  {
    exists r :: r in w.requests && Holds(w.requests[r]) && w.requests[r].volume == v
                && w.requests[r].kind == Create && !BeforeChange(w.requests[r].phase)
  }

  /** The cache says "created" and the directory is there, or was wiped. */
  predicate CreatedHolds(w: World, v: VolumeID)
  {
    v in w.volDirs <==> v !in w.wiped
  }

  /**
   Over every run, whoever holds the lock: a cached "created" is right exactly if the directory was not wiped,
   unless a delete has failed since or is past its removal; a cached "deleted" is right, unless a create has
   failed since or is past making the directory.
   */
  lemma CacheAgrees(d: Deployment, steps: seq<Step>, v: VolumeID)
    ensures
      var w := Run(d, INITIAL, steps);
      v in w.status ==>
        && (w.status[v] == Created && v !in w.deleteFailed && !DeleteUnderWay(w, v) ==> CreatedHolds(w, v))
        && (w.status[v] == Deleted && v !in w.createFailed && !CreateUnderWay(w, v) ==> v !in w.volDirs)
  {
    CacheInvAlways(d, steps);
    var w := Run(d, INITIAL, steps);
    if v in w.locks {
      assert HasHolder(w, v);
      var r :| r in w.requests && Holds(w.requests[r]) && w.requests[r].volume == v;
      assert Known(ViewOf(w, v), w.requests[r]);
    } else {
      assert Agrees(ViewOf(w, v));
    }
  }

  /** Nothing is under way on a volume whose lock is free. */
  lemma FreeMeansNothingUnderWay(d: Deployment, steps: seq<Step>, v: VolumeID)
    requires v !in Run(d, INITIAL, steps).locks
    ensures !DeleteUnderWay(Run(d, INITIAL, steps), v) && !CreateUnderWay(Run(d, INITIAL, steps), v)
  {
    LockDiscipline(d, steps);
  }

  /**
   Over every run, a success that is answered from the cache, before the lock is tried: for a create the
   directory is there unless it was wiped, for a delete it is not there. The exceptions are a request of the
   opposite kind that has failed since the status was written, or that is at work and has not replied yet, so
   that the answer comes before it.
   */
  lemma CachedReplyIsTrue(d: Deployment, steps: seq<Step>, r: RequestID)
    requires
      var w := Run(d, INITIAL, steps);
      r in w.requests && w.requests[r].phase == ReadStatus && AnswersFromCache(w, w.requests[r])
    ensures
      var w := Run(d, INITIAL, steps);
      var v := w.requests[r].volume;
      && NextRequest(w, w.requests[r], Ok).reply == Success
      && (w.requests[r].kind == Create ==> CreatedHolds(w, v) || v in w.deleteFailed || DeleteUnderWay(w, v))
      && (w.requests[r].kind == Delete ==> v !in w.volDirs || v in w.createFailed || CreateUnderWay(w, v))
  {
    CacheAgrees(d, steps, Run(d, INITIAL, steps).requests[r].volume);
  }

  /**
   Over every run, a request that did its work under the lock reports success only if the directory is as it
   should be, or was wiped again meanwhile; after a create or delete the cache says so, too.
   */
  lemma SuccessIsTrue(d: Deployment, steps: seq<Step>, r: RequestID)
    ensures
      var w := Run(d, INITIAL, steps);
      r in w.requests && w.requests[r].phase == ReleaseLock && !w.requests[r].failed ==>
        var v := w.requests[r].volume;
        match w.requests[r].kind
        case Create => v in w.status && w.status[v] == Created && (v in w.volDirs <==> v !in w.wiped)
        case Delete => v in w.status && w.status[v] == Deleted && v !in w.volDirs
        case Validate => v in w.volDirs || v in w.wiped
  {
    CacheInvAlways(d, steps);
    var w := Run(d, INITIAL, steps);
    if r in w.requests && Holds(w.requests[r]) {
      assert Known(ViewOf(w, w.requests[r].volume), w.requests[r]);
    }
  }

  // ---- Getting to the release ---------------------------------------------------------------------------------

  /** An upper bound on the steps to the end, not counting repeated looks and unlinked files. */
  function Rank(p: Phase): (n: nat)
  {
    match p
    case ReadStatus => 16
    case ObtainLock => 15
    case MakeWorkDir => 14
    case WriteClientFiles => 13
    case CreateVolDir => 12
    case SetPattern => 11
    case MountForChmod => 10
    case ChangeMode => 9
    case CreateNodesDir => 8
    case WriteCreated => 7
    case MountForDelete => 12
    case CheckNodesDir => 11
    case CheckEmpty => 10
    case RemoveNodesDir => 9
    case RemoveVolDir => 8
    case StatVolDir => 7
    case ListMounts => 6
    case UnmountWork => 5
    case RemoveWorkDir => 4
    case WriteDeleted => 3
    case ReleaseLock => 2
    case Finished => 0
  }

  /** The directory is looked at again, or a removal is still under way. */
  predicate Repeats(w: World, q: Request, o: Outcome)
  {
    || (q.phase == CheckEmpty && o == Ok && q.volume in w.nodesDirs && w.nodesDirs[q.volume] != {})
    || (q.phase == RemoveNodesDir && StillRemoving(w, q, o))
    || (q.phase == RemoveWorkDir && o.Wipe?)
  }

  /** Whatever its calls do, each step of a request brings it nearer to its end, and so to the release of its lock. */
  lemma StepsApproachEnd(w: World, q: Request, o: Outcome)
    requires q.phase != Finished
    ensures
      var q' := NextRequest(w, q, o);
      if Repeats(w, q, o) then Rank(q'.phase) == Rank(q.phase) + (if q.phase == CheckEmpty then 1 else 0) && Holds(q')
      else Rank(q'.phase) < Rank(q.phase)
  {
    if BeforeChange(q.phase) && !Repeats(w, q, o) {
      WorkApproachesEnd(w, q, o);
    } else if AfterCreation(q.phase) {
      CreationApproachesEnd(w, q, o);
    }
  }

  lemma CreationApproachesEnd(w: World, q: Request, o: Outcome)
    requires AfterCreation(q.phase)
    ensures Rank(NextRequest(w, q, o).phase) < Rank(q.phase)
  {
  }

  lemma WorkApproachesEnd(w: World, q: Request, o: Outcome)
    requires BeforeChange(q.phase) && !Repeats(w, q, o)
    ensures Rank(NextRequest(w, q, o).phase) < Rank(q.phase)
  {
  }

  /** A step of the request that is not one of the repeating ones. */
  ghost predicate MovesOn(d: Deployment, w: World, s: Step, r: RequestID)
  {
    && s.ControllerStep? && s.r == r && Enabled(d, w, s)
    && w.requests[r].phase != Finished && !Repeats(w, w.requests[r], s.outcome)
  }

  /** The request finds nodes in the tracking directory and is going to look again. */
  ghost predicate LooksAgain(d: Deployment, w: World, s: Step, r: RequestID)
  {
    && s.ControllerStep? && s.r == r && Enabled(d, w, s)
    && w.requests[r].phase == CheckEmpty && Repeats(w, w.requests[r], s.outcome)
  }

  ghost function Moves(d: Deployment, w: World, steps: seq<Step>, r: RequestID): (n: nat)
  {
    if steps == [] then 0
    else
      var k := |steps| - 1;
      Moves(d, w, steps[..k], r) + if MovesOn(d, Run(d, w, steps[..k]), steps[k], r) then 1 else 0
  }

  ghost function Looks(d: Deployment, w: World, steps: seq<Step>, r: RequestID): (n: nat)
  {
    if steps == [] then 0
    else
      var k := |steps| - 1;
      Looks(d, w, steps[..k], r) + if LooksAgain(d, Run(d, w, steps[..k]), steps[k], r) then 1 else 0
  }

  lemma RankNext(d: Deployment, w: World, s: Step, r: RequestID)
    requires r in w.requests
    ensures r in Next(d, w, s).requests
    ensures
      Rank(Next(d, w, s).requests[r].phase) + (if MovesOn(d, w, s, r) then 1 else 0)
      <= Rank(w.requests[r].phase) + if LooksAgain(d, w, s, r) then 1 else 0
  {
    if s.ControllerStep? && s.r == r && Enabled(d, w, s) {
      RankAfterStep(d, w, r, s.outcome);
    } else {
      RankElsewhere(d, w, s, r);
    }
  }

  lemma RankAfterStep(d: Deployment, w: World, r: RequestID, o: Outcome)
    requires r in w.requests
    ensures
      var q, q' := w.requests[r], ControllerNext(d, w, r, o).requests[r];
      if q.phase == Finished then q' == q
      else if !Repeats(w, q, o) then Rank(q'.phase) < Rank(q.phase)
      else Rank(q'.phase) <= Rank(q.phase) + if q.phase == CheckEmpty then 1 else 0
  {
    var q := w.requests[r];
    assert ControllerNext(d, w, r, o).requests[r] == NextRequest(w, q, o);
    if q.phase == Finished {
      FinishedStays(w, q, o);
    } else {
      StepsApproachEnd(w, q, o);
    }
  }

  lemma FinishedStays(w: World, q: Request, o: Outcome)
    requires q.phase == Finished
    ensures NextRequest(w, q, o) == q
  {
  }

  /** Other steps leave a request as it is, or end it. */
  lemma RankElsewhere(d: Deployment, w: World, s: Step, r: RequestID)
    requires r in w.requests && !(s.ControllerStep? && s.r == r && Enabled(d, w, s))
    ensures r in Next(d, w, s).requests
    ensures Next(d, w, s).requests[r] == w.requests[r] || Next(d, w, s).requests[r].phase == Finished
  {
  }

  lemma {:induction false} MovesAreBounded(d: Deployment, w: World, steps: seq<Step>, r: RequestID)
    requires r in w.requests
    ensures r in Run(d, w, steps).requests
    ensures
      Moves(d, w, steps, r) + Rank(Run(d, w, steps).requests[r].phase)
      <= Rank(w.requests[r].phase) + Looks(d, w, steps, r)
  {
    if steps != [] {
      var k := |steps| - 1;
      MovesAreBounded(d, w, steps[..k], r);
      RankNext(d, Run(d, w, steps[..k]), steps[k], r);
    }
  }

  /**
   On every run, a request takes at most sixteen steps and one for each time that it looks again, not counting
   the pieces of removals, whatever its calls and everybody else do.
   */
  lemma RequestIsBounded(d: Deployment, w: World, r: RequestID, kind: Kind, v: VolumeID, special: bool,
      steps: seq<Step>)
    requires Enabled(d, w, BeginRequest(r, kind, v, special))
    ensures
      var begun := Next(d, w, BeginRequest(r, kind, v, special));
      Moves(d, begun, steps, r) <= 16 + Looks(d, begun, steps, r)
  {
    MovesAreBounded(d, Next(d, w, BeginRequest(r, kind, v, special)), steps, r);
  }
}
