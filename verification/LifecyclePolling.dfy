/** The waiting loop of a delete, as a loop over looks and as steps of the transition system. */
module LifecyclePolling {
  import opened Lifecycle
  import opened UnstageWait

  /** What the environment lets the two calls of a look do. */
  datatype Calls = Calls(stat: Outcome, empty: Outcome)

  /**
   The look is what the two calls find, in the worlds in which they are made: whether the directory exists, and
   then whether it is empty. The deadline has passed if the look is not waited on.
   */
  predicate Finds(w: World, w': World, v: VolumeID, look: Look, waits: bool, calls: Calls)
  {
    match look
    case DirError => calls.stat.Fail?
    case NoDir => calls.stat == Ok && v !in w.nodesDirs
    case ReadError => calls.stat == Ok && v in w.nodesDirs && (calls.empty.Fail? || v !in w'.nodesDirs)
    case Empty => calls.stat == Ok && v in w.nodesDirs
      && calls.empty == Ok && v in w'.nodesDirs && w'.nodesDirs[v] == {}
    case Occupied =>
      && calls.stat == Ok && v in w.nodesDirs && v in w'.nodesDirs && w'.nodesDirs[v] != {}
      && calls.empty == if waits then Ok else GiveUp
  }

  /** The steps that a request takes for one look. */
  function AfterLook(w: World, w': World, q: Request, calls: Calls): (q': Request)
  {
    var q1 := NextRequest(w, q, calls.stat);
    if q1.phase == CheckEmpty then NextRequest(w', q1, calls.empty) else q1
  }

  /** Where a request goes on, given how the loop ends. */
  function PhaseFor(result: Result): (p: Phase)
  {
    match result
    case Failed => ListMounts
    case Absent => RemoveVolDir
    case Unstaged => RemoveNodesDir
    case GaveUp => RemoveNodesDir
  }

  /** At the beginning of the loop. */
  predicate Polling(q: Request, v: VolumeID)
  {
    q.phase == CheckNodesDir && q.kind == Delete && !q.failed && q.volume == v
  }

  /** Out of the loop, where this result sends the request. */
  predicate Ended(q: Request, v: VolumeID, result: Result)
  {
    q.phase == PhaseFor(result) && q.kind == Delete && q.failed == (result == Failed) && q.volume == v
  }

  lemma LookRefines(w: World, w': World, q: Request, look: Look, waits: bool, calls: Calls)
    requires Polling(q, q.volume) && Finds(w, w', q.volume, look, waits, calls) && (waits ==> look == Occupied)
    ensures
      var q' := AfterLook(w, w', q, calls);
      if waits then Polling(q', q.volume) else Ended(q', q.volume, ResultOf(look))
  {
  }

  /** One look: the worlds in which its calls are made, and what they are let do. */
  datatype Glance = Glance(before: World, after: World, calls: Calls)

  ghost predicate Observes(v: VolumeID, glance: nat -> Glance, look: nat -> Look, clock: nat -> int, wait: Uint64)
  {
    forall k: nat ::
      Finds(glance(k).before, glance(k).after, v, look(k), Waits(look(k), clock(k), wait), glance(k).calls)
  }

  function Iterate(next: (Request, nat) -> Request, q: Request, n: nat): (q': Request)
  {
    if n == 0 then q else next(Iterate(next, q, n - 1), n - 1)
  }

  lemma {:induction false} StillPolling(next: (Request, nat) -> Request, q: Request, v: VolumeID, waits: nat -> bool,
      n: nat)
    requires Polling(q, v) && forall k: nat :: k < n ==> waits(k)
    requires forall p, k: nat :: Polling(p, v) && waits(k) ==> Polling(next(p, k), v)
    ensures Polling(Iterate(next, q, n), v)
  {
    if n > 0 {
      StillPolling(next, q, v, waits, n - 1);
      assert waits(n - 1);
    }
  }

  /** What the request does at each look. */
  function LookStep(glance: nat -> Glance): (next: (Request, nat) -> Request)
  {
    (q: Request, k: nat) => AfterLook(glance(k).before, glance(k).after, q, glance(k).calls)
  }

  /**
   The loop and the steps agree: whatever happens between the calls, a request whose looks are those of the loop
   comes back to the beginning until the last of them, and then leaves to where the result of the loop sends it.
   */
  method PollRefines(q: Request, glance: nat -> Glance, look: nat -> Look, clock: nat -> int, wait: Uint64)
    returns (result: Result, looks: nat)
    requires Polling(q, q.volume) && Ticks(clock) && Observes(q.volume, glance, look, clock, wait)
    ensures 1 <= looks <= HalfUp(wait) + 1
    ensures Polling(Iterate(LookStep(glance), q, looks - 1), q.volume)
    ensures Ended(Iterate(LookStep(glance), q, looks), q.volume, result)
  {
    result, looks := PollUntilWait(look, clock, wait);
    ghost var waits := (k: nat) => Waits(look(k), clock(k), wait);
    forall p, k: nat | Polling(p, q.volume)
      ensures
        var p' := LookStep(glance)(p, k);
        if waits(k) then Polling(p', q.volume) else Ended(p', q.volume, ResultOf(look(k)))
    {
      LookRefines(glance(k).before, glance(k).after, p, look(k), waits(k), glance(k).calls);
    }
    StillPolling(LookStep(glance), q, q.volume, waits, looks - 1);
    assert !waits(looks - 1);
  }
}
