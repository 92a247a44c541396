/**
 How long a delete waits for nodes to unstage: the polling loop, on 64-bit durations. What each look at the
 tracking directory finds, and what the clock shows, are given from outside.
 */
module UnstageWait {
  const TWO_63 := 0x8000_0000_0000_0000
  const TWO_64 := 0x1_0000_0000_0000_0000

  const SECOND := 1_000_000_000

  type Uint64 = x: int | 0 <= x < TWO_64

  function ToInt64(x: int): (r: int)
    ensures -TWO_63 <= r < TWO_63 && (-TWO_63 <= x < TWO_63 ==> r == x)
  {
    var y := x % TWO_64;
    if y < TWO_63 then y else y - TWO_64
  }

  /** The wait time in nanoseconds: a conversion and a product, each of which wraps around. */
  function Deadline(wait: Uint64): (r: int)
  {
    ToInt64(ToInt64(wait) * SECOND)
  }

  const LONGEST_WAIT := 9_223_372_036

  /** The deadline is never later than asked for, and it is as late exactly up to the longest wait that fits. */
  lemma DeadlineExactly(wait: Uint64)
    ensures Deadline(wait) <= wait * SECOND
    ensures Deadline(wait) == wait * SECOND <==> wait <= LONGEST_WAIT
  {
  }

  /** Whatever was asked for, the deadline is the 64-bit number that differs by a multiple of the word size. */
  lemma DeadlineWraps(wait: Uint64) returns (turns: int)
    ensures -TWO_63 <= Deadline(wait) < TWO_63 && Deadline(wait) == wait * SECOND - turns * TWO_64
  {
    var seconds := ToInt64(wait);
    var a, b := Turns(wait), Turns(seconds * SECOND);
    turns := a * SECOND + b;
    assert seconds == wait - a * TWO_64 && Deadline(wait) == seconds * SECOND - b * TWO_64;
  }

  /** How often a number goes round the word size. */
  function Turns(x: int): (n: int)
    ensures ToInt64(x) == x - n * TWO_64
  {
    if x % TWO_64 < TWO_63 then x / TWO_64 else x / TWO_64 + 1
  }

  lemma TooLongIsNoWait()
    ensures Deadline(LONGEST_WAIT + 1) < 0
  {
  }

  datatype Look = DirError | NoDir | ReadError | Empty | Occupied

  datatype Result = Failed | Absent | Unstaged | GaveUp

  /** How the loop ends if it ends at this look. */
  function ResultOf(look: Look): (r: Result)
  {
    match look
    case DirError => Failed
    case NoDir => Absent
    case ReadError => Failed
    case Empty => Unstaged
    case Occupied => GaveUp
  }

  /** The clock at each look, in nanoseconds since the first; between two looks there is a sleep of two seconds. */
  ghost predicate Ticks(clock: nat -> int)
  {
    clock(0) >= 0 && forall k: nat :: clock(k + 1) >= clock(k) + 2 * SECOND
  }

  lemma {:induction false} ClockAtLeast(clock: nat -> int, k: nat)
    requires Ticks(clock)
    ensures clock(k) >= k * 2 * SECOND
  {
    if k > 0 {
      ClockAtLeast(clock, k - 1);
      assert clock(k - 1 + 1) >= clock(k - 1) + 2 * SECOND;
    }
  }

  predicate Waits(look: Look, elapsed: int, wait: Uint64)
  {
    look == Occupied && elapsed < Deadline(wait)
  }

  function HalfUp(x: nat): (r: nat)
    ensures x <= 2 * r <= x + 1
  {
    (x + 1) / 2
  }

  lemma FewLooks(clock: nat -> int, wait: Uint64, k: nat)
    requires Ticks(clock) && clock(k) < Deadline(wait)
    ensures k < HalfUp(wait)
  {
    ClockAtLeast(clock, k);
    DeadlineExactly(wait);
  }

  /**
   The loop of deleteVolumeUntilWait: the look at which it ends is the first one that is not waited on, it
   ends after at most half the wait time's seconds, rounded up, and one more, and it gives up only with files
   left and the deadline behind it.
   */
  method PollUntilWait(look: nat -> Look, clock: nat -> int, wait: Uint64) returns (result: Result, looks: nat)
    requires Ticks(clock)
    ensures 1 <= looks <= HalfUp(wait) + 1
    ensures forall k: nat :: k < looks - 1 ==> Waits(look(k), clock(k), wait)
    ensures !Waits(look(looks - 1), clock(looks - 1), wait)
    ensures result == ResultOf(look(looks - 1))
    ensures result == Unstaged <==> look(looks - 1) == Empty
    ensures result == Absent <==> look(looks - 1) == NoDir
    ensures result == GaveUp <==> look(looks - 1) == Occupied
    ensures result == GaveUp && wait <= LONGEST_WAIT ==> clock(looks - 1) >= wait * SECOND
  {
    DeadlineExactly(wait);
    looks := 1;
    while look(looks - 1) == Occupied && clock(looks - 1) < Deadline(wait)
      invariant 1 <= looks <= HalfUp(wait) + 1
      invariant forall k: nat :: k < looks - 1 ==> Waits(look(k), clock(k), wait)
      decreases HalfUp(wait) + 1 - looks
    {
      FewLooks(clock, wait, looks - 1);
      looks := looks + 1;
    }
    match look(looks - 1)
    case DirError => result := Failed;
    case ReadError => result := Failed;
    case NoDir => result := Absent;
    case Empty => result := Unstaged;
    case Occupied => result := GaveUp;
  }

  /** The bound is met: if no node unstages and sleeps last no longer than asked for, that many looks are taken. */
  lemma BoundIsMet(look: nat -> Look, clock: nat -> int, wait: Uint64, looks: nat)
    requires wait <= LONGEST_WAIT && 1 <= looks <= HalfUp(wait) + 1
    requires forall k: nat :: look(k) == Occupied && clock(k) == k * 2 * SECOND
    requires !Waits(look(looks - 1), clock(looks - 1), wait)
    ensures looks == HalfUp(wait) + 1
  {
    DeadlineExactly(wait);
    assert clock(looks - 1) == (looks - 1) * 2 * SECOND;
  }
}
