/**
 * The Graph concurrency ceiling: a counting semaphore, and any number of threads
 * running the send loop through it, with timeouts, spurious wakeups and panics.
 */
module Permits {
  import opened Wrappers

  type Tid = nat

  /** Where a thread stands in `send`. */
  datatype Place = Outside | GettingToken | WaitingForPermit | InTransport | Sleeping

  datatype World = World(available: nat, places: map<Tid, Place>, holders: set<Tid>)

  datatype Action =
    | Enter(tid: Tid)
    | TokenReady(tid: Tid)
    | TokenFailed(tid: Tid)
    | TakePermit(tid: Tid)
    | WakeForNothing(tid: Tid)
    | TimeOut(tid: Tid)
    | Answered(tid: Tid, next: Place)
    | Panic(tid: Tid)
    | WakeUp(tid: Tid)

  function PlaceOf(w: World, t: Tid): Place {
    if t in w.places then w.places[t] else Outside
  }

  function Move(w: World, t: Tid, p: Place): World {
    w.(places := w.places[t := p])
  }

  /** `Permit::drop`: runs when the transport call returns, and on an unwind. */
  function DropPermit(w: World, t: Tid): World {
    if t in w.holders then w.(available := w.available + 1, holders := w.holders - {t}) else w
  }

  function Step(w: World, a: Action): World {
    var t := a.tid;
    match (a, PlaceOf(w, t))
    case (Enter(_), Outside) => Move(w, t, GettingToken)
    case (TokenReady(_), GettingToken) => Move(w, t, WaitingForPermit)
    case (TokenFailed(_), GettingToken) => Move(w, t, Outside)
    case (TakePermit(_), WaitingForPermit) =>
      if w.available > 0 then
        Move(w, t, InTransport).(available := w.available - 1, holders := w.holders + {t})
      else w
    case (TimeOut(_), WaitingForPermit) => Move(w, t, Outside)
    // The answer came: the permit scope ends before anything else happens. Then a
    // result, a 401 re-read of the token, or a sleep.
    case (Answered(_, next), InTransport) =>
      Move(DropPermit(w, t), t, if next == GettingToken || next == Sleeping then next else Outside)
    case (Panic(_), InTransport) => Move(DropPermit(w, t), t, Outside)
    case (Panic(_), _) => Move(w, t, Outside)
    case (WakeUp(_), Sleeping) => Move(w, t, GettingToken)
    case _ => w
  }

  function Run(w: World, acts: seq<Action>): World
    decreases |acts|
  {
    if acts == [] then w else Run(Step(w, acts[0]), acts[1..])
  }

  function Idle(capacity: nat): World {
    World(capacity, map[], {})
  }

  function InFlight(w: World): set<Tid> {
    set t | t in w.places && w.places[t] == InTransport
  }

  ghost predicate Inv(w: World, capacity: nat) {
    && w.available + |w.holders| == capacity
    && (forall t :: t in w.holders <==> PlaceOf(w, t) == InTransport)
  }

  lemma StepInv(w: World, a: Action, capacity: nat)
    requires Inv(w, capacity)
    ensures Inv(Step(w, a), capacity)
  {
    var t := a.tid;
    if t in w.holders {
      assert |w.holders - {t}| == |w.holders| - 1;
    } else {
      assert |w.holders + {t}| == |w.holders| + 1;
    }
    forall u
      ensures u in Step(w, a).holders <==> PlaceOf(Step(w, a), u) == InTransport
    {
      assert u in w.holders <==> PlaceOf(w, u) == InTransport;
    }
  }

  lemma {:induction false} RunInv(w: World, acts: seq<Action>, capacity: nat)
    requires Inv(w, capacity)
    ensures Inv(Run(w, acts), capacity)
    decreases |acts|
  {
    if acts != [] {
      StepInv(w, acts[0], capacity);
      RunInv(Step(w, acts[0]), acts[1..], capacity);
    }
  }

  /** In every interleaving: permits are conserved, the transport calls in flight
      are exactly the permits out and never more than the capacity, and a thread
      that sleeps or waits for a token holds none. */
  lemma CeilingHolds(capacity: nat, acts: seq<Action>)
    ensures var w := Run(Idle(capacity), acts);
            && w.available + |InFlight(w)| == capacity
            && |InFlight(w)| <= capacity
            && InFlight(w) == w.holders
            && forall t | PlaceOf(w, t) == Sleeping || PlaceOf(w, t) == GettingToken :: t !in w.holders
  {
    RunInv(Idle(capacity), acts, capacity);
    var w := Run(Idle(capacity), acts);
    forall t
      ensures t in InFlight(w) <==> t in w.holders
    {
      assert t in w.holders <==> PlaceOf(w, t) == InTransport;
    }
    assert InFlight(w) == w.holders;
  }

  lemma {:induction false} RunAppend(w: World, acts: seq<Action>, a: Action)
    ensures Run(w, acts + [a]) == Step(Run(w, acts), a)
    decreases |acts|
  {
    if acts == [] {
      assert [a][1..] == [] && acts + [a] == [a];
      assert Run(w, [a]) == Run(Step(w, a), []);
    } else {
      assert (acts + [a])[1..] == acts[1..] + [a];
      RunAppend(Step(w, acts[0]), acts[1..], a);
    }
  }

  /** When everyone has left, every permit is back. */
  lemma AllPermitsComeBack(capacity: nat, acts: seq<Action>)
    requires forall t | t in Run(Idle(capacity), acts).places :: Run(Idle(capacity), acts).places[t] != InTransport
    ensures Run(Idle(capacity), acts).available == capacity
  {
    CeilingHolds(capacity, acts);
    assert InFlight(Run(Idle(capacity), acts)) == {};
  }

  /** The semaphore as one thread uses it, among all the others. */
  class Semaphore {
    const capacity: nat
    var w: World
    var time: int
    ghost var acts: seq<Action>

    ghost predicate Valid()
      reads this
    {
      w == Run(Idle(capacity), acts) && Inv(w, capacity)
    }

    constructor (permits: nat)
      ensures Valid() && capacity == permits && acts == []
    {
      capacity, w, acts := permits, Idle(permits), [];
    }

    method Apply(a: Action)
      requires Valid()
      modifies this`w, this`acts
      ensures Valid() && w == Step(old(w), a)
    {
      StepInv(w, a, capacity);
      RunAppend(Idle(capacity), acts, a);
      w, acts := Step(w, a), acts + [a];
    }

    method Others(tid: Tid)
      requires Valid()
      modifies this`w, this`acts
      ensures Valid() && PlaceOf(w, tid) == PlaceOf(old(w), tid)
    {
      var n: int :| n >= 0;
      for i := 0 to n
        invariant Valid() && PlaceOf(w, tid) == PlaceOf(old(w), tid)
      {
        var a: Action := *;
        if a.tid != tid {
          Apply(a);
        }
      }
    }

    /** `Condvar::wait_timeout`: gives up the lock, comes back later, perhaps for
        no reason at all. */
    method WaitTimeout(tid: Tid, remaining: nat) returns (timedOut: bool)
      requires Valid() && remaining > 0
      modifies this`w, this`acts, this`time
      ensures Valid() && PlaceOf(w, tid) == PlaceOf(old(w), tid)
      ensures time > old(time) && (timedOut ==> time >= old(time) + remaining)
    {
      Others(tid);
      timedOut := *;
      var more: int :| more >= 0;
      time := time + (if timedOut then remaining else 1) + more;
    }

    /** A permit, or nothing once the timeout is over and none is free. */
    method AcquireTimeout(tid: Tid, timeout: nat) returns (granted: bool)
      requires Valid() && PlaceOf(w, tid) == WaitingForPermit
      modifies this`w, this`acts, this`time
      ensures Valid()
      ensures granted ==> PlaceOf(w, tid) == InTransport && tid in w.holders
      ensures !granted ==> w.available == 0 && time >= old(time) + timeout && PlaceOf(w, tid) == Outside && tid !in w.holders
    {
      var deadline := time + timeout;
      Others(tid);
      while true
        invariant Valid() && PlaceOf(w, tid) == WaitingForPermit && time >= old(time)
        decreases deadline - time
      {
        if w.available > 0 {
          Apply(TakePermit(tid));
          return true;
        }
        var remaining := Max(deadline - time, 0);
        if remaining == 0 {
          Apply(TimeOut(tid));
          return false;
        }
        var timedOut := WaitTimeout(tid, remaining);
        // Re-check either way: a permit may have arrived on this very wake.
        if timedOut && w.available == 0 {
          Apply(TimeOut(tid));
          return false;
        }
      }
    }

    /** The RAII drop, on every way out of the transport call. */
    method Release(tid: Tid, next: Place)
      requires Valid() && PlaceOf(w, tid) == InTransport
      modifies this`w, this`acts
      ensures Valid() && w.available == old(w).available + 1 && tid !in w.holders
    {
      assert tid in w.holders;
      Apply(Answered(tid, next));
    }
  }
}
