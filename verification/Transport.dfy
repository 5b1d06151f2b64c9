/**
 * Transport calls, and what one client did in order: the clock it read, the tokens and
 * permits it asked for, the calls it sent and the sleeps it took. Only the client's own
 * primitives write this history.
 */
module Transport {
  import opened Wrappers

  datatype Method = Get | Post | Patch | Delete

  datatype Failure = Timeout | Io | BodyTooLarge | Tls | OtherFailure

  /** What a transport call comes back with. `retryAfter` is the header, parsed. */
  datatype Outcome = Response(status: nat, retryAfter: Option<nat>) | NoResponse(failure: Failure)

  /** Where a call goes. */
  datatype Url =
    | BatchUrl
    | TaskUrl(list: string, task: string)
    | ItemsUrl(list: string, task: string)
    | ItemUrl(list: string, task: string, item: string)

  /** What a call carries. */
  datatype Payload =
    | NoBody
    | Gets(urls: seq<(string, string)>)
    | StatusIs(completed: bool)
    | Fields(patch: string)
    | NameIs(name: string)
    | CheckedIs(checked: bool)

  datatype Call = Call(m: Method, url: Url, body: Payload)

  datatype TokenAnswer = Granted | Missing | Unreachable

  /** `at` is when the clock was read, or when the call began. `Reread` drops the cached
      token, so that the next one comes from the store. */
  datatype Event =
    | Read(at: int)
    | Token(answer: TokenAnswer)
    | Permit(timeout: nat, granted: bool)
    | Sent(at: int, call: Call, outcome: Outcome)
    | Reread
    | Slept(wait: nat)
  {
    predicate Stamped() {
      Read? || Sent?
    }
  }

  /** The answers of the calls made, in order. */
  function Calls(trace: seq<Event>): seq<Outcome> {
    if trace == [] then []
    else
      Calls(trace[..|trace| - 1])
      + if trace[|trace| - 1].Sent? then [trace[|trace| - 1].outcome] else []
  }

  /** The sleeps taken, in order. */
  function Naps(trace: seq<Event>): seq<nat> {
    if trace == [] then []
    else
      Naps(trace[..|trace| - 1])
      + if trace[|trace| - 1].Slept? then [trace[|trace| - 1].wait] else []
  }

  /** How often a token was asked for. */
  function Asks(trace: seq<Event>): nat {
    if trace == [] then 0
    else Asks(trace[..|trace| - 1]) + if trace[|trace| - 1].Token? then 1 else 0
  }

  /** Since the last call, or sleep, the clock was read before the deadline. */
  predicate Guarded(trace: seq<Event>, deadline: int) {
    trace != [] && !trace[|trace| - 1].Sent? && !trace[|trace| - 1].Slept?
    && ((trace[|trace| - 1].Read? && trace[|trace| - 1].at < deadline) || Guarded(trace[..|trace| - 1], deadline))
  }

  /** Each call comes after its own look at the clock, which was before the deadline;
      each sleep that takes any time could end by it when it was begun. */
  predicate Prompt(trace: seq<Event>, deadline: int) {
    trace != [] ==>
      var init, last := trace[..|trace| - 1], trace[|trace| - 1];
      && Prompt(init, deadline)
      && (last.Sent? ==> Guarded(init, deadline))
      && (last.Slept? && last.wait > 0 ==>
            init != [] && init[|init| - 1].Read? && init[|init| - 1].at + last.wait <= deadline)
  }

  /** All calls are the same one. */
  predicate AllOf(trace: seq<Event>, call: Call) {
    forall e | e in trace && e.Sent? :: e.call == call
  }

  /** The clock never runs backwards. */
  predicate Timed(trace: seq<Event>, now: int) {
    trace != [] ==>
      var init, last := trace[..|trace| - 1], trace[|trace| - 1];
      if last.Stamped() then last.at <= now && Timed(init, last.at) else Timed(init, now)
  }

  lemma {:induction false} TimedLater(trace: seq<Event>, now: int, later: int)
    requires Timed(trace, now) && now <= later
    ensures Timed(trace, later)
  {
    if trace != [] && !trace[|trace| - 1].Stamped() {
      TimedLater(trace[..|trace| - 1], now, later);
    }
  }

  lemma TimedAppend(trace: seq<Event>, now: int, e: Event, later: int)
    requires Timed(trace, now) && now <= later
    requires e.Stamped() ==> now <= e.at <= later
    ensures Timed(trace + [e], later)
  {
    assert (trace + [e])[..|trace|] == trace;
    TimedLater(trace, now, if e.Stamped() then e.at else later);
  }

  /** What is read off a history is read off its parts. */
  lemma {:induction false} Joined(a: seq<Event>, b: seq<Event>)
    ensures Calls(a + b) == Calls(a) + Calls(b) && Naps(a + b) == Naps(a) + Naps(b)
    ensures Asks(a + b) == Asks(a) + Asks(b)
  {
    if b == [] {
      assert a + b == a;
    } else {
      var init := b[..|b| - 1];
      Joined(a, init);
      assert (a + b)[..|a + b| - 1] == a + init;
    }
  }

  lemma {:induction false} GuardedJoined(a: seq<Event>, b: seq<Event>, deadline: int)
    requires Guarded(b, deadline)
    ensures Guarded(a + b, deadline)
  {
    assert (a + b)[..|a + b| - 1] == a + b[..|b| - 1];
    if !(b[|b| - 1].Read? && b[|b| - 1].at < deadline) {
      GuardedJoined(a, b[..|b| - 1], deadline);
    }
  }

  lemma {:induction false} PromptJoined(a: seq<Event>, b: seq<Event>, deadline: int)
    requires Prompt(a, deadline) && Prompt(b, deadline)
    ensures Prompt(a + b, deadline)
  {
    if b == [] {
      assert a + b == a;
    } else {
      var init := b[..|b| - 1];
      PromptJoined(a, init, deadline);
      assert (a + b)[..|a + b| - 1] == a + init;
      if b[|b| - 1].Sent? {
        GuardedJoined(a, init, deadline);
      }
    }
  }

  /** Stamps never decrease along a history. */
  lemma {:induction false} StampsClimb(trace: seq<Event>, now: int, i: nat, j: nat)
    requires Timed(trace, now) && i <= j < |trace| && trace[i].Stamped() && trace[j].Stamped()
    ensures trace[i].at <= trace[j].at <= now
    decreases |trace|
  {
    var init, last := trace[..|trace| - 1], trace[|trace| - 1];
    if j < |trace| - 1 {
      StampsClimb(init, if last.Stamped() then last.at else now, i, j);
    } else if i < j {
      StampsClimb(init, last.at, i, i);
    }
  }

  /** The look at the clock that guards what comes next. */
  lemma {:induction false} GuardFound(trace: seq<Event>, deadline: int) returns (k: nat)
    requires Guarded(trace, deadline)
    ensures k < |trace| && trace[k].Read? && trace[k].at < deadline
    ensures forall i | k <= i < |trace| :: !trace[i].Sent?
  {
    k := |trace| - 1;
    if !(trace[k].Read? && trace[k].at < deadline) {
      k := GuardFound(trace[..k], deadline);
    }
  }

  lemma {:induction false} PromptPrefix(trace: seq<Event>, deadline: int, j: nat)
    requires Prompt(trace, deadline) && j <= |trace|
    ensures Prompt(trace[..j], deadline)
    decreases |trace|
  {
    if j == |trace| {
      assert trace[..j] == trace;
    } else {
      PromptPrefix(trace[..|trace| - 1], deadline, j);
      assert trace[..|trace| - 1][..j] == trace[..j];
    }
  }

  /** Of all calls, only the last can begin after the deadline. */
  lemma OnlyTheLastIsLate(trace: seq<Event>, now: int, deadline: int, i: nat, j: nat)
    requires Timed(trace, now) && Prompt(trace, deadline)
    requires i < j < |trace| && trace[i].Sent? && trace[j].Sent?
    ensures trace[i].at < deadline
  {
    PromptPrefix(trace, deadline, j + 1);
    assert trace[..j + 1][..j] == trace[..j];
    var k := GuardFound(trace[..j], deadline);
    assert forall x | k <= x < j :: trace[..j][x] == trace[x];
    StampsClimb(trace, now, i, k);
  }

  /** No call but the last begins at the deadline or after it. */
  ghost predicate LateOnlyLast(trace: seq<Event>, deadline: int) {
    forall i, j | 0 <= i < j < |trace| && trace[i].Sent? && trace[j].Sent? :: trace[i].at < deadline
  }

  lemma {:induction false} TimedTail(a: seq<Event>, b: seq<Event>, now: int)
    requires Timed(a + b, now)
    ensures Timed(b, now)
    decreases |b|
  {
    if b != [] {
      var init, last := b[..|b| - 1], b[|b| - 1];
      assert (a + b)[..|a + b| - 1] == a + init && (a + b)[|a + b| - 1] == last;
      TimedTail(a, init, if last.Stamped() then last.at else now);
    }
  }

  lemma PromptIsLateOnlyLast(before: seq<Event>, trace: seq<Event>, now: int, deadline: int)
    requires Timed(before + trace, now) && Prompt(trace, deadline)
    ensures LateOnlyLast(trace, deadline)
  {
    TimedTail(before, trace, now);
    forall i, j | 0 <= i < j < |trace| && trace[i].Sent? && trace[j].Sent?
      ensures trace[i].at < deadline
    {
      OnlyTheLastIsLate(trace, now, deadline, i, j);
    }
  }

  /** The last call of a history. */
  function LastSent(trace: seq<Event>): (e: Option<Event>)
    ensures e.Some? ==> e.value.Sent?
  {
    if trace == [] then None
    else if trace[|trace| - 1].Sent? then Some(trace[|trace| - 1])
    else LastSent(trace[..|trace| - 1])
  }

  predicate SentLate(trace: seq<Event>, deadline: int) {
    exists e | e in trace :: e.Sent? && e.at >= deadline
  }

  /** The place of the last call; the beginning, if there is none. */
  lemma {:induction false} LastSentIsLast(trace: seq<Event>) returns (j: nat)
    ensures LastSent(trace).None? ==> j == 0
    ensures LastSent(trace).Some? ==> j < |trace| && trace[j] == LastSent(trace).value
    ensures forall i | j <= i < |trace| && trace[i].Sent? :: LastSent(trace).Some? && i == j
  {
    j := 0;
    if trace != [] {
      var init, last := trace[..|trace| - 1], |trace| - 1;
      if trace[last].Sent? {
        j := last;
      } else {
        j := LastSentIsLast(init);
        assert forall i | 0 <= i < last :: init[i] == trace[i];
      }
    }
  }

  /** Exactly when something is sent late: the last call's token or permit came at the
      deadline or after it, though the clock was before it when it was last looked at. */
  lemma LateIffTheLastIs(trace: seq<Event>, now: int, deadline: int)
    requires Timed(trace, now) && Prompt(trace, deadline)
    ensures SentLate(trace, deadline) <==> LastSent(trace).Some? && LastSent(trace).value.at >= deadline
  {
    var j := LastSentIsLast(trace);
    if LastSent(trace).Some? {
      forall i | 0 <= i < j && trace[i].Sent?
        ensures trace[i].at < deadline
      {
        OnlyTheLastIsLate(trace, now, deadline, i, j);
      }
    }
  }
}
