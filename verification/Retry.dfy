/**
 * One Graph call: a request budget, a deadline, and the retry ladder. The permit
 * is held for exactly one transport call, never across a sleep or while a token
 * is being obtained.
 */
module Retry {
  import opened Wrappers
  import opened Transport

  const U32_MAX: nat := 0xFFFF_FFFF

  // Milliseconds.
  const BASE_BACKOFF: nat := 500
  const MAX_BACKOFF: nat := 20_000
  const MAX_RETRY_AFTER: nat := 120_000

  datatype AppError =
    | Throttled(retryAfterSecs: nat)
    | Exhausted
    | TransportFailed(failure: Failure)
    | BadBody
    | OffOrigin
    | InvalidArgs
    | Graph(status: nat)
    | NoToken
    | TokenUnreachable

  predicate Success(status: nat) {
    200 <= status < 300
  }

  predicate IsIdempotent(m: Method) {
    m.Get? || m.Delete?
  }

  predicate Retryable(status: nat, m: Method) {
    status == 429 || status == 503 || status == 504 || ((status == 500 || status == 502) && IsIdempotent(m))
  }

  /** Saturating `u32` multiplication. */
  function SaturatingMul(a: nat, b: nat): nat {
    if a * b <= U32_MAX then a * b else U32_MAX
  }

  function Pow2(n: nat): nat {
    if n == 0 then 1 else 2 * Pow2(n - 1)
  }

  /** The ladder before jitter: doubling from half a second, capped. */
  function BackoffBase(attempt: nat): nat {
    var exponent := if attempt == 0 then 0 else attempt - 1;
    var doubled := BASE_BACKOFF * Pow2(if exponent <= 20 then exponent else 20);
    if doubled <= MAX_BACKOFF then doubled else MAX_BACKOFF
  }

  lemma {:induction false} PowGrows(n: nat, m: nat)
    requires n <= m
    ensures 1 <= Pow2(n) <= Pow2(m)
    decreases m
  {
    if n < m {
      PowGrows(n, m - 1);
    } else if n > 0 {
      PowGrows(n - 1, m - 1);
    }
  }

  /** The ladder never goes down, and from the seventh rung on it is flat. */
  lemma BackoffClimbs(a: nat, b: nat)
    requires 1 <= a <= b
    ensures BASE_BACKOFF <= BackoffBase(a) <= BackoffBase(b) <= MAX_BACKOFF
    ensures a >= 7 ==> BackoffBase(a) == MAX_BACKOFF
  {
    var x, y := if a <= 21 then a - 1 else 20, if b <= 21 then b - 1 else 20;
    PowGrows(x, y);
    if a >= 7 {
      PowGrows(6, x);
      assert Pow2(6) == 64;
    }
  }

  class Budget {
    var deadline: int
    var requestsLeft: nat
    var requestsUsed: nat
    var maxPages: nat

    /** No counter can overflow: what is left and what is used share one total. */
    ghost predicate Valid()
      reads this
    {
      requestsLeft + requestsUsed <= U32_MAX
    }

    constructor (deadline: int, requests: nat, maxPages: nat)
      requires requests <= U32_MAX
      ensures Valid() && this.deadline == deadline && requestsLeft == requests && requestsUsed == 0
      ensures this.maxPages == maxPages
    {
      this.deadline, requestsLeft, requestsUsed, this.maxPages := deadline, requests, 0, maxPages;
    }

    /** A read budget: as many requests as pages. */
    constructor ForTool(now: int, deadlineMs: nat, maxPages: nat)
      requires maxPages <= U32_MAX
      ensures Valid() && requestsLeft == maxPages && this.maxPages == maxPages && requestsUsed == 0
      ensures deadline == now + deadlineMs
    {
      deadline, requestsLeft, requestsUsed, this.maxPages := now + deadlineMs, maxPages, 0, maxPages;
    }

    /** A write budget: every mutation may spend its whole ladder and one 401. */
    constructor ForWrites(deadline: int, mutations: nat, maxAttempts: nat)
      requires maxAttempts < U32_MAX
      ensures Valid() && this.deadline == deadline && maxPages == 0 && requestsUsed == 0
      ensures requestsLeft == SaturatingMul(Min(mutations, U32_MAX), Max(maxAttempts, 1) + 1)
    {
      var perMutation := Max(maxAttempts, 1) + 1;
      this.deadline, requestsUsed, maxPages := deadline, 0, 0;
      requestsLeft := SaturatingMul(Min(mutations, U32_MAX), perMutation);
    }

    method TakeRequest() returns (taken: bool)
      requires Valid()
      modifies this`requestsLeft, this`requestsUsed
      ensures Valid() && taken == (old(requestsLeft) > 0)
      ensures requestsLeft + requestsUsed == old(requestsLeft + requestsUsed)
      ensures requestsUsed == old(requestsUsed) + (if taken then 1 else 0)
    {
      if requestsLeft == 0 {
        return false;
      }
      requestsLeft := requestsLeft - 1;
      requestsUsed := requestsUsed + 1;
      return true;
    }
  }

  // -------------------------------------------------------------------------
  // What one send may do

  /** Why a call may be repeated with the same method. */
  predicate Resendable(m: Method, o: Outcome) {
    match o
    case Response(status, _) => status == 401 || Retryable(status, m)
    case NoResponse(f) => IsIdempotent(m) && f != BodyTooLarge
  }

  predicate Unauthorized(o: Outcome) {
    o.Response? && o.status == 401
  }

  function Unauthorizeds(calls: seq<Outcome>): nat {
    if calls == [] then 0
    else Unauthorizeds(calls[..|calls| - 1]) + if Unauthorized(calls[|calls| - 1]) then 1 else 0
  }

  predicate Repeatable(m: Method, calls: seq<Outcome>) {
    calls == [] || (Repeatable(m, calls[..|calls| - 1]) && Resendable(m, calls[|calls| - 1]))
  }

  /** A legal history of one send: every call but the last was one that may be
      repeated, and at most one of those was a 401. */
  predicate LegalSend(m: Method, calls: seq<Outcome>) {
    calls != [] ==> Repeatable(m, calls[..|calls| - 1]) && Unauthorizeds(calls[..|calls| - 1]) <= 1
  }

  lemma RepeatableIsLegal(m: Method, calls: seq<Outcome>)
    requires Repeatable(m, calls) && Unauthorizeds(calls) <= 1
    ensures LegalSend(m, calls)
  {
  }

  lemma CallAppended(m: Method, calls: seq<Outcome>, o: Outcome)
    requires Repeatable(m, calls) && Unauthorizeds(calls) <= 1
    ensures LegalSend(m, calls + [o]) && Last(calls + [o]) == Some(o)
    ensures Repeatable(m, calls + [o]) <==> Resendable(m, o)
    ensures Unauthorizeds(calls + [o]) == Unauthorizeds(calls) + if Unauthorized(o) then 1 else 0
    ensures Attempts(calls + [o]) == |calls| + 1 - Unauthorizeds(calls)
  {
    assert (calls + [o])[..|calls|] == calls;
  }

  lemma {:induction false} RepeatableAt(m: Method, calls: seq<Outcome>, i: nat)
    requires Repeatable(m, calls) && i < |calls|
    ensures Resendable(m, calls[i])
  {
    if i < |calls| - 1 {
      RepeatableAt(m, calls[..|calls| - 1], i);
    }
  }

  /** So a create or an update is sent again only after a throttling answer, or
      after the one 401. */
  lemma WritesAreNotRepeated(m: Method, calls: seq<Outcome>, i: nat)
    requires LegalSend(m, calls) && (m == Post || m == Patch) && i + 1 < |calls|
    ensures calls[i].Response? && calls[i].status in {429, 503, 504, 401}
  {
    RepeatableAt(m, calls[..|calls| - 1], i);
  }

  function Last(calls: seq<Outcome>): Option<Outcome> {
    if calls == [] then None else Some(calls[|calls| - 1])
  }

  /** An attempt that ended before its transport call, other than by the deadline. */
  predicate Unattempted(e: AppError) {
    e.Exhausted? || e.NoToken? || e.TokenUnreachable?
  }

  /** How a send ended, against the last answer it got. */
  predicate Settles(last: Option<Outcome>, r: Result<nat, AppError>) {
    match r
    case Ok(status) => last.Some? && last.value.Response? && last.value.status == status && Success(status)
    case Err(Graph(status)) => last.Some? && last.value.Response? && last.value.status == status && !Success(status)
    case Err(TransportFailed(f)) => last == Some(NoResponse(f))
    case Err(e) => e.Throttled? || Unattempted(e)
  }

  /** How many attempts a history took: the one 401 is not counted. */
  function Attempts(calls: seq<Outcome>): int {
    if calls == [] then 0 else |calls| - Unauthorizeds(calls[..|calls| - 1])
  }

  /** A send gives up on an answer only if that may not be repeated, or is a second
      401, or the attempts are used up. */
  predicate GaveUp(m: Method, calls: seq<Outcome>, r: Result<nat, AppError>, maxAttempts: nat) {
    r.Err? && (r.error.Graph? || r.error.TransportFailed?) ==>
      calls != []
      && (var last := calls[|calls| - 1];
          || !Resendable(m, last)
          || (Unauthorized(last) && Unauthorizeds(calls[..|calls| - 1]) > 0)
          || Attempts(calls) == maxAttempts)
  }

  /** The wait an answer calls for before attempt `attempt + 1`. */
  predicate WaitFits(o: Outcome, attempt: int, wait: Option<nat>) {
    match wait
    case None => Unauthorized(o)
    case Some(w) =>
      if o.Response? && o.retryAfter.Some? then w == Min(o.retryAfter.value, MAX_RETRY_AFTER)
      else attempt >= 1 && BackoffBase(attempt) <= w <= BackoffBase(attempt) + BackoffBase(attempt) / 4
  }

  /** Each call but the last was followed by the wait it called for. */
  predicate Spaced(calls: seq<Outcome>, waits: seq<Option<nat>>) {
    |waits| <= |calls|
    && (waits != [] ==>
          var k := |waits| - 1;
          Spaced(calls, waits[..k]) && WaitFits(calls[k], Attempts(calls[..k + 1]), waits[k]))
  }

  lemma {:induction false} SpacedIsLocal(calls: seq<Outcome>, more: seq<Outcome>, waits: seq<Option<nat>>)
    requires Spaced(calls, waits)
    ensures Spaced(calls + more, waits)
  {
    if waits != [] {
      var k := |waits| - 1;
      SpacedIsLocal(calls, more, waits[..k]);
      assert (calls + more)[..k + 1] == calls[..k + 1];
    }
  }

  lemma WaitAppended(calls: seq<Outcome>, waits: seq<Option<nat>>, wait: Option<nat>)
    requires Spaced(calls, waits) && |waits| + 1 == |calls|
    requires WaitFits(calls[|calls| - 1], Attempts(calls), wait)
    ensures Spaced(calls, waits + [wait])
  {
    var all := waits + [wait];
    assert all[..|waits|] == waits && calls[..|waits| + 1] == calls;
  }

  /** Where the loop stands, between two attempts. */
  ghost predicate Standing(
    m: Method, calls: seq<Outcome>, waits: seq<Option<nat>>, attempts: nat, authRetried: bool)
  {
    && Repeatable(m, calls)
    && Unauthorizeds(calls) == (if authRetried then 1 else 0)
    && |calls| == attempts + (if authRetried then 1 else 0)
    && |waits| == |calls| && Spaced(calls, waits)
  }

  /** Between two attempts of a send. */
  ghost predicate Between(t: Trail, m: Method, attempts: nat, authRetried: bool) {
    t.stage == Idle && Standing(m, t.calls, t.waits, attempts, authRetried)
  }

  /** What a send promises of its history. */
  ghost predicate Proper(
    m: Method, calls: seq<Outcome>, waits: seq<Option<nat>>, r: Result<nat, AppError>, maxAttempts: nat)
  {
    && Attempts(calls) <= maxAttempts && LegalSend(m, calls)
    && Settles(Last(calls), r) && GaveUp(m, calls, r, maxAttempts)
    && Spaced(calls, waits) && |waits| + 1 >= |calls|
    // What ended before another call could be made had been cleared to be repeated.
    && (r.Err? && Unattempted(r.error) ==> Repeatable(m, calls))
  }

  lemma StandingIsProper(
      m: Method, calls: seq<Outcome>, waits: seq<Option<nat>>, attempts: nat, authRetried: bool,
      e: AppError, maxAttempts: nat)
    requires Standing(m, calls, waits, attempts, authRetried) && attempts < maxAttempts
    requires e.Throttled? || Unattempted(e)
    ensures Proper(m, calls, waits, Err(e), maxAttempts)
  {
    RepeatableIsLegal(m, calls);
  }

  lemma StopIsProper(
      m: Method, calls: seq<Outcome>, waits: seq<Option<nat>>, attempts: nat, authRetried: bool,
      o: Outcome, r: Result<nat, AppError>, maxAttempts: nat)
    requires Standing(m, calls, waits, attempts, authRetried) && attempts < maxAttempts
    requires React(m, o, attempts + 1, authRetried, maxAttempts) == Stop(r)
    ensures Proper(m, calls + [o], waits, r, maxAttempts)
  {
    CallAppended(m, calls, o);
    SpacedIsLocal(calls, [o], waits);
    assert (calls + [o])[..|calls|] == calls;
  }

  lemma RereadStands(
      m: Method, calls: seq<Outcome>, waits: seq<Option<nat>>, attempts: nat, o: Outcome)
    requires Standing(m, calls, waits, attempts, false) && Unauthorized(o)
    ensures Standing(m, calls + [o], waits + [None], attempts, true)
  {
    CallAppended(m, calls, o);
    SpacedIsLocal(calls, [o], waits);
    WaitAppended(calls + [o], waits, None);
  }

  lemma WaitStands(
      m: Method, calls: seq<Outcome>, waits: seq<Option<nat>>, attempts: nat, authRetried: bool, o: Outcome, wait: nat)
    requires Standing(m, calls, waits, attempts, authRetried) && Resendable(m, o) && !Unauthorized(o)
    requires WaitFits(o, attempts + 1, Some(wait))
    ensures Standing(m, calls + [o], waits + [Some(wait)], attempts + 1, authRetried)
  {
    CallAppended(m, calls, o);
    SpacedIsLocal(calls, [o], waits);
    WaitAppended(calls + [o], waits, Some(wait));
  }

  lemma LateIsProper(
      m: Method, calls: seq<Outcome>, waits: seq<Option<nat>>, attempts: nat, authRetried: bool, o: Outcome, secs: nat,
      maxAttempts: nat)
    requires Standing(m, calls, waits, attempts, authRetried) && attempts < maxAttempts
    ensures Proper(m, calls + [o], waits, Err(Throttled(secs)), maxAttempts)
  {
    CallAppended(m, calls, o);
    SpacedIsLocal(calls, [o], waits);
  }

  /** What an answer means for the loop: the result, one re-read of the token
      store, or another attempt after a wait. */
  datatype Next = Stop(result: Result<nat, AppError>) | RereadToken | TryAgain(retryAfter: Option<nat>)

  function React(m: Method, o: Outcome, attempt: nat, authRetried: bool, maxAttempts: nat): (next: Next)
    ensures next.Stop? ==> Settles(Some(o), next.result) && (next.result.Err? ==> !Unattempted(next.result.error))
    ensures next.Stop? && next.result.Err? ==>
              attempt >= maxAttempts || !Resendable(m, o) || (Unauthorized(o) && authRetried)
    ensures next.TryAgain? ==> next.retryAfter == if o.Response? then o.retryAfter else None
    ensures next.RereadToken? <==> Unauthorized(o) && !authRetried
    ensures next.TryAgain? ==> Resendable(m, o) && !Unauthorized(o) && attempt < maxAttempts
  {
    match o
    case Response(status, retryAfter) =>
      if Success(status) then Stop(Ok(status))
      else if status == 401 && !authRetried then RereadToken
      else if !Retryable(status, m) || attempt >= maxAttempts then Stop(Err(Graph(status)))
      else TryAgain(retryAfter)
    case NoResponse(failure) =>
      if failure == BodyTooLarge || !IsIdempotent(m) || attempt >= maxAttempts then Stop(Err(TransportFailed(failure)))
      else TryAgain(None)
  }

  /** The sleeps among the waits; a re-read of the token takes none. */
  function Somes(waits: seq<Option<nat>>): seq<nat> {
    if waits == [] then []
    else
      Somes(waits[..|waits| - 1]) + if waits[|waits| - 1].Some? then [waits[|waits| - 1].value] else []
  }

  lemma {:induction false} SomesJoined(a: seq<Option<nat>>, b: seq<Option<nat>>)
    ensures Somes(a + b) == Somes(a) + Somes(b)
  {
    if b == [] {
      assert a + b == a;
    } else {
      SomesJoined(a, b[..|b| - 1]);
      assert (a + b)[..|a + b| - 1] == a + b[..|b| - 1];
    }
  }

  // -------------------------------------------------------------------------
  // Where a send stands, read off what the client did

  datatype Stage =
    | Idle
    | Checked(at: int)
    | InHand
    | Denied(answer: TokenAnswer)
    | Timing(at: int)
    | Crowded
    | Admitted
    | Told(outcome: Outcome)
    | Weighing(outcome: Outcome, at: int)
    | Astray

  /** The order a send keeps: a look at the clock, before the deadline; a token; a second
      look, and a permit waited for as long as it leaves; the call. After a 401 the token
      is dropped; after any other answer that may be repeated the clock is looked at, and
      the wait slept if it does not outlast what remains. */
  function NextStage(s: Stage, e: Event, call: Call, deadline: int): Stage {
    match s
    case Idle => if e.Read? then Checked(e.at) else Astray
    case Checked(at) =>
      if !e.Token? || at >= deadline then Astray else if e.answer.Granted? then InHand else Denied(e.answer)
    case InHand => if e.Read? then Timing(e.at) else Astray
    case Timing(at) =>
      if !e.Permit? || e.timeout != Max(deadline - at, 0) then Astray else if e.granted then Admitted else Crowded
    case Admitted => if e.Sent? && e.call == call then Told(e.outcome) else Astray
    case Told(o) =>
      if Unauthorized(o) then if e.Reread? then Idle else Astray
      else if e.Read? && Resendable(call.m, o) then Weighing(o, e.at) else Astray
    case Weighing(_, at) => if e.Slept? && e.wait <= Max(deadline - at, 0) then Idle else Astray
    case _ => Astray
  }

  /** What a stretch of a client's history comes to: where it stands, the answers it
      got, the wait after each, and how often it asked for a token. */
  datatype Trail = Trail(stage: Stage, calls: seq<Outcome>, waits: seq<Option<nat>>, asks: nat) {
    function Then(e: Event, call: Call, deadline: int): Trail {
      Trail(
        NextStage(stage, e, call, deadline),
        if e.Sent? then calls + [e.outcome] else calls,
        if e.Slept? then waits + [Some(e.wait)] else if e.Reread? then waits + [None] else waits,
        if e.Token? then asks + 1 else asks)
    }
  }

  const START := Trail(Idle, [], [], 0)

  function Follow(did: seq<Event>, call: Call, deadline: int): Trail {
    if did == [] then START else Follow(did[..|did| - 1], call, deadline).Then(did[|did| - 1], call, deadline)
  }

  predicate TrailsAt(k: int, did: seq<Event>, call: Call, deadline: int, t: Trail) {
    Follow(did, call, deadline) == t
  }

  /** These events leave this trail. The quantifier only keeps the definition folded. */
  ghost predicate Trails(did: seq<Event>, call: Call, deadline: int, t: Trail) {
    forall k :: TrailsAt(k, did, call, deadline, t)
  }

  lemma TrailIs(did: seq<Event>, call: Call, deadline: int, t: Trail)
    requires Trails(did, call, deadline, t)
    ensures Follow(did, call, deadline) == t
  {
    assert TrailsAt(0, did, call, deadline, t);
  }

  lemma NothingTrails(call: Call, deadline: int)
    ensures Trails([], call, deadline, START)
  {
  }

  /** One event more, after what was `begun` by others. */
  lemma Further(begun: seq<Event>, sofar: seq<Event>, e: Event, call: Call, deadline: int, t: Trail)
    requires Trails(sofar, call, deadline, t)
    ensures Trails(sofar + [e], call, deadline, t.Then(e, call, deadline))
    ensures begun + sofar + [e] == begun + (sofar + [e])
  {
    TrailIs(sofar, call, deadline, t);
    assert (sofar + [e])[..|sofar|] == sofar;
  }

  /** A look at the clock, and a token asked for in time. */
  lemma ClockLooked(begun: seq<Event>, sofar: seq<Event>, at: int, call: Call, deadline: int, t: Trail)
    requires Trails(sofar, call, deadline, t) && t.stage == Idle
    ensures Trails(sofar + [Read(at)], call, deadline, t.(stage := Checked(at)))
    ensures begun + sofar + [Read(at)] == begun + (sofar + [Read(at)])
  {
    Further(begun, sofar, Read(at), call, deadline, t);
  }

  lemma TokenAsked(begun: seq<Event>, sofar: seq<Event>, answer: TokenAnswer, call: Call, deadline: int, t: Trail)
    requires Trails(sofar, call, deadline, t) && t.stage.Checked? && t.stage.at < deadline
    ensures Trails(
              sofar + [Token(answer)], call, deadline,
              t.(stage := if answer.Granted? then InHand else Denied(answer), asks := t.asks + 1))
    ensures begun + sofar + [Token(answer)] == begun + (sofar + [Token(answer)])
  {
    Further(begun, sofar, Token(answer), call, deadline, t);
  }

  /** A second look, and a permit waited for as long as it leaves; then the call. */
  lemma PermitQueued(begun: seq<Event>, sofar: seq<Event>, at: int, granted: bool, call: Call, deadline: int, t: Trail)
    requires Trails(sofar, call, deadline, t) && t.stage == InHand
    ensures var more := [Read(at), Permit(Max(deadline - at, 0), granted)];
            && Trails(sofar + more, call, deadline, t.(stage := if granted then Admitted else Crowded))
            && begun + sofar + more == begun + (sofar + more)
  {
    var permit := Permit(Max(deadline - at, 0), granted);
    Further(begun, sofar, Read(at), call, deadline, t);
    Further(begun, sofar + [Read(at)], permit, call, deadline, t.(stage := Timing(at)));
    assert sofar + [Read(at)] + [permit] == sofar + [Read(at), permit];
  }

  lemma CallMade(begun: seq<Event>, sofar: seq<Event>, at: int, o: Outcome, call: Call, deadline: int, t: Trail)
    requires Trails(sofar, call, deadline, t) && t.stage == Admitted
    ensures Trails(sofar + [Sent(at, call, o)], call, deadline, t.(stage := Told(o), calls := t.calls + [o]))
    ensures begun + sofar + [Sent(at, call, o)] == begun + (sofar + [Sent(at, call, o)])
  {
    Further(begun, sofar, Sent(at, call, o), call, deadline, t);
  }

  /** How each stage is entered. */
  lemma EnteredBy(s: Stage, e: Event, call: Call, deadline: int)
    ensures match NextStage(s, e, call, deadline)
            case Idle => (e.Slept? && s.Weighing?) || (e.Reread? && s.Told?)
            case Checked(at) => s.Idle? && e == Read(at)
            case InHand => s.Checked? && s.at < deadline && e == Token(Granted)
            case Denied(answer) => s.Checked? && s.at < deadline && e == Token(answer) && !answer.Granted?
            case Timing(at) => s.InHand? && e == Read(at)
            case Crowded => s.Timing? && e.Permit? && !e.granted
            case Admitted => s.Timing? && e.Permit? && e.granted
            case Told(o) => s.Admitted? && e.Sent? && e.call == call && e.outcome == o
            case Weighing(o, at) => s == Told(o) && e == Read(at) && Resendable(call.m, o) && !Unauthorized(o)
            case Astray => true
  {
  }

  /** What the last event says at each stage. */
  predicate Marks(s: Stage, did: seq<Event>, deadline: int) {
    match s
    case Checked(at) => did != [] && did[|did| - 1] == Read(at)
    case InHand => Guarded(did, deadline)
    case Timing(_) => Guarded(did, deadline)
    case Admitted => Guarded(did, deadline)
    case Weighing(_, at) => did != [] && did[|did| - 1] == Read(at)
    case _ => true
  }

  /** What is read off a trail is what is read off the events. */
  lemma {:induction false} TrailCounts(did: seq<Event>, call: Call, deadline: int)
    requires !Follow(did, call, deadline).stage.Astray?
    ensures var t := Follow(did, call, deadline);
            && Calls(did) == t.calls && Naps(did) == Somes(t.waits) && Asks(did) == t.asks
            && AllOf(did, call)
  {
    if did != [] {
      var init, e := did[..|did| - 1], did[|did| - 1];
      var t := Follow(init, call, deadline);
      EnteredBy(t.stage, e, call, deadline);
      TrailCounts(init, call, deadline);
      SomesAppended(t.waits, e);
    }
  }

  /** Each call comes after its own look at the clock before the deadline. */
  lemma {:induction false} TrailIsPrompt(did: seq<Event>, call: Call, deadline: int)
    requires !Follow(did, call, deadline).stage.Astray?
    ensures Prompt(did, deadline) && Marks(Follow(did, call, deadline).stage, did, deadline)
  {
    if did != [] {
      var init, e := did[..|did| - 1], did[|did| - 1];
      EnteredBy(Follow(init, call, deadline).stage, e, call, deadline);
      TrailIsPrompt(init, call, deadline);
    }
  }

  lemma SomesAppended(waits: seq<Option<nat>>, e: Event)
    ensures Somes(if e.Slept? then waits + [Some(e.wait)] else if e.Reread? then waits + [None] else waits)
            == Somes(waits) + if e.Slept? then [e.wait] else []
  {
    if e.Slept? {
      assert (waits + [Some(e.wait)])[..|waits|] == waits;
    } else if e.Reread? {
      assert (waits + [None])[..|waits|] == waits;
    }
  }

  /** The wait that was too long. */
  ghost predicate TooLong(o: Outcome, at: int, attempts: int, secs: nat, deadline: int) {
    exists wait: nat ::
      WaitFits(o, attempts, Some(wait)) && wait > Max(deadline - at, 0) && secs == Max(wait / 1000, 1)
  }

  lemma TooLate(o: Outcome, at: int, attempts: int, wait: nat, deadline: int)
    requires WaitFits(o, attempts, Some(wait)) && wait > Max(deadline - at, 0)
    ensures TooLong(o, at, attempts, Max(wait / 1000, 1), deadline)
  {
  }

  /** What a send may answer that stopped before its next call. */
  predicate StopsShort(s: Stage, e: AppError, deadline: int) {
    match s
    case Checked(at) => e == if at >= deadline then Throttled(1) else Exhausted
    case Denied(answer) => e == if answer.Missing? then NoToken else TokenUnreachable
    case Crowded => e == Throttled(1)
    case _ => false
  }

  /** What a send may answer where it stopped. */
  ghost predicate Ends(s: Stage, r: Result<nat, AppError>, attempts: int, deadline: int) {
    match s
    case Told(o) => r.Ok? || r.error.Graph? || r.error.TransportFailed?
    case Weighing(o, at) => r.Err? && r.error.Throttled? && TooLong(o, at, attempts, r.error.retryAfterSecs, deadline)
    case _ => r.Err? && StopsShort(s, r.error, deadline)
  }

  /** All that a client did for a send, and how it ended. */
  ghost predicate Sends(
    did: seq<Event>, call: Call, t: Trail, r: Result<nat, AppError>, deadline: int, maxAttempts: nat)
  {
    && Trails(did, call, deadline, t) && Proper(call.m, t.calls, t.waits, r, maxAttempts)
    && Ends(t.stage, r, Attempts(t.calls), deadline)
  }

  /** Where a turn of the loop leads: to the end of the send, or to another turn. */
  ghost predicate TurnLeads(
    done: Option<Result<nat, AppError>>, reread: bool, did: seq<Event>, call: Call, t: Trail,
    attempts: nat, authRetried: bool, deadline: int, maxAttempts: nat)
  {
    if done.Some? then Sends(did, call, t, done.value, deadline, maxAttempts)
    else
      && Between(t, call.m, if reread then attempts else attempts + 1, authRetried || reread)
      && (if reread then !authRetried else attempts + 1 < maxAttempts)
  }

  /** What stops an attempt before its call ends the send. */
  lemma StopsShortSends(
      did: seq<Event>, call: Call, t: Trail, calls: seq<Outcome>, attempts: nat, authRetried: bool, e: AppError,
      deadline: int, maxAttempts: nat)
    requires Trails(did, call, deadline, t) && StopsShort(t.stage, e, deadline) && attempts < maxAttempts
    requires t.calls == calls && Standing(call.m, calls, t.waits, attempts, authRetried)
    ensures Sends(did, call, t, Err(e), deadline, maxAttempts)
  {
    StandingIsProper(call.m, calls, t.waits, attempts, authRetried, e, maxAttempts);
  }

  /** A wait that was too long ends the send. */
  lemma LateSends(
      begun: seq<Event>, sofar: seq<Event>, call: Call, t: Trail, calls: seq<Outcome>, attempts: nat, authRetried: bool,
      o: Outcome, at: int, wait: nat, deadline: int, maxAttempts: nat)
    returns (t': Trail)
    requires Trails(sofar, call, deadline, t) && t.stage == Told(o) && t.calls == calls + [o]
    requires Standing(call.m, calls, t.waits, attempts, authRetried) && attempts < maxAttempts
    requires Resendable(call.m, o) && !Unauthorized(o)
    requires WaitFits(o, attempts + 1, Some(wait)) && wait > Max(deadline - at, 0)
    ensures Sends(sofar + [Read(at)], call, t', Err(Throttled(Max(wait / 1000, 1))), deadline, maxAttempts)
    ensures t'.calls == t.calls && t'.asks == t.asks && begun + sofar + [Read(at)] == begun + (sofar + [Read(at)])
  {
    Further(begun, sofar, Read(at), call, deadline, t);
    t' := t.Then(Read(at), call, deadline);
    CallAppended(call.m, calls, o);
    LateIsProper(call.m, calls, t.waits, attempts, authRetried, o, Max(wait / 1000, 1), maxAttempts);
    TooLate(o, at, attempts + 1, wait, deadline);
  }

  /** A wait that fits leads to another attempt. */
  lemma NapStands(
      begun: seq<Event>, sofar: seq<Event>, call: Call, t: Trail, calls: seq<Outcome>, attempts: nat, authRetried: bool,
      o: Outcome, at: int, wait: nat, deadline: int)
    returns (t': Trail)
    requires Trails(sofar, call, deadline, t) && t.stage == Told(o) && t.calls == calls + [o]
    requires Standing(call.m, calls, t.waits, attempts, authRetried)
    requires Resendable(call.m, o) && !Unauthorized(o)
    requires WaitFits(o, attempts + 1, Some(wait)) && wait <= Max(deadline - at, 0)
    ensures Trails(sofar + [Read(at), Slept(wait)], call, deadline, t')
    ensures Between(t', call.m, attempts + 1, authRetried)
    ensures t' == t.(stage := Idle, waits := t.waits + [Some(wait)])
    ensures begun + sofar + [Read(at), Slept(wait)] == begun + (sofar + [Read(at), Slept(wait)])
  {
    Further(begun, sofar, Read(at), call, deadline, t);
    Further(begun, sofar + [Read(at)], Slept(wait), call, deadline, t.(stage := Weighing(o, at)));
    t' := t.(stage := Idle, waits := t.waits + [Some(wait)]);
    assert sofar + [Read(at)] + [Slept(wait)] == sofar + [Read(at), Slept(wait)];
    WaitStands(call.m, calls, t.waits, attempts, authRetried, o, wait);
  }

  /** The event before the last. */
  function Previous(did: seq<Event>): Option<Event> {
    if |did| < 2 then None else Some(did[|did| - 2])
  }

  /** Where the last two events of a send stand. */
  lemma LastSteps(did: seq<Event>, call: Call, deadline: int, t: Trail) returns (s: Stage)
    requires Trails(did, call, deadline, t) && !t.stage.Idle?
    ensures did != [] && t.stage == NextStage(s, did[|did| - 1], call, deadline)
    ensures match Previous(did)
            case None => s.Idle?
            case Some(e) => exists s0 :: s == NextStage(s0, e, call, deadline)
  {
    TrailIs(did, call, deadline, t);
    s := Follow(did[..|did| - 1], call, deadline).stage;
    if |did| >= 2 {
      var init := did[..|did| - 1];
      assert init[|init| - 1] == did[|did| - 2];
      assert s == NextStage(Follow(init[..|init| - 1], call, deadline).stage, did[|did| - 2], call, deadline);
    }
  }

  /** Exactly when a send gives up for want of time: the look that opens an attempt came
      at the deadline or later; or a permit did not come; or the wait that the last answer
      calls for is longer than what the look after it leaves. */
  lemma ThrottledExactly(
      did: seq<Event>, call: Call, t: Trail, r: Result<nat, AppError>, deadline: int, maxAttempts: nat)
    requires Sends(did, call, t, r, deadline, maxAttempts)
    ensures did != []
    ensures var last, previous := did[|did| - 1], Previous(did);
            r.Err? && r.error.Throttled? <==>
              || (last.Permit? && !last.granted)
              || (last.Read? && last.at >= deadline && (previous.None? || previous.value.Slept? || previous.value.Reread?))
              || (last.Read? && previous.Some? && previous.value.Sent?)
    ensures r.Err? && r.error.Throttled? ==>
              match Previous(did)
              case Some(Sent(_, _, o)) =>
                && Resendable(call.m, o) && !Unauthorized(o) && did[|did| - 1].Read?
                && TooLong(o, did[|did| - 1].at, Attempts(t.calls), r.error.retryAfterSecs, deadline)
              case _ => r.error.retryAfterSecs == 1
  {
    var s := LastSteps(did, call, deadline, t);
    EnteredBy(s, did[|did| - 1], call, deadline);
    if Previous(did).Some? {
      var s0 :| s == NextStage(s0, Previous(did).value, call, deadline);
      EnteredBy(s0, Previous(did).value, call, deadline);
    }
  }

  /** And when it ends for any other reason: on an answer that is final, for want of a
      token, or of a request to pay with. */
  lemma EndedExactly(
      did: seq<Event>, call: Call, t: Trail, r: Result<nat, AppError>, deadline: int, maxAttempts: nat)
    requires Sends(did, call, t, r, deadline, maxAttempts)
    ensures did != []
    ensures r.Ok? || r.error.Graph? || r.error.TransportFailed? <==> did[|did| - 1].Sent?
    ensures r == Err(NoToken) <==> did[|did| - 1] == Token(Missing)
    ensures r == Err(TokenUnreachable) <==> did[|did| - 1] == Token(Unreachable)
    ensures r == Err(Exhausted) ==> did[|did| - 1].Read? && did[|did| - 1].at < deadline
  {
    var s := LastSteps(did, call, deadline, t);
    EnteredBy(s, did[|did| - 1], call, deadline);
  }

  /** What the tools need of a send. */
  lemma SendsIsPrompt(
      did: seq<Event>, call: Call, t: Trail, r: Result<nat, AppError>, deadline: int, maxAttempts: nat)
    requires Sends(did, call, t, r, deadline, maxAttempts)
    ensures Prompt(did, deadline) && AllOf(did, call) && Calls(did) == t.calls && Naps(did) == Somes(t.waits)
    ensures Asks(did) == t.asks
  {
    TrailIs(did, call, deadline, t);
    TrailCounts(did, call, deadline);
    TrailIsPrompt(did, call, deadline);
  }

  class Client {
    const maxAttempts: nat
    var time: int
    /** Whether this call holds a permit now. */
    ghost var held: bool
    /** Everything this client did, in order. */
    ghost var trace: seq<Event>

    ghost predicate Valid()
      reads this
    {
      Timed(trace, time) && maxAttempts >= 1
    }

    constructor (maxAttempts: nat)
      ensures Valid() && this.maxAttempts == Max(maxAttempts, 1) && !held && trace == []
    {
      this.maxAttempts := Max(maxAttempts, 1);
      held, trace := false, [];
    }

    method Pass()
      requires Valid()
      modifies this`time
      ensures Valid() && time >= old(time)
    {
      var elapsed: int :| elapsed >= 0;
      TimedLater(trace, time, time + elapsed);
      time := time + elapsed;
    }

    method Now() returns (t: int)
      requires Valid()
      modifies this`time, this`trace
      ensures Valid() && t == time && time >= old(time) && trace == old(trace) + [Read(t)]
    {
      Pass();
      TimedAppend(trace, time, Read(time), time);
      trace := trace + [Read(time)];
      return time;
    }

    /** The token provider may refresh, and may take its time. */
    method AccessToken() returns (answer: TokenAnswer)
      requires Valid() && !held
      modifies this`time, this`trace
      ensures Valid() && time >= old(time) && trace == old(trace) + [Token(answer)]
    {
      Pass();
      answer := *;
      TimedAppend(trace, time, Token(answer), time);
      trace := trace + [Token(answer)];
    }

    /** The cached token was rejected: the next one comes from the store. */
    method Invalidate()
      requires Valid() && !held
      modifies this`trace
      ensures Valid() && trace == old(trace) + [Reread]
    {
      TimedAppend(trace, time, Reread, time);
      trace := trace + [Reread];
    }

    /** The gate hands out a permit, or times out. A free one is handed out even when
        no time is left. */
    method AcquirePermit(timeout: nat) returns (ok: bool)
      requires Valid() && !held
      modifies this`time, this`held, this`trace
      ensures Valid() && time >= old(time) && held == ok && trace == old(trace) + [Permit(timeout, ok)]
      ensures !ok ==> time >= old(time) + timeout
    {
      Pass();
      ok := *;
      if !ok {
        TimedLater(trace, time, time + timeout);
        time := time + timeout;
      }
      held := ok;
      TimedAppend(trace, time, Permit(timeout, ok), time);
      trace := trace + [Permit(timeout, ok)];
    }

    method ReleasePermit()
      requires held
      modifies this`held
      ensures !held
    {
      held := false;
    }

    /** Any answer, or none, after any time; only under a permit. */
    method TransportSend(call: Call) returns (o: Outcome)
      requires Valid() && held
      modifies this`time, this`trace
      ensures Valid() && time >= old(time) && trace == old(trace) + [Sent(old(time), call, o)]
    {
      var at := time;
      Pass();
      o := *;
      TimedAppend(trace, at, Sent(at, call, o), time);
      trace := trace + [Sent(at, call, o)];
    }

    method Sleep(wait: nat)
      requires Valid() && !held
      modifies this`time, this`trace
      ensures Valid() && time >= old(time) + wait && trace == old(trace) + [Slept(wait)]
    {
      var at := time;
      Pass();
      TimedAppend(trace, at, Slept(wait), time + wait);
      time, trace := time + wait, trace + [Slept(wait)];
    }

    method Backoff(attempt: nat) returns (wait: nat)
      ensures BackoffBase(attempt) <= wait <= BackoffBase(attempt) + BackoffBase(attempt) / 4
    {
      var draw: nat :| true;
      wait := BackoffBase(attempt) + draw % (BackoffBase(attempt) / 4 + 1);
    }

    /** One attempt: check the deadline, pay for the request, get a token, and only
        then a permit, held for the one transport call. The call begins once the
        token and the permit are there, however late that is. */
    method Attempt(call: Call, budget: Budget, ghost begun: seq<Event>, ghost sofar: seq<Event>, ghost t: Trail)
      returns (r: Result<Outcome, AppError>, ghost whole: seq<Event>, ghost t': Trail)
      requires Valid() && budget.Valid() && !held
      requires trace == begun + sofar && Trails(sofar, call, budget.deadline, t) && t.stage == Idle
      modifies this`time, this`held, this`trace, budget`requestsLeft, budget`requestsUsed
      ensures Valid() && budget.Valid() && !held && time >= old(time)
      ensures trace == begun + whole && Trails(whole, call, budget.deadline, t')
      ensures match r
              case Ok(o) => t' == Trail(Told(o), t.calls + [o], t.waits, t.asks + 1)
              case Err(e) =>
                && t'.calls == t.calls && t'.waits == t.waits && t.asks <= t'.asks <= t.asks + 1
                && StopsShort(t'.stage, e, budget.deadline)
      // One request is paid for each token asked for.
      ensures budget.requestsUsed == old(budget.requestsUsed) + t'.asks - t.asks
      ensures budget.requestsLeft + budget.requestsUsed == old(budget.requestsLeft + budget.requestsUsed)
      ensures r == Err(Exhausted) ==> budget.requestsLeft == 0 && t'.asks == t.asks
    {
      var checked := Now();
      ClockLooked(begun, sofar, checked, call, budget.deadline, t);
      whole, t' := sofar + [Read(checked)], t.(stage := Checked(checked));
      if checked >= budget.deadline {
        return Err(Throttled(1)), whole, t';
      }
      var taken := budget.TakeRequest();
      if !taken {
        return Err(Exhausted), whole, t';
      }
      var answer := AccessToken();
      TokenAsked(begun, whole, answer, call, budget.deadline, t');
      whole, t' := whole + [Token(answer)],
        t.(stage := if answer.Granted? then InHand else Denied(answer), asks := t.asks + 1);
      if !answer.Granted? {
        return Err(if answer.Missing? then NoToken else TokenUnreachable), whole, t';
      }
      r, whole, t' := Admit(call, budget, begun, whole, t');
    }

    /** Wait for a permit as long as the deadline allows, and make the call under it. */
    method Admit(call: Call, budget: Budget, ghost begun: seq<Event>, ghost sofar: seq<Event>, ghost t: Trail)
      returns (r: Result<Outcome, AppError>, ghost whole: seq<Event>, ghost t': Trail)
      requires Valid() && !held
      requires trace == begun + sofar && Trails(sofar, call, budget.deadline, t) && t.stage == InHand
      modifies this`time, this`held, this`trace
      ensures Valid() && !held && time >= old(time)
      ensures trace == begun + whole && Trails(whole, call, budget.deadline, t')
      ensures match r
              case Ok(o) => t' == t.(stage := Told(o), calls := t.calls + [o])
              case Err(e) => t' == t.(stage := Crowded) && e == Throttled(1)
    {
      var now := Now();
      var left := Max(budget.deadline - now, 0);
      var permit := AcquirePermit(left);
      PermitQueued(begun, sofar, now, permit, call, budget.deadline, t);
      whole, t' := sofar + [Read(now), Permit(left, permit)], t.(stage := if permit then Admitted else Crowded);
      assert trace == begun + whole;
      if !permit {
        return Err(Throttled(1)), whole, t';
      }
      ghost var at := time;
      var outcome := TransportSend(call);
      CallMade(begun, whole, at, outcome, call, budget.deadline, t');
      whole, t' := whole + [Sent(at, call, outcome)], t.(stage := Told(outcome), calls := t.calls + [outcome]);
      ReleasePermit();
      return Ok(outcome), whole, t';
    }

    /** How long to wait after an answer, and whether that still fits; slept, unless it
        would outlast the deadline. */
    method Wait(o: Outcome, attempt: nat, retryAfter: Option<nat>, budget: Budget)
      returns (wait: nat, late: bool, ghost at: int)
      requires Valid() && !held && attempt >= 1
      requires retryAfter == if o.Response? then o.retryAfter else None
      modifies this`time, this`trace
      ensures Valid() && time >= old(time)
      ensures WaitFits(o, attempt, Some(wait))
      ensures late <==> wait > Max(budget.deadline - at, 0)
      ensures trace == old(trace) + if late then [Read(at)] else [Read(at), Slept(wait)]
    {
      wait := MAX_RETRY_AFTER;
      if retryAfter.None? {
        wait := Backoff(attempt);
      } else if retryAfter.value < MAX_RETRY_AFTER {
        wait := retryAfter.value;
      }
      var now := Now();
      at := now;
      late := wait > Max(budget.deadline - now, 0);
      if !late {
        Sleep(wait);
        assert old(trace) + [Read(at)] + [Slept(wait)] == old(trace) + [Read(at), Slept(wait)];
      }
    }

    /** One turn of the loop: an attempt, and what its answer means. `sofar` is what
        the send did before. */
    method Once(
        call: Call, budget: Budget, attempts: nat, authRetried: bool,
        ghost begun: seq<Event>, ghost sofar: seq<Event>, ghost t: Trail)
      returns (done: Option<Result<nat, AppError>>, reread: bool, ghost whole: seq<Event>, ghost t': Trail)
      requires Valid() && budget.Valid() && !held && attempts < maxAttempts
      requires trace == begun + sofar && Trails(sofar, call, budget.deadline, t)
      requires Between(t, call.m, attempts, authRetried)
      modifies this`time, this`held, this`trace, budget`requestsLeft, budget`requestsUsed
      ensures Valid() && budget.Valid() && !held && time >= old(time)
      ensures trace == begun + whole && Trails(whole, call, budget.deadline, t')
      ensures |t'.calls| - |t.calls| <= t'.asks - t.asks <= 1
      ensures TurnLeads(done, reread, whole, call, t', attempts, authRetried, budget.deadline, maxAttempts)
      ensures done.None? ==> |t'.calls| == |t.calls| + 1 && t'.asks == t.asks + 1
      ensures budget.requestsUsed == old(budget.requestsUsed) + t'.asks - t.asks
      ensures budget.requestsLeft + budget.requestsUsed == old(budget.requestsLeft + budget.requestsUsed)
      ensures done == Some(Err(Exhausted)) ==> budget.requestsLeft == 0 && t'.asks == t.asks
    {
      var tried;
      tried, whole, t' := Attempt(call, budget, begun, sofar, t);
      if tried.Err? {
        StopsShortSends(
          whole, call, t', t.calls, attempts, authRetried, tried.error, budget.deadline, maxAttempts);
        return Some(Err(tried.error)), false, whole, t';
      }
      done, reread, whole, t' := Answered(call, budget, attempts, authRetried, tried.value, begun, whole, t', t.calls);
    }

    /** What an answer leads to: an end, one re-read of the token, or a wait. */
    method Answered(
        call: Call, budget: Budget, attempts: nat, authRetried: bool, o: Outcome,
        ghost begun: seq<Event>, ghost sofar: seq<Event>, ghost t: Trail, ghost calls: seq<Outcome>)
      returns (done: Option<Result<nat, AppError>>, reread: bool, ghost whole: seq<Event>, ghost t': Trail)
      requires Valid() && !held && attempts < maxAttempts
      requires trace == begun + sofar && Trails(sofar, call, budget.deadline, t)
      requires t.stage == Told(o) && t.calls == calls + [o]
      requires Standing(call.m, calls, t.waits, attempts, authRetried)
      modifies this`time, this`trace
      ensures Valid() && time >= old(time)
      ensures trace == begun + whole && Trails(whole, call, budget.deadline, t')
      ensures t'.calls == t.calls && t'.asks == t.asks
      ensures TurnLeads(done, reread, whole, call, t', attempts, authRetried, budget.deadline, maxAttempts)
      ensures done != Some(Err(Exhausted))
    {
      whole, t', reread := sofar, t, false;
      var next := React(call.m, o, attempts + 1, authRetried, maxAttempts);
      match next {
        case Stop(result) =>
          StopIsProper(call.m, calls, t.waits, attempts, authRetried, o, result, maxAttempts);
          done := Some(result);
        case RereadToken =>
          // The store is re-read once; not counted as an attempt.
          Invalidate();
          Further(begun, sofar, Reread, call, budget.deadline, t);
          RereadStands(call.m, calls, t.waits, attempts, o);
          done, reread, whole, t' := None, true, sofar + [Reread], t.Then(Reread, call, budget.deadline);
        case TryAgain(retryAfter) =>
          done, whole, t' := Pause(call, budget, attempts, authRetried, o, retryAfter, begun, sofar, t, calls);
      }
    }

    /** The wait before another attempt, unless it is too long. */
    method Pause(
        call: Call, budget: Budget, attempts: nat, authRetried: bool, o: Outcome, retryAfter: Option<nat>,
        ghost begun: seq<Event>, ghost sofar: seq<Event>, ghost t: Trail, ghost calls: seq<Outcome>)
      returns (done: Option<Result<nat, AppError>>, ghost whole: seq<Event>, ghost t': Trail)
      requires Valid() && !held && attempts + 1 < maxAttempts
      requires Resendable(call.m, o) && !Unauthorized(o) && retryAfter == if o.Response? then o.retryAfter else None
      requires trace == begun + sofar && Trails(sofar, call, budget.deadline, t)
      requires t.stage == Told(o) && t.calls == calls + [o]
      requires Standing(call.m, calls, t.waits, attempts, authRetried)
      modifies this`time, this`trace
      ensures Valid() && time >= old(time)
      ensures trace == begun + whole && Trails(whole, call, budget.deadline, t')
      ensures t'.calls == t.calls && t'.asks == t.asks
      ensures TurnLeads(done, false, whole, call, t', attempts, authRetried, budget.deadline, maxAttempts)
      ensures done != Some(Err(Exhausted))
    {
      var wait, late;
      ghost var at;
      wait, late, at := Wait(o, attempts + 1, retryAfter, budget);
      if late {
        t' := LateSends(
          begun, sofar, call, t, calls, attempts, authRetried, o, at, wait, budget.deadline, maxAttempts);
        done, whole := Some(Err(Throttled(Max(wait / 1000, 1)))), sofar + [Read(at)];
      } else {
        t' := NapStands(begun, sofar, call, t, calls, attempts, authRetried, o, at, wait, budget.deadline);
        done, whole := None, sofar + [Read(at), Slept(wait)];
      }
    }

    /** Send with retry. `did` is all this client did in it, and `t` what that comes to:
        what the transport answered, in order, and what was slept after each answer. */
    method Send(call: Call, budget: Budget) returns (r: Result<nat, AppError>, ghost did: seq<Event>, ghost t: Trail)
      requires Valid() && budget.Valid() && !held
      modifies this`time, this`held, this`trace, budget`requestsLeft, budget`requestsUsed
      ensures Valid() && budget.Valid() && !held && time >= old(time)
      // All that was done, step by step; it gives up only when it must, waits as it is
      // told, and answers what the last step means.
      ensures trace == old(trace) + did && Sends(did, call, t, r, budget.deadline, maxAttempts)
      // Every attempt that asked for a token was paid for, and nothing is lost from the
      // budget.
      ensures budget.requestsLeft + budget.requestsUsed == old(budget.requestsLeft + budget.requestsUsed)
      ensures budget.requestsUsed == old(budget.requestsUsed) + t.asks
      ensures |t.calls| <= t.asks <= maxAttempts + 1
      ensures r == Err(Exhausted) ==> budget.requestsLeft == 0 && old(budget.requestsLeft) <= maxAttempts
    {
      var attempts, authRetried := 0, false;
      did, t := [], START;
      NothingTrails(call, budget.deadline);
      assert trace == trace + [];
      while true
        invariant Valid() && budget.Valid() && !held && time >= old(time)
        invariant trace == old(trace) + did && Trails(did, call, budget.deadline, t)
        invariant 0 <= attempts < maxAttempts && Between(t, call.m, attempts, authRetried)
        invariant |t.calls| == t.asks && budget.requestsUsed == old(budget.requestsUsed) + t.asks
        invariant budget.requestsLeft + budget.requestsUsed == old(budget.requestsLeft + budget.requestsUsed)
        decreases maxAttempts - attempts, !authRetried
      {
        var done, reread;
        done, reread, did, t := Once(call, budget, attempts, authRetried, old(trace), did, t);
        if done.Some? {
          return done.value, did, t;
        }
        if reread {
          authRetried := true;
        } else {
          attempts := attempts + 1;
        }
      }
    }

    /** `delete`: gone already is not a failure. */
    method DeleteIt(url: Url, budget: Budget)
      returns (
        r: Result<bool, AppError>, ghost sent: Result<nat, AppError>, ghost did: seq<Event>, ghost t: Trail)
      requires Valid() && budget.Valid() && !held
      modifies this`time, this`held, this`trace, budget`requestsLeft, budget`requestsUsed
      ensures Valid() && budget.Valid() && !held && time >= old(time)
      ensures trace == old(trace) + did
      ensures Sends(did, Call(Delete, url, NoBody), t, sent, budget.deadline, maxAttempts)
      ensures budget.requestsLeft + budget.requestsUsed == old(budget.requestsLeft + budget.requestsUsed)
      ensures budget.requestsUsed == old(budget.requestsUsed) + t.asks && t.asks <= maxAttempts + 1
      ensures r == Err(Exhausted) ==> budget.requestsLeft == 0 && old(budget.requestsLeft) <= maxAttempts
      // True for a success, false for a 404, and every other end as it is.
      ensures match r
              case Ok(gone) => if gone then sent.Ok? else sent == Err(Graph(404))
              case Err(e) => sent == Err(e) && e != Graph(404)
    {
      var answer;
      answer, did, t := Send(Call(Delete, url, NoBody), budget);
      sent := answer;
      match answer {
        case Ok(_) => r := Ok(true);
        case Err(Graph(404)) => r := Ok(false);
        case Err(e) => r := Err(e);
      }
    }

    /** A write budget is never exhausted by the mutations it was sized for,
        however each of them fares: the deadline is the only bound on a write. */
    method SendAll(mutations: seq<Call>, budget: Budget)
      returns (results: seq<Result<nat, AppError>>, ghost did: seq<Event>)
      requires Valid() && budget.Valid() && !held
      requires budget.requestsLeft >= |mutations| * (maxAttempts + 1)
      modifies this`time, this`held, this`trace, budget`requestsLeft, budget`requestsUsed
      ensures Valid() && !held
      ensures |results| == |mutations|
      ensures forall i | 0 <= i < |results| :: results[i] != Err(Exhausted)
      ensures trace == old(trace) + did && Prompt(did, budget.deadline)
      ensures |Calls(did)| <= |mutations| * (maxAttempts + 1)
    {
      results, did := [], [];
      NeededIs(|mutations|, maxAttempts);
      assert trace == trace + [];
      for i := 0 to |mutations|
        invariant Valid() && budget.Valid() && !held && |results| == i
        invariant budget.requestsLeft >= Needed(|mutations| - i, maxAttempts)
        invariant forall k | 0 <= k < i :: results[k] != Err(Exhausted)
        invariant trace == old(trace) + did && Prompt(did, budget.deadline)
        invariant |Calls(did)| + Needed(|mutations| - i, maxAttempts) <= Needed(|mutations|, maxAttempts)
      {
        var r;
        ghost var more, t;
        r, more, t := Send(mutations[i], budget);
        SendsIsPrompt(more, mutations[i], t, r, budget.deadline, maxAttempts);
        PromptJoined(did, more, budget.deadline);
        Joined(did, more);
        Associates(old(trace), did, more);
        results, did := results + [r], did + more;
      }
    }

    /** The two ends joined: `for_writes(n)` and `n` mutations. The guard is the
        one place the sum could saturate. */
    method WritePhase(deadline: int, mutations: seq<Call>, configured: nat) returns (results: seq<Result<nat, AppError>>)
      requires Valid() && maxAttempts == Max(configured, 1) && !held
      requires |mutations| * (maxAttempts + 1) <= U32_MAX
      modifies this`time, this`held, this`trace
      ensures Valid() && |results| == |mutations|
      ensures forall i | 0 <= i < |results| :: results[i] != Err(Exhausted)
    {
      assert |mutations| <= |mutations| * (maxAttempts + 1) by {
        assert |mutations| * (maxAttempts + 1) == |mutations| * maxAttempts + |mutations|;
      }
      Product(|mutations|, maxAttempts);
      if mutations == [] {
        return [];
      }
      assert maxAttempts < U32_MAX;
      var budget := new Budget.ForWrites(deadline, |mutations|, configured);
      ghost var did;
      results, did := SendAll(mutations, budget);
    }
  }

  /** An attempt that gets its call through, at two readings of the clock. */
  function Through(first: int, second: int, call: Call, o: Outcome, deadline: int): seq<Event> {
    [Read(first), Token(Granted), Read(second), Permit(Max(deadline - second, 0), true), Sent(second, call, o)]
  }

  lemma ThroughTrails(
      sofar: seq<Event>, first: int, second: int, call: Call, o: Outcome, deadline: int, t: Trail)
    requires Trails(sofar, call, deadline, t) && t.stage == Idle && first < deadline
    ensures Trails(
              sofar + Through(first, second, call, o, deadline), call, deadline,
              Trail(Told(o), t.calls + [o], t.waits, t.asks + 1))
  {
    var permit := Permit(Max(deadline - second, 0), true);
    Further([], sofar, Read(first), call, deadline, t);
    var a := sofar + [Read(first)];
    Further([], a, Token(Granted), call, deadline, t.(stage := Checked(first)));
    var b, asked := a + [Token(Granted)], t.asks + 1;
    Further([], b, Read(second), call, deadline, t.(stage := InHand, asks := asked));
    var c := b + [Read(second)];
    Further([], c, permit, call, deadline, t.(stage := Timing(second), asks := asked));
    Further([], c + [permit], Sent(second, call, o), call, deadline, t.(stage := Admitted, asks := asked));
    assert c + [permit] + [Sent(second, call, o)] == sofar + Through(first, second, call, o, deadline);
  }

  lemma ThroughTimed(first: int, second: int, call: Call, o: Outcome, deadline: int)
    requires first <= second
    ensures Timed(Through(first, second, call, o, deadline), second)
  {
    var permit := Permit(Max(deadline - second, 0), true);
    TimedAppend([], first, Read(first), first);
    var a := [Read(first), Token(Granted)];
    TimedAppend([Read(first)], first, Token(Granted), first);
    assert [Read(first)] + [Token(Granted)] == a && [] + [Read(first)] == [Read(first)];
    TimedAppend(a, first, Read(second), second);
    TimedAppend(a + [Read(second)], second, permit, second);
    TimedAppend(a + [Read(second)] + [permit], second, Sent(second, call, o), second);
    assert a + [Read(second)] + [permit] + [Sent(second, call, o)] == Through(first, second, call, o, deadline);
  }

  lemma OneAnswerSends(did: seq<Event>, call: Call, answer: Outcome, deadline: int)
    requires answer == Response(200, None) && Trails(did, call, deadline, Trail(Told(answer), [answer], [], 1))
    ensures Sends(did, call, Trail(Told(answer), [answer], [], 1), Ok(200), deadline, 1)
  {
    assert Standing(call.m, [], [], 0, false);
    StopIsProper(call.m, [], [], 0, false, answer, Ok(200), 1);
    assert [] + [answer] == [answer];
  }

  /** A call that begins late: the clock was before the deadline when it was looked
      at, and the token came after it; a free permit is handed out all the same. */
  lemma LateCall(call: Call) returns (did: seq<Event>, t: Trail, deadline: int)
    ensures Sends(did, call, t, Ok(200), deadline, 1)
    ensures Timed(did, 7) && SentLate(did, deadline) && did != [] && did[0] == Read(0) && 0 < deadline
  {
    var answer := Response(200, None);
    deadline := 5;
    did, t := Through(0, 7, call, answer, deadline), Trail(Told(answer), [answer], [], 1);
    assert Trails(did, call, deadline, t) by {
      NothingTrails(call, deadline);
      ThroughTrails([], 0, 7, call, answer, deadline, START);
      assert [] + did == did && [] + [answer] == [answer];
    }
    OneAnswerSends(did, call, answer, deadline);
    ThroughTimed(0, 7, call, answer, deadline);
    assert did[4] in did;
  }

  /** What so many mutations may need: each its whole ladder and one 401. */
  function Needed(mutations: nat, maxAttempts: nat): nat {
    if mutations == 0 then 0 else Needed(mutations - 1, maxAttempts) + maxAttempts + 1
  }

  lemma {:induction false} NeededIs(mutations: nat, maxAttempts: nat)
    ensures Needed(mutations, maxAttempts) == mutations * (maxAttempts + 1)
  {
    if mutations > 0 {
      NeededIs(mutations - 1, maxAttempts);
      assert mutations * (maxAttempts + 1) == (mutations - 1) * (maxAttempts + 1) + (maxAttempts + 1);
    }
  }

  lemma Product(n: nat, per: nat)
    ensures n > 0 ==> per <= n * (per + 1) - n
  {
    if n > 0 {
      assert n * (per + 1) == n * per + n;
      assert n * per == per + (n - 1) * per;
    }
  }
}
