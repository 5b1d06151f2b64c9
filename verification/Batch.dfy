/**
 * One `$batch` of GETs: sub-responses are paired by id in whatever order they
 * come, and throttled ones are re-sent alone after the longest wait they named.
 */
module Batch {
  import opened Wrappers
  import opened Transport
  import opened Retry

  const BATCH_MAX: nat := 20
  const DEFAULT_RETRY_AFTER: nat := 2_000

  datatype Sub = Sub(id: string, url: string)

  /** A sub-response as it comes off the wire. */
  datatype Raw = Raw(id: string, status: nat, body: string, retryAfter: Option<nat>)

  datatype SubRes = SubRes(id: string, status: nat, body: string)

  /** One round: what was sent, what came back, and the wait before the next. */
  datatype Round = Round(sent: seq<Sub>, got: seq<Raw>, remaining: int, waited: Option<nat>)

  predicate DistinctIds(subs: seq<Sub>) {
    forall i, j | 0 <= i < j < |subs| :: subs[i].id != subs[j].id
  }

  predicate Throttles(got: seq<Raw>, id: string) {
    exists r | r in got :: r.id == id && r.status == 429
  }

  /** The requests a follow-up carries: those just throttled, in order. */
  function Keep(sent: seq<Sub>, got: seq<Raw>): (kept: seq<Sub>)
    ensures forall s :: s in kept <==> s in sent && Throttles(got, s.id)
  {
    if sent == [] then []
    else (if Throttles(got, sent[0].id) then [sent[0]] else []) + Keep(sent[1..], got)
  }

  /** The wait a throttled sub-response asks for. */
  function WaitOf(r: Raw): nat {
    Min(if r.retryAfter.Some? then r.retryAfter.value else DEFAULT_RETRY_AFTER, MAX_RETRY_AFTER)
  }

  function LongestWait(got: seq<Raw>): (w: nat)
    ensures forall r | r in got && r.status == 429 :: WaitOf(r) <= w
  {
    if got == [] then 0
    else Max(if got[0].status == 429 then WaitOf(got[0]) else 0, LongestWait(got[1..]))
  }

  /** A follow-up carries exactly the requests of the round before that were just
      throttled, after a wait that covers each of theirs and fits the deadline. */
  ghost predicate Leads(prev: Round, sent: seq<Sub>) {
    && sent == Keep(prev.sent, prev.got)
    && prev.waited == Some(LongestWait(prev.got))
    && prev.waited.value <= prev.remaining
  }

  /** Nothing is left to ask again, or it would outlast the deadline. */
  ghost predicate Over(last: Round) {
    Keep(last.sent, last.got) == [] || LongestWait(last.got) > last.remaining
  }

  /** A legal history: the first round sends everything asked for, and each later
      one what was throttled in the one before. */
  ghost predicate Ladder(subs: seq<Sub>, rounds: seq<Round>) {
    if |rounds| <= 1 then rounds == [] || rounds[0].sent == subs
    else
      && Ladder(subs, rounds[..|rounds| - 1])
      && Leads(rounds[|rounds| - 2], rounds[|rounds| - 1].sent)
      && rounds[|rounds| - 1].sent != []
  }

  lemma LadderAppend(subs: seq<Sub>, rounds: seq<Round>, next: Round)
    requires Ladder(subs, rounds) && next.sent != []
    requires if rounds == [] then next.sent == subs else Leads(rounds[|rounds| - 1], next.sent)
    ensures Ladder(subs, rounds + [next])
  {
    var all := rounds + [next];
    assert all[..|all| - 1] == rounds;
    if rounds != [] {
      assert all[|all| - 2] == rounds[|rounds| - 1];
    }
  }

  /** Nobody is asked twice without cause: an id a follow-up carries was asked for
      in the first place, and was answered with a 429 in the round just before. */
  lemma {:induction false} FollowUpsWereThrottled(subs: seq<Sub>, rounds: seq<Round>, s: Sub)
    requires Ladder(subs, rounds) && rounds != [] && s in rounds[|rounds| - 1].sent
    ensures s in subs
    ensures |rounds| > 1 ==>
              && Throttles(rounds[|rounds| - 2].got, s.id)
              && rounds[|rounds| - 2].waited.Some? && rounds[|rounds| - 2].waited.value <= rounds[|rounds| - 2].remaining
              && forall r | r in rounds[|rounds| - 2].got && r.id == s.id && r.status == 429 ::
                   WaitOf(r) <= rounds[|rounds| - 2].waited.value
  {
    if |rounds| > 1 {
      FollowUpsWereThrottled(subs, rounds[..|rounds| - 1], s);
    }
  }

  function Silent(id: string): SubRes {
    SubRes(id, 0, "")
  }

  /** The last answer an id got in a round. */
  function AnswerIn(got: seq<Raw>, id: string): (a: Option<SubRes>)
    ensures a.Some? ==> a.value.id == id
  {
    if got == [] then None
    else if got[|got| - 1].id == id then Some(SubRes(id, got[|got| - 1].status, got[|got| - 1].body))
    else AnswerIn(got[..|got| - 1], id)
  }

  /** What a batch says of an id: the last answer it got in any round, or none. */
  function Final(rounds: seq<Round>, id: string): (a: SubRes)
    ensures a.id == id
  {
    if rounds == [] then Silent(id)
    else
      match AnswerIn(rounds[|rounds| - 1].got, id)
      case Some(a) => a
      case None => Final(rounds[..|rounds| - 1], id)
  }

  function Lookup(results: map<string, SubRes>, id: string): SubRes {
    if id in results then results[id] else Silent(id)
  }

  lemma FinalAppend(rounds: seq<Round>, next: Round, id: string)
    ensures Final(rounds + [next], id)
            == match AnswerIn(next.got, id) { case Some(a) => a case None => Final(rounds, id) }
  {
    assert (rounds + [next])[..|rounds|] == rounds;
  }

  /** An id that no round answered is reported with status 0, never dropped. */
  lemma {:induction false} UnansweredIsSilent(rounds: seq<Round>, id: string)
    requires forall k, r | 0 <= k < |rounds| && r in rounds[k].got :: r.id != id
    ensures Final(rounds, id) == Silent(id)
  {
    if rounds != [] {
      var last := |rounds| - 1;
      NoAnswer(rounds[last].got, id);
      forall k, r | 0 <= k < last && r in rounds[..last][k].got
        ensures r.id != id
      {
        assert rounds[..last][k] == rounds[k];
      }
      UnansweredIsSilent(rounds[..last], id);
    }
  }

  lemma {:induction false} NoAnswer(got: seq<Raw>, id: string)
    requires forall r | r in got :: r.id != id
    ensures AnswerIn(got, id).None?
  {
    if got != [] {
      assert got[|got| - 1] in got;
      NoAnswer(got[..|got| - 1], id);
    }
  }

  /** Pair by id, never by position: a later response for an id replaces an
      earlier one, and ids nobody asked for do no harm. */
  method Collect(got: seq<Raw>, results: map<string, SubRes>) returns (out: map<string, SubRes>)
    ensures forall id: string :: Lookup(out, id) ==
              match AnswerIn(got, id) { case Some(a) => a case None => Lookup(results, id) }
    ensures results.Keys <= out.Keys
  {
    out := results;
    for i := 0 to |got|
      invariant results.Keys <= out.Keys
      invariant forall id: string :: Lookup(out, id) ==
                  match AnswerIn(got[..i], id) { case Some(a) => a case None => Lookup(results, id) }
    {
      assert got[..i + 1][..i] == got[..i];
      out := out[got[i].id := SubRes(got[i].id, got[i].status, got[i].body)];
    }
    assert got[..|got|] == got;
  }

  /** Anything Graph did not answer at all counts as failed. */
  method FillSilent(sent: seq<Sub>, results: map<string, SubRes>) returns (out: map<string, SubRes>)
    ensures forall id: string :: Lookup(out, id) == Lookup(results, id)
    ensures results.Keys <= out.Keys && forall s | s in sent :: s.id in out
  {
    out := results;
    for i := 0 to |sent|
      invariant results.Keys <= out.Keys && forall k | 0 <= k < i :: sent[k].id in out
      invariant forall id: string :: Lookup(out, id) == Lookup(results, id)
    {
      if sent[i].id !in out {
        out := out[sent[i].id := Silent(sent[i].id)];
      }
    }
  }

  /** If every id was asked for once and has an answer, its answer is in its place. */
  ghost predicate AnswersInOrder(subs: seq<Sub>, answers: map<string, SubRes>, out: seq<SubRes>) {
    DistinctIds(subs) && (forall i | 0 <= i < |subs| :: subs[i].id in answers) ==>
      |out| == |subs| && forall i | 0 <= i < |subs| :: out[i] == answers[subs[i].id]
  }

  /** The last word on each request, in its place. */
  ghost predicate FinalInOrder(subs: seq<Sub>, rounds: seq<Round>, out: seq<SubRes>) {
    |out| == |subs| && forall i | 0 <= i < |subs| :: out[i].id == subs[i].id && out[i] == Final(rounds, subs[i].id)
  }

  /** The answers in the order asked; each is taken out of the map. */
  method InOrder(subs: seq<Sub>, answers: map<string, SubRes>) returns (out: seq<SubRes>)
    ensures AnswersInOrder(subs, answers, out)
  {
    var left := answers;
    out := [];
    for i := 0 to |subs|
      invariant DistinctIds(subs) && (forall k | 0 <= k < |subs| :: subs[k].id in answers) ==>
                  && |out| == i && (forall k | 0 <= k < i :: out[k] == answers[subs[k].id])
                  && (forall k | i <= k < |subs| :: subs[k].id in left && left[subs[k].id] == answers[subs[k].id])
    {
      if subs[i].id in left {
        out := out + [left[subs[i].id]];
        left := left - {subs[i].id};
      }
    }
  }

  /** What a batch client did, in order: the posts, the looks at what remains of the
      deadline, and the sleeps between rounds. */
  datatype BatchEvent =
    | Posted(sent: seq<Sub>, answer: Result<seq<Raw>, AppError>)
    | Looked(remaining: int)
    | Napped(wait: nat)

  /** What a round does. */
  function Made(round: Round): seq<BatchEvent> {
    [Posted(round.sent, Ok(round.got)), Looked(round.remaining)]
    + if round.waited.Some? then [Napped(round.waited.value)] else []
  }

  function MadeBy(rounds: seq<Round>): seq<BatchEvent> {
    if rounds == [] then [] else MadeBy(rounds[..|rounds| - 1]) + Made(rounds[|rounds| - 1])
  }

  /** The post that ended a batch, if one failed. */
  function Failing(failed: Option<AppError>, last: seq<Sub>): seq<BatchEvent> {
    if failed.Some? then [Posted(last, Err(failed.value))] else []
  }

  function FailureOf(r: Result<seq<SubRes>, AppError>): Option<AppError> {
    if r.Err? then Some(r.error) else None
  }

  lemma MadeParts(before: seq<BatchEvent>, round: Round)
    ensures before + [Posted(round.sent, Ok(round.got))] + Made(round)[1..] == before + Made(round)
  {
  }

  lemma MadeAppend(before: seq<BatchEvent>, rounds: seq<Round>, next: Round)
    ensures before + MadeBy(rounds + [next]) == before + MadeBy(rounds) + Made(next)
  {
    assert (rounds + [next])[..|rounds|] == rounds;
    assert before + (MadeBy(rounds) + Made(next)) == before + MadeBy(rounds) + Made(next);
  }

  /** The body of a post: each request under its id. */
  function BodyOf(sent: seq<Sub>): Payload {
    Gets(seq(|sent|, i requires 0 <= i < |sent| => (sent[i].id, sent[i].url)))
  }

  lemma LookIsPrompt(now: int, wait: nat, deadline: int)
    ensures Prompt([Read(now)], deadline)
    ensures wait <= Max(deadline - now, 0) ==> Prompt([Read(now), Slept(wait)], deadline)
  {
    assert [Read(now)][..0] == [] && [Read(now), Slept(wait)][..1] == [Read(now)];
  }

  class BatchClient {
    const client: Client
    ghost var history: seq<BatchEvent>

    constructor (client: Client)
      ensures this.client == client && history == []
    {
      this.client, history := client, [];
    }

    /** The batch POST's answer: any envelope, or the send's own error. */
    method PostBatch(sent: seq<Sub>, budget: Budget) returns (r: Result<seq<Raw>, AppError>, ghost did: seq<Event>)
      requires client.Valid() && budget.Valid() && !client.held
      modifies this`history, client`time, client`held, client`trace, budget`requestsLeft, budget`requestsUsed
      ensures client.Valid() && budget.Valid() && !client.held
      ensures history == old(history) + [Posted(sent, r)]
      ensures client.trace == old(client.trace) + did && Prompt(did, budget.deadline)
      ensures |Calls(did)| <= client.maxAttempts + 1 && AllOf(did, Call(Post, BatchUrl, BodyOf(sent)))
      ensures budget.requestsLeft + budget.requestsUsed == old(budget.requestsLeft + budget.requestsUsed)
    {
      var status;
      ghost var t;
      status, did, t := client.Send(Call(Post, BatchUrl, BodyOf(sent)), budget);
      SendsIsPrompt(did, Call(Post, BatchUrl, BodyOf(sent)), t, status, budget.deadline, client.maxAttempts);
      if status.Err? {
        r := Err(status.error);
      } else {
        var got: seq<Raw> := *;
        r := Ok(got);
      }
      history := history + [Posted(sent, r)];
    }

    /** What remains of the deadline. */
    method Remaining(budget: Budget) returns (left: nat, ghost now: int)
      requires client.Valid()
      modifies this`history, client`time, client`trace
      ensures client.Valid() && client.trace == old(client.trace) + [Read(now)]
      ensures left == Max(budget.deadline - now, 0) && history == old(history) + [Looked(left)]
    {
      var t := client.Now();
      now, left := t, Max(budget.deadline - t, 0);
      history := history + [Looked(left)];
    }

    method Nap(wait: nat)
      requires client.Valid() && !client.held
      modifies this`history, client`time, client`trace
      ensures client.Valid() && client.trace == old(client.trace) + [Slept(wait)]
      ensures history == old(history) + [Napped(wait)]
    {
      client.Sleep(wait);
      history := history + [Napped(wait)];
    }

    method BatchGet(subs: seq<Sub>, budget: Budget)
      returns (r: Result<seq<SubRes>, AppError>, ghost rounds: seq<Round>, ghost last: seq<Sub>, ghost did: seq<Event>)
      requires client.Valid() && budget.Valid() && !client.held
      modifies this`history, client`time, client`held, client`trace, budget`requestsLeft, budget`requestsUsed
      ensures client.Valid() && budget.Valid() && !client.held
      ensures |subs| > BATCH_MAX ==> r == Err(InvalidArgs) && history == old(history) && did == []
      // These rounds and nothing else, but for a last post that failed.
      ensures |subs| <= BATCH_MAX ==> history == old(history) + MadeBy(rounds) + Failing(FailureOf(r), last)
      ensures client.trace == old(client.trace) + did && Prompt(did, budget.deadline)
      // Exactly the ids asked for, once each, in the order asked, each with the
      // last answer it got.
      ensures r.Ok? && DistinctIds(subs) ==> FinalInOrder(subs, rounds, r.value)
      ensures |rounds| <= client.maxAttempts && Ladder(subs, rounds)
      // It goes on as long as it may.
      ensures r.Ok? && 0 < |rounds| < client.maxAttempts ==> Over(rounds[|rounds| - 1])
      ensures budget.requestsLeft + budget.requestsUsed == old(budget.requestsLeft + budget.requestsUsed)
    {
      if |subs| > BATCH_MAX {
        assert client.trace == client.trace + [];
        return Err(InvalidArgs), [], [], [];
      }
      var failed, results;
      failed, results, rounds, last, did := Rounds(subs, budget);
      if failed.Some? {
        r := Err(failed.value);
      } else {
        var out := Answers(subs, rounds, results);
        r := Ok(out);
      }
    }

    /** What the loop leaves, in the order asked. */
    method Answers(subs: seq<Sub>, ghost rounds: seq<Round>, results: map<string, SubRes>) returns (out: seq<SubRes>)
      requires Paired(subs, rounds, results) && (rounds == [] ==> subs == [])
      ensures DistinctIds(subs) ==> FinalInOrder(subs, rounds, out)
    {
      out := InOrder(subs, results);
      AllAnswered(subs, rounds, results, out);
    }

    /** The round loop. */
    method Rounds(subs: seq<Sub>, budget: Budget)
      returns (
        failed: Option<AppError>, results: map<string, SubRes>,
        ghost rounds: seq<Round>, ghost last: seq<Sub>, ghost did: seq<Event>)
      requires client.Valid() && budget.Valid() && !client.held
      modifies this`history, client`time, client`held, client`trace, budget`requestsLeft, budget`requestsUsed
      ensures client.Valid() && budget.Valid() && !client.held
      ensures history == old(history) + MadeBy(rounds) + Failing(failed, last)
      ensures client.trace == old(client.trace) + did && Prompt(did, budget.deadline)
      ensures |rounds| <= client.maxAttempts && Ladder(subs, rounds)
      ensures failed.None? ==> Paired(subs, rounds, results) && (rounds == [] ==> subs == [])
      ensures failed.None? && 0 < |rounds| < client.maxAttempts ==> Over(rounds[|rounds| - 1])
      ensures budget.requestsLeft + budget.requestsUsed == old(budget.requestsLeft + budget.requestsUsed)
    {
      rounds, last, did, results, failed := [], [], [], map[], None;
      var pending, round := subs, 0;
      assert history == history + MadeBy([]) && client.trace == client.trace + [];
      while round < client.maxAttempts && pending != []
        invariant failed.None? && round <= client.maxAttempts && |rounds| == round
        invariant client.Valid() && budget.Valid() && !client.held
        invariant history == old(history) + MadeBy(rounds)
        invariant client.trace == old(client.trace) + did && Prompt(did, budget.deadline)
        invariant budget.requestsLeft + budget.requestsUsed == old(budget.requestsLeft + budget.requestsUsed)
        invariant UpTo(subs, rounds, pending, results, client.maxAttempts)
        decreases client.maxAttempts - round
      {
        var again, answers;
        ghost var made, more;
        failed, again, answers, made, more := OneRound(pending, results, round + 1 < client.maxAttempts, budget);
        PromptJoined(did, more, budget.deadline);
        Associates(old(client.trace), did, more);
        did := did + more;
        if failed.Some? {
          last := pending;
          return;
        }
        RoundAdded(subs, rounds, pending, results, made, again, answers, client.maxAttempts);
        MadeAppend(old(history), rounds, made);
        rounds, pending, results := rounds + [made], again, answers;
        round := round + 1;
      }
      assert history == history + [];
    }

    /** The loop body: post, pair, and decide who waits for another round. When the
        longest wait does not fit, nobody does. */
    method OneRound(sent: seq<Sub>, results: map<string, SubRes>, mayRetry: bool, budget: Budget)
      returns (
        failed: Option<AppError>, again: seq<Sub>, out: map<string, SubRes>, ghost made: Round, ghost did: seq<Event>)
      requires client.Valid() && budget.Valid() && !client.held
      modifies this`history, client`time, client`held, client`trace, budget`requestsLeft, budget`requestsUsed
      ensures client.Valid() && budget.Valid() && !client.held
      ensures client.trace == old(client.trace) + did && Prompt(did, budget.deadline)
      ensures budget.requestsLeft + budget.requestsUsed == old(budget.requestsLeft + budget.requestsUsed)
      ensures failed.Some? ==> history == old(history) + [Posted(sent, Err(failed.value))]
      ensures failed.None? ==>
                history == old(history) + Made(made) && Turned(sent, results, mayRetry, made, again, out)
    {
      again, out, made := [], results, Round(sent, [], 0, None);
      var posted;
      posted, did := PostBatch(sent, budget);
      if posted.Err? {
        return Some(posted.error), again, out, made, did;
      }
      var got := posted.value;
      out := Collect(got, out);
      out := FillSilent(sent, out);
      ghost var more;
      again, made, more := Decide(sent, got, mayRetry, budget);
      PromptJoined(did, more, budget.deadline);
      Associates(old(client.trace), did, more);
      MadeParts(old(history), made);
      did, failed := did + more, None;
    }

    /** Who goes again, after how long. On the last round a 429 is the answer, not a
        reason to go on. */
    method Decide(sent: seq<Sub>, got: seq<Raw>, mayRetry: bool, budget: Budget)
      returns (again: seq<Sub>, ghost made: Round, ghost did: seq<Event>)
      requires client.Valid() && !client.held
      modifies this`history, client`time, client`trace
      ensures client.Valid() && made.sent == sent && made.got == got
      ensures history == old(history) + Made(made)[1..]
      ensures client.trace == old(client.trace) + did && Prompt(did, budget.deadline)
      ensures again != [] ==> mayRetry && Leads(made, again)
      ensures again == [] && mayRetry ==> Over(made)
    {
      var left;
      ghost var now;
      left, now := Remaining(budget);
      again, made, did := [], Round(sent, got, left, None), [Read(now)];
      LookIsPrompt(now, 0, budget.deadline);
      if mayRetry {
        var pending := Keep(sent, got);
        var longest := LongestWait(got);
        if pending != [] && longest <= left {
          Nap(longest);
          LookIsPrompt(now, longest, budget.deadline);
          again, made, did := pending, Round(sent, got, left, Some(longest)), [Read(now), Slept(longest)];
        }
      }
    }
  }

  /** One round's answers on top of the results before it. */
  ghost predicate Updates(results: map<string, SubRes>, got: seq<Raw>, out: map<string, SubRes>) {
    forall id: string :: Lookup(out, id) ==
      match AnswerIn(got, id) { case Some(a) => a case None => Lookup(results, id) }
  }

  /** What one round comes to: exactly those just throttled go again, after a wait that
      fits; nobody does if it is the last round, or if nobody can; and every request
      sent has a result. */
  ghost predicate Turned(
    sent: seq<Sub>, results: map<string, SubRes>, mayRetry: bool, made: Round, again: seq<Sub>, out: map<string, SubRes>)
  {
    && made.sent == sent
    && (again != [] ==> mayRetry && Leads(made, again))
    && (again == [] && mayRetry ==> Over(made))
    && results.Keys <= out.Keys && (forall s | s in sent :: s.id in out)
    && Updates(results, made.got, out)
  }

  /** The results so far say of each request what the rounds so far say. */
  ghost predicate Paired(subs: seq<Sub>, rounds: seq<Round>, results: map<string, SubRes>) {
    && (forall i | 0 <= i < |subs| :: Lookup(results, subs[i].id) == Final(rounds, subs[i].id))
    && (rounds != [] ==> forall i | 0 <= i < |subs| :: subs[i].id in results)
  }

  /** Where the loop stands: who is still throttled. */
  ghost predicate Stands(subs: seq<Sub>, rounds: seq<Round>, pending: seq<Sub>) {
    && Ladder(subs, rounds)
    && (rounds == [] ==> pending == subs)
    && (rounds != [] && pending != [] ==> Leads(rounds[|rounds| - 1], pending))
  }

  /** Where the loop stands, and that it stopped only when it had to. */
  ghost predicate UpTo(
    subs: seq<Sub>, rounds: seq<Round>, pending: seq<Sub>, results: map<string, SubRes>, maxAttempts: nat)
  {
    && Stands(subs, rounds, pending) && Paired(subs, rounds, results)
    && (pending == [] && 0 < |rounds| < maxAttempts ==> Over(rounds[|rounds| - 1]))
  }

  lemma RoundAdded(
      subs: seq<Sub>, rounds: seq<Round>, pending: seq<Sub>, results: map<string, SubRes>,
      made: Round, again: seq<Sub>, answers: map<string, SubRes>, maxAttempts: nat)
    requires UpTo(subs, rounds, pending, results, maxAttempts) && pending != []
    requires Turned(pending, results, |rounds| + 1 < maxAttempts, made, again, answers)
    ensures UpTo(subs, rounds + [made], again, answers, maxAttempts)
  {
    StandsOn(subs, rounds, pending, made, again);
    PairedOn(subs, rounds, results, made, answers, pending);
  }

  lemma StandsOn(subs: seq<Sub>, rounds: seq<Round>, pending: seq<Sub>, made: Round, again: seq<Sub>)
    requires Stands(subs, rounds, pending) && pending != [] && made.sent == pending
    requires again != [] ==> Leads(made, again)
    ensures Stands(subs, rounds + [made], again)
  {
    LadderAppend(subs, rounds, made);
  }

  lemma PairedOn(
      subs: seq<Sub>, rounds: seq<Round>, results: map<string, SubRes>, made: Round, answers: map<string, SubRes>,
      pending: seq<Sub>)
    requires Paired(subs, rounds, results) && Updates(results, made.got, answers)
    requires results.Keys <= answers.Keys && (rounds == [] ==> pending == subs)
    requires forall s | s in pending :: s.id in answers
    ensures Paired(subs, rounds + [made], answers)
  {
    forall i | 0 <= i < |subs|
      ensures Lookup(answers, subs[i].id) == Final(rounds + [made], subs[i].id)
    {
      AnswerOn(rounds, results, made, answers, subs[i].id);
    }
  }

  lemma AnswerOn(
      rounds: seq<Round>, results: map<string, SubRes>, made: Round, answers: map<string, SubRes>, id: string)
    requires Lookup(results, id) == Final(rounds, id)
    requires Lookup(answers, id) == match AnswerIn(made.got, id) { case Some(a) => a case None => Lookup(results, id) }
    ensures Lookup(answers, id) == Final(rounds + [made], id)
  {
    FinalAppend(rounds, made, id);
  }

  /** What comes out of the loop answers each request with its last answer. */
  lemma AllAnswered(subs: seq<Sub>, rounds: seq<Round>, results: map<string, SubRes>, out: seq<SubRes>)
    requires Paired(subs, rounds, results) && (rounds == [] ==> subs == [])
    requires AnswersInOrder(subs, results, out)
    ensures DistinctIds(subs) ==> FinalInOrder(subs, rounds, out)
  {
    if DistinctIds(subs) {
      forall i | 0 <= i < |subs|
        ensures subs[i].id in results && results[subs[i].id] == Final(rounds, subs[i].id)
      {
        assert Lookup(results, subs[i].id) == Final(rounds, subs[i].id);
      }
    }
  }
}
