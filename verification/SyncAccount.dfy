/**
 * What one sync call has heard from Graph, what it holds, and what it must still
 * fetch. A list is done if it was complete and fresh when the call looked, or if the
 * call came to a page of it without a nextLink; nothing else counts.
 */
module SyncAccount {
  import opened Wrappers
  import opened Models
  import opened Truncation
  import opened Retry
  import opened Exchanges
  import opened Paging
  import opened SyncCoverage
  import Cache
  import Coherence

  /** A list whose first page had a nextLink, with the generation read before it. */
  datatype Continuation = Continuation(list: TaskList, tasks: seq<Task>, next: Link, generation: nat)

  datatype Progress = Progress(
    known: Known, stopped: Stopped, subFailed: bool, failure: Option<AppError>, continuations: seq<Continuation>)

  /** One look at the cache under its lock: the clock reading it is judged by, and the
      entries there were. */
  datatype Look = Look(now: int, tasks: map<string, Cache.ListTasks>) {
    predicate Fresh(id: string, ttl: nat) {
      id in tasks && Cache.FreshFor(ttl, tasks[id].fetchedAt, now)
    }

    /** The fresh entries of some lists, complete or not. */
    function Shows(ids: set<string>, ttl: nat): Known {
      map id | id in ids && Fresh(id, ttl) :: Held(tasks[id].tasks, tasks[id].complete)
    }
  }

  /** What a look shows of a list to answer with: a fresh and complete entry. */
  function AtHand(look: Look, id: string, ttl: nat): Option<seq<Task>> {
    if look.Fresh(id, ttl) && look.tasks[id].complete then Some(look.tasks[id].tasks) else None
  }

  /** An entry that is as old as the time to live, or older, is never answered with; any
      other is, if it is complete. At a time to live of 0 there is none. */
  lemma OldIsNeverShown(look: Look, ids: set<string>, id: string, ttl: nat)
    requires id in look.tasks && id in ids
    ensures look.now >= look.tasks[id].fetchedAt + ttl ==> AtHand(look, id, ttl).None? && id !in look.Shows(ids, ttl)
    ensures look.now < look.tasks[id].fetchedAt + ttl && ttl > 0 ==>
              && id in look.Shows(ids, ttl) && look.Shows(ids, ttl)[id].tasks == look.tasks[id].tasks
              && (AtHand(look, id, ttl) == if look.tasks[id].complete then Some(look.tasks[id].tasks) else None)
  {
  }

  /** The lists of one call, what was fresh when it looked, the order it means to ask for
      the others in, the exchanges before it, and those it has heard. */
  datatype Account = Account(all: set<string>, ready: Known, plan: seq<string>, start: Log, said: Log) {
    predicate OnEntry(id: string) {
      id in all && id in ready && ready[id].complete
    }

    predicate Walked(id: string) {
      id in all && Ended(said, id)
    }

    predicate Finished(id: string) {
      OnEntry(id) || Walked(id)
    }

    ghost function Entry(): set<string> {
      set id | id in all && OnEntry(id)
    }

    ghost function Done(): set<string> {
      set id | id in all && Finished(id)
    }

    /** Every exchange there was. */
    function WholeLog(): Log {
      start.Then(said)
    }

    function Hear(more: Log): Account {
      this.(said := said.Then(more))
    }

    ghost predicate LeadsTo(later: Account) {
      && later.all == all && later.ready == ready && later.plan == plan && later.start == start
      && (FellBack(said) ==> FellBack(later.said))
      && forall id | Walked(id) :: later.Walked(id)
    }

    /** Something was walked to its end in this call. */
    ghost predicate Further() {
      exists id :: Walked(id)
    }
  }

  function ContinuationIds(continuations: seq<Continuation>): (ids: seq<string>)
    ensures |ids| == |continuations|
    ensures forall i | 0 <= i < |ids| :: ids[i] == continuations[i].list.id
  {
    seq(|continuations|, i requires 0 <= i < |continuations| => continuations[i].list.id)
  }

  // -------------------------------------------------------------------------
  // What is held, against what was heard

  /** Still to be fetched: not done, and nothing held for it but a fresh entry. */
  ghost predicate Open(known: Known, acc: Account, id: string) {
    && id in acc.all && !acc.Finished(id)
    && (id in known ==> id in acc.ready && known[id] == acc.ready[id])
  }

  /** What is held was brought by this call: the first tasks Graph answered for the
      list, cut, and all of them if it is complete. */
  ghost predicate Brought(h: Held, acc: Account, id: string) {
    && h.tasks <= Truncated(Gathered(acc.said, id))
    && (h.complete ==> h.tasks == Truncated(Gathered(acc.said, id)))
  }

  /** Complete exactly if done; fresh or brought by this call; and what was complete
      on entry stays, and is not asked for. */
  ghost predicate Knows(known: Known, acc: Account, id: string) {
    && (acc.Finished(id) <==> id in known && known[id].complete)
    && (id in known ==> (id in acc.ready && known[id] == acc.ready[id]) || Brought(known[id], acc, id))
    && (acc.OnEntry(id) ==> LastPage(acc.said, id).None? && id in known && known[id] == acc.ready[id])
  }

  /** A first page that was put by, with where to go on. */
  ghost predicate PutBy(c: Continuation, acc: Account) {
    && LastPage(acc.said, c.list.id).Some? && LastPage(acc.said, c.list.id).value.next == Some(c.next)
    && c.tasks == Gathered(acc.said, c.list.id)
  }

  /** A queue of lists to fetch: each once, all of them open. */
  ghost predicate Clean(queue: seq<string>, known: Known, acc: Account) {
    Distinct(queue) && forall i {:trigger Open(known, acc, queue[i])} | 0 <= i < |queue| :: Open(known, acc, queue[i])
  }

  ghost predicate AccountedAt(k: int, p: Progress, queue: seq<string>, acc: Account) {
    && Clean(ContinuationIds(p.continuations) + queue, p.known, acc)
    && (forall id {:trigger Knows(p.known, acc, id)} | id in acc.all :: Knows(p.known, acc, id))
    && (forall i {:trigger PutBy(p.continuations[i], acc)} | 0 <= i < |p.continuations| :: PutBy(p.continuations[i], acc))
    && (forall i {:trigger Gathered(acc.said, queue[i])} | 0 <= i < |queue| :: Gathered(acc.said, queue[i]) == [])
  }

  /** What is held, queued and put by is what was heard. The quantifier only keeps the
      definition folded. */
  ghost predicate Accounted(p: Progress, queue: seq<string>, acc: Account) {
    forall k :: AccountedAt(k, p, queue, acc)
  }

  lemma AccountedMeans(p: Progress, queue: seq<string>, acc: Account)
    requires Accounted(p, queue, acc)
    ensures Clean(ContinuationIds(p.continuations) + queue, p.known, acc)
    ensures forall id {:trigger Knows(p.known, acc, id)} | id in acc.all :: Knows(p.known, acc, id)
    ensures forall i {:trigger PutBy(p.continuations[i], acc)} | 0 <= i < |p.continuations| :: PutBy(p.continuations[i], acc)
    ensures forall i {:trigger Gathered(acc.said, queue[i])} | 0 <= i < |queue| :: Gathered(acc.said, queue[i]) == []
  {
    assert AccountedAt(0, p, queue, acc);
  }

  /** What stopped a call matters nothing to its account. */
  lemma SameAccount(p: Progress, next: Progress, queue: seq<string>, acc: Account)
    requires Accounted(p, queue, acc) && next.known == p.known && next.continuations == p.continuations
    ensures Accounted(next, queue, acc)
    ensures !next.stopped.Complete? || next.subFailed ==> Covered(next, queue, acc)
  {
    AccountedMeans(p, queue, acc);
  }

  /** Of a list, the same was heard. */
  ghost predicate Unmoved(a: Account, b: Account, id: string) {
    && LastPage(b.said, id) == LastPage(a.said, id) && Gathered(b.said, id) == Gathered(a.said, id)
  }

  /** What is heard of one open list changes nothing for the others. */
  lemma HeardOfOne(acc: Account, more: Log, id: string)
    requires OnlyFor(more, id) && !acc.Finished(id)
    ensures forall other | other != id :: Unmoved(acc, acc.Hear(more), other)
    ensures LastPage(acc.said.Then(more), id) == LastPage(more, id).OrElse(LastPage(acc.said, id))
    ensures Gathered(acc.said.Then(more), id) == Gathered(acc.said, id) + Gathered(more, id)
    ensures acc.LeadsTo(acc.Hear(more))
  {
    ReadOfBoth(acc.said, more, id);
    FailuresOfBoth(acc.said, more);
    forall other | other != id
      ensures Unmoved(acc, acc.Hear(more), other)
    {
      OthersUnheard(more, id, other);
      ReadOfBoth(acc.said, more, other);
    }
    forall x | acc.Walked(x)
      ensures acc.Hear(more).Walked(x)
    {
      assert Unmoved(acc, acc.Hear(more), x);
    }
  }

  lemma UnmovedKnows(known: Known, a: Account, b: Account, id: string)
    requires Unmoved(a, b, id) && a.all == b.all && a.ready == b.ready
    ensures Knows(known, a, id) <==> Knows(known, b, id)
    ensures Open(known, a, id) <==> Open(known, b, id)
  {
  }

  /** What is left of an account when one list is set apart and more is heard of it. */
  lemma Apart(p: Progress, known: Known, queue: seq<string>, acc: Account, more: Log, id: string)
    requires Accounted(p, queue, acc) && OnlyFor(more, id) && !acc.Finished(id)
    requires id !in ContinuationIds(p.continuations) + queue
    requires forall x | x != id :: (x in known <==> x in p.known) && (x in known ==> known[x] == p.known[x])
    ensures Clean(ContinuationIds(p.continuations) + queue, known, acc.Hear(more))
    ensures forall x | x in acc.all && x != id :: Knows(known, acc.Hear(more), x)
    ensures forall i | 0 <= i < |p.continuations| :: PutBy(p.continuations[i], acc.Hear(more))
    ensures forall i | 0 <= i < |queue| :: Gathered(acc.said.Then(more), queue[i]) == []
    ensures acc.LeadsTo(acc.Hear(more))
  {
    AccountedMeans(p, queue, acc);
    var acc', ids := acc.Hear(more), ContinuationIds(p.continuations) + queue;
    HeardOfOne(acc, more, id);
    forall i | 0 <= i < |ids|
      ensures ids[i] != id && Open(known, acc', ids[i]) && Unmoved(acc, acc', ids[i])
    {
      assert ids[i] in ids && Open(p.known, acc, ids[i]);
      UnmovedKnows(known, acc, acc', ids[i]);
    }
    forall x | x in acc.all && x != id
      ensures Knows(known, acc', x)
    {
      assert Knows(p.known, acc, x);
      UnmovedKnows(known, acc, acc', x);
    }
    forall i | 0 <= i < |p.continuations|
      ensures PutBy(p.continuations[i], acc')
    {
      assert PutBy(p.continuations[i], acc);
      assert ids[i] == p.continuations[i].list.id && Unmoved(acc, acc', ids[i]);
    }
    forall i | 0 <= i < |queue|
      ensures Gathered(acc'.said, queue[i]) == []
    {
      assert ids[|p.continuations| + i] == queue[i];
    }
  }

  /** Heard of, but not kept: the list stays as it was. */
  lemma HeardOnly(p: Progress, queue: seq<string>, acc: Account, more: Log, id: string)
    requires Accounted(p, queue, acc) && OnlyFor(more, id) && Open(p.known, acc, id) && !Ended(more, id)
    requires id !in ContinuationIds(p.continuations) + queue
    ensures Accounted(p, queue, acc.Hear(more)) && acc.LeadsTo(acc.Hear(more))
  {
    AccountedMeans(p, queue, acc);
    HeardOfOne(acc, more, id);
    Apart(p, p.known, queue, acc, more, id);
    assert Knows(p.known, acc, id);
  }

  /** A list kept: what this call holds for it from now on. */
  function Kept(p: Progress, id: string, tasks: seq<Task>, complete: bool): Progress {
    p.(known := p.known[id := Held(Truncated(tasks), complete)])
  }

  lemma KeptIsAccounted(
      p: Progress, queue: seq<string>, acc: Account, more: Log, id: string, tasks: seq<Task>, complete: bool)
    requires Accounted(p, queue, acc) && OnlyFor(more, id) && Open(p.known, acc, id)
    requires id !in ContinuationIds(p.continuations) + queue
    requires complete <==> Ended(more, id)
    requires tasks <= Gathered(acc.said, id) + Gathered(more, id)
    requires complete ==> tasks == Gathered(acc.said, id) + Gathered(more, id)
    ensures Accounted(Kept(p, id, tasks, complete), queue, acc.Hear(more)) && acc.LeadsTo(acc.Hear(more))
  {
    AccountedMeans(p, queue, acc);
    HeardOfOne(acc, more, id);
    Apart(p, Kept(p, id, tasks, complete).known, queue, acc, more, id);
    assert Knows(p.known, acc, id);
  }

  lemma MovedIsClean(conts: seq<Continuation>, c: Continuation, queue: seq<string>, known: Known, acc: Account)
    requires Clean(ContinuationIds(conts) + queue, known, acc) && Open(known, acc, c.list.id)
    requires Distinct(ContinuationIds(conts) + ([c.list.id] + queue))
    ensures Clean(ContinuationIds(conts + [c]) + queue, known, acc)
  {
    var ids, left := ContinuationIds(conts + [c]) + queue, ContinuationIds(conts) + queue;
    assert ids == ContinuationIds(conts) + ([c.list.id] + queue);
    forall i | 0 <= i < |ids|
      ensures Open(known, acc, ids[i])
    {
      if i != |conts| {
        var k := if i < |conts| then i else i - 1;
        assert Open(known, acc, left[k]) && left[k] == ids[i];
      }
    }
  }

  /** A long list is put by with its first page. */
  lemma PutByIsAccounted(p: Progress, queue: seq<string>, acc: Account, c: Continuation, response: Option<SubResponse>)
    requires Accounted(p, [c.list.id] + queue, acc)
    requires FirstPage(response) == Some(Page(c.tasks, Some(c.next)))
    ensures var acc' := acc.Hear(Only(Batched(c.list.id, response)));
            && Accounted(p.(continuations := p.continuations + [c]), queue, acc') && acc.LeadsTo(acc')
  {
    AccountedMeans(p, [c.list.id] + queue, acc);
    var id, more := c.list.id, Only(Batched(c.list.id, response));
    FirstOfQueue(p, id, queue, acc);
    ReadOfOne(acc.said, Batched(id, response), id);
    HeardOfOne(acc, more, id);
    Apart(p, p.known, queue, acc, more, id);
    var acc' := acc.Hear(more);
    assert Knows(p.known, acc, id) && PutBy(c, acc');
    MovedIsClean(p.continuations, c, queue, p.known, acc');
    assert forall i | 0 <= i < |p.continuations| :: PutBy(p.continuations[i], acc');
  }

  /** The first list of a queue leaves it. */
  lemma FirstOfQueue(p: Progress, id: string, rest: seq<string>, acc: Account)
    requires Accounted(p, [id] + rest, acc)
    ensures Accounted(p, rest, acc) && Open(p.known, acc, id) && Gathered(acc.said, id) == []
    ensures id !in ContinuationIds(p.continuations) + rest
  {
    AccountedMeans(p, [id] + rest, acc);
    var conts := ContinuationIds(p.continuations);
    var all := conts + ([id] + rest);
    assert all[|conts|] == id;
    assert ([id] + rest)[0] == id;
    forall i | 0 <= i < |conts + rest|
      ensures (conts + rest)[i] == all[if i < |conts| then i else i + 1]
    {
    }
    assert forall i | 0 <= i < |rest| :: rest[i] == ([id] + rest)[i + 1];
  }

  /** The next continuation is taken up. */
  lemma FirstPutBy(p: Progress, acc: Account)
    requires Accounted(p, [], acc) && p.continuations != []
    ensures var c, rest := p.continuations[0], p.(continuations := p.continuations[1..]);
            && Accounted(rest, [], acc) && Open(p.known, acc, c.list.id) && PutBy(c, acc)
            && c.list.id !in ContinuationIds(rest.continuations) + []
  {
    AccountedMeans(p, [], acc);
    var ids, rest := ContinuationIds(p.continuations), p.continuations[1..];
    var all := ids + [];
    assert all[0] == p.continuations[0].list.id;
    assert ContinuationIds(rest) + [] == ids[1..];
    assert forall i | 0 <= i < |ids| - 1 :: ids[1..][i] == all[i + 1];
    assert forall i | 0 <= i < |rest| :: rest[i] == p.continuations[i + 1];
  }

  lemma FewerAreAccounted(p: Progress, a: seq<string>, b: seq<string>, acc: Account)
    requires Accounted(p, a + b, acc)
    ensures Accounted(p, a, acc) && Accounted(p, b, acc) && Accounted(p, [], acc)
  {
    AccountedMeans(p, a + b, acc);
    var conts := ContinuationIds(p.continuations);
    var all := conts + (a + b);
    assert forall i | 0 <= i < |conts + a| :: (conts + a)[i] == all[i];
    assert forall i | 0 <= i < |conts + b| :: (conts + b)[i] == all[if i < |conts| then i else i + |a|];
    assert forall i | 0 <= i < |conts + []| :: (conts + [])[i] == all[i];
    assert forall i | 0 <= i < |a| :: a[i] == (a + b)[i];
    assert forall i | 0 <= i < |b| :: b[i] == (a + b)[i + |a|];
  }

  /** A batch that failed is about no list. */
  lemma FailedIsAccounted(p: Progress, queue: seq<string>, acc: Account, error: AppError)
    requires Accounted(p, queue, acc)
    ensures Accounted(p, queue, acc.Hear(Only(BatchFailed(error)))) && acc.LeadsTo(acc.Hear(Only(BatchFailed(error))))
  {
    AccountedMeans(p, queue, acc);
    var more, ids := Only(BatchFailed(error)), ContinuationIds(p.continuations) + queue;
    var acc' := acc.Hear(more);
    FailuresOfBoth(acc.said, more);
    forall id
      ensures Unmoved(acc, acc', id)
    {
      ReadOfOne(acc.said, BatchFailed(error), id);
      assert Gathered(acc.said, id) + [] == Gathered(acc.said, id);
    }
    forall i | 0 <= i < |ids|
      ensures Open(p.known, acc', ids[i])
    {
      assert Open(p.known, acc, ids[i]);
    }
    forall id | id in acc.all
      ensures Knows(p.known, acc', id)
    {
      assert Knows(p.known, acc, id);
    }
    assert forall i | 0 <= i < |p.continuations| :: PutBy(p.continuations[i], acc);
    assert forall i | 0 <= i < |queue| :: Gathered(acc.said, queue[i]) == [];
  }

  // -------------------------------------------------------------------------
  // In which order the lists are asked for

  function Joined(s: seq<string>, x: string): seq<string> {
    if x in s then s else s + [x]
  }

  /** The lists something was heard about, in the order it was first heard. */
  function FirstHeard(log: Log): seq<string> {
    match log
    case Silence => []
    case Said(before, Batched(list, _)) => Joined(FirstHeard(before), list)
    case Said(before, BatchFailed(_)) => FirstHeard(before)
    case Said(before, Got(owner, _, _)) => Joined(FirstHeard(before), owner)
  }

  ghost predicate Precedes(plan: seq<string>, a: string, b: string) {
    exists i, j | 0 <= i < j < |plan| :: plan[i] == a && plan[j] == b
  }

  /** Some of a plan, in its order. */
  ghost predicate InPlan(plan: seq<string>, s: seq<string>) {
    && (forall i | 0 <= i < |s| :: s[i] in plan)
    && (forall i, j | 0 <= i < j < |s| :: Precedes(plan, s[i], s[j]))
  }

  lemma WholePlan(plan: seq<string>)
    ensures InPlan(plan, plan)
  {
    forall i, j | 0 <= i < j < |plan|
      ensures Precedes(plan, plan[i], plan[j])
    {
    }
  }

  lemma PartOfPlan(plan: seq<string>, a: seq<string>, b: seq<string>, c: seq<string>)
    requires InPlan(plan, a + b + c)
    ensures InPlan(plan, a + c)
  {
    var s, t := a + b + c, a + c;
    forall i | 0 <= i < |t|
      ensures t[i] == s[if i < |a| then i else i + |b|]
    {
    }
    forall i, j | 0 <= i < j < |t|
      ensures Precedes(plan, t[i], t[j])
    {
      assert Precedes(plan, s[if i < |a| then i else i + |b|], s[if j < |a| then j else j + |b|]);
    }
  }

  ghost predicate InTurnAt(k: int, acc: Account, queue: seq<string>) {
    InPlan(acc.plan, FirstHeard(acc.said) + queue)
  }

  /** What was heard of, and then what is queued, is in the order of the plan. The
      quantifier only keeps the definition folded. */
  ghost predicate InTurn(acc: Account, queue: seq<string>) {
    forall k :: InTurnAt(k, acc, queue)
  }

  lemma InTurnMeans(acc: Account, queue: seq<string>)
    requires InTurn(acc, queue)
    ensures InPlan(acc.plan, FirstHeard(acc.said) + queue)
  {
    assert InTurnAt(0, acc, queue);
  }

  lemma PlanIsInTurn(acc: Account)
    requires acc.said == Silence
    ensures InTurn(acc, acc.plan)
  {
    WholePlan(acc.plan);
    assert FirstHeard(acc.said) + acc.plan == acc.plan;
  }

  /** Of a queue, some are given up. */
  lemma TurnGivenUp(acc: Account, queue: seq<string>, k: nat)
    requires InTurn(acc, queue) && k <= |queue|
    ensures InTurn(acc, queue[k..]) && InTurn(acc, [])
  {
    InTurnMeans(acc, queue);
    var heard := FirstHeard(acc.said);
    assert heard + queue == heard + queue[..k] + queue[k..] == heard + queue + [];
    PartOfPlan(acc.plan, heard, queue[..k], queue[k..]);
    PartOfPlan(acc.plan, heard, queue, []);
  }

  lemma {:induction false} HeardOnce(log: Log, more: Log, id: string)
    requires OnlyFor(more, id)
    ensures FirstHeard(log.Then(more)) == FirstHeard(log) || FirstHeard(log.Then(more)) == FirstHeard(log) + [id]
    ensures id in FirstHeard(log) ==> FirstHeard(log.Then(more)) == FirstHeard(log)
  {
    if more.Said? {
      HeardOnce(log, more.before, id);
    }
  }

  /** The first of the queue is heard of, or passed over. */
  lemma TurnTaken(acc: Account, more: Log, id: string, rest: seq<string>)
    requires InTurn(acc, [id] + rest) && OnlyFor(more, id)
    ensures InTurn(acc.Hear(more), rest)
  {
    InTurnMeans(acc, [id] + rest);
    var heard := FirstHeard(acc.said);
    HeardOnce(acc.said, more, id);
    assert heard + ([id] + rest) == heard + [id] + rest;
    PartOfPlan(acc.plan, heard, [id], rest);
  }

  lemma {:induction false} PageWasHeard(log: Log, id: string)
    requires LastPage(log, id).Some?
    ensures id in FirstHeard(log)
  {
    if log.Said? && PageOf(log.last, id).None? {
      PageWasHeard(log.before, id);
    }
  }

  /** More of a list that had its turn. */
  lemma TurnKept(acc: Account, more: Log, id: string, queue: seq<string>)
    requires InTurn(acc, queue) && OnlyFor(more, id) && LastPage(acc.said, id).Some?
    ensures InTurn(acc.Hear(more), queue)
  {
    InTurnMeans(acc, queue);
    PageWasHeard(acc.said, id);
    HeardOnce(acc.said, more, id);
  }

  /** A batch that failed names no list. */
  lemma FailureTakesNoTurn(acc: Account, error: AppError, queue: seq<string>)
    requires InTurn(acc, queue)
    ensures InTurn(acc.Hear(Only(BatchFailed(error))), queue)
  {
    InTurnMeans(acc, queue);
    ReadOfOne(acc.said, BatchFailed(error), "");
  }

  // -------------------------------------------------------------------------
  // When the generation was read

  /** This server's fill of a list, and what had been heard when its generation was read. */
  datatype Flight = Flight(fill: Option<Coherence.Fill>, readAt: Option<Log>)

  function FlightOf(w: Coherence.World, readAt: map<string, Log>, id: string): Flight {
    Flight(
      if Coherence.Own(id) in w.fills then Some(w.fills[Coherence.Own(id)]) else None,
      if id in readAt then Some(readAt[id]) else None)
  }

  /** Of all other lists than these, the fills are as they were. */
  ghost predicate Elsewhere(
    w: Coherence.World, readAt: map<string, Log>, w': Coherence.World, readAt': map<string, Log>, ids: set<string>)
  {
    forall id | id !in ids :: FlightOf(w', readAt', id) == FlightOf(w, readAt, id)
  }

  /** The generation was read before anything was brought for the list in this call. */
  ghost predicate ReadBefore(from: Log, acc: Account, id: string) {
    exists before, since ::
      from == acc.start.Then(before) && acc.said == before.Then(since) && Gathered(before, id) == []
  }

  lemma ReadNow(acc: Account, id: string)
    requires Gathered(acc.said, id) == []
    ensures ReadBefore(acc.WholeLog(), acc, id)
  {
    assert acc.said == acc.said.Then(Silence);
  }

  lemma ReadBeforeStays(from: Log, acc: Account, more: Log, id: string)
    requires ReadBefore(from, acc, id)
    ensures ReadBefore(from, acc.Hear(more), id)
  {
    var before, since :|
      from == acc.start.Then(before) && acc.said == before.Then(since) && Gathered(before, id) == [];
    ThenAssociates(before, since, more);
    assert acc.Hear(more).said == before.Then(since.Then(more));
  }

  /** What is to be stored was answered after the generation was read. */
  ghost predicate Answered(log: Log, from: Log, id: string, tasks: seq<Task>) {
    exists heard: Log :: log == from.Then(heard) && tasks <= Gathered(heard, id)
  }

  lemma AnsweredInCall(from: Log, acc: Account, unheard: Log, id: string, tasks: seq<Task>)
    requires ReadBefore(from, acc, id) && tasks <= Gathered(acc.said, id)
    ensures Answered(acc.WholeLog().Then(unheard), from, id, tasks)
  {
    var before, since :|
      from == acc.start.Then(before) && acc.said == before.Then(since) && Gathered(before, id) == [];
    ThenAssociates(acc.start, before, since);
    ThenAssociates(from, since, unheard);
    ReadOfBoth(before, since, id);
    ReadOfBoth(since, unheard, id);
    assert [] + Gathered(since, id) == Gathered(since, id);
    assert acc.WholeLog().Then(unheard) == from.Then(since.Then(unheard));
  }

  /** A fill that may store its list under a generation read before its tasks came. */
  ghost predicate Flies(f: Flight, acc: Account, id: string, generation: nat) {
    && f.fill.Some? && id in f.fill.value.lists && f.fill.value.began.Some?
    && Coherence.KeepUnder(f.fill.value, id) == generation
    && f.readAt.Some? && ReadBefore(f.readAt.value, acc, id)
  }

  /** Whatever came in this call came after the generation had been read for its list. */
  ghost predicate ReadFirst(w: Coherence.World, readAt: map<string, Log>, acc: Account) {
    forall id {:trigger LastPage(acc.said, id)} | LastPage(acc.said, id).Some? ::
      FlightOf(w, readAt, id).readAt.Some? && ReadBefore(FlightOf(w, readAt, id).readAt.value, acc, id)
  }

  ghost predicate AirborneAt(
    k: int, w: Coherence.World, readAt: map<string, Log>, acc: Account, continuations: seq<Continuation>)
  {
    && ReadFirst(w, readAt, acc)
    && forall i | 0 <= i < |continuations| ::
         Flies(
           FlightOf(w, readAt, continuations[i].list.id), acc, continuations[i].list.id, continuations[i].generation)
  }

  /** And every list that was put by may still be stored under its generation. The
      quantifier only keeps the definition folded. */
  ghost predicate Airborne(
    w: Coherence.World, readAt: map<string, Log>, acc: Account, continuations: seq<Continuation>)
  {
    forall k :: AirborneAt(k, w, readAt, acc, continuations)
  }

  lemma AirborneMeans(
      w: Coherence.World, readAt: map<string, Log>, acc: Account, continuations: seq<Continuation>)
    requires Airborne(w, readAt, acc, continuations)
    ensures ReadFirst(w, readAt, acc)
    ensures forall i | 0 <= i < |continuations| ::
              Flies(
                FlightOf(w, readAt, continuations[i].list.id), acc, continuations[i].list.id,
                continuations[i].generation)
  {
    assert AirborneAt(0, w, readAt, acc, continuations);
  }

  /** Before anything is heard. */
  lemma NothingAirborne(w: Coherence.World, readAt: map<string, Log>, acc: Account)
    requires acc.said == Silence
    ensures Airborne(w, readAt, acc, [])
  {
    assert forall id :: LastPage(acc.said, id).None?;
  }

  /** A list is put by, or taken up. */
  lemma OneMoreAirborne(
      w: Coherence.World, readAt: map<string, Log>, acc: Account, continuations: seq<Continuation>, c: Continuation)
    requires Airborne(w, readAt, acc, continuations)
    requires Flies(FlightOf(w, readAt, c.list.id), acc, c.list.id, c.generation)
    ensures Airborne(w, readAt, acc, continuations + [c])
  {
    AirborneMeans(w, readAt, acc, continuations);
  }

  lemma FirstAirborne(
      w: Coherence.World, readAt: map<string, Log>, acc: Account, continuations: seq<Continuation>)
    requires Airborne(w, readAt, acc, continuations) && continuations != []
    ensures Airborne(w, readAt, acc, continuations[1..])
    ensures Flies(
              FlightOf(w, readAt, continuations[0].list.id), acc, continuations[0].list.id, continuations[0].generation)
  {
    AirborneMeans(w, readAt, acc, continuations);
    assert forall i | 0 <= i < |continuations| - 1 :: continuations[1..][i] == continuations[i + 1];
  }

  lemma FliesOn(f: Flight, acc: Account, more: Log, id: string, generation: nat)
    requires Flies(f, acc, id, generation)
    ensures Flies(f, acc.Hear(more), id, generation)
  {
    ReadBeforeStays(f.readAt.value, acc, more, id);
  }

  /** More is heard of one list, which is read or kept meanwhile. */
  lemma StaysAirborne(
      w: Coherence.World, readAt: map<string, Log>, w': Coherence.World, readAt': map<string, Log>,
      acc: Account, more: Log, continuations: seq<Continuation>, id: string)
    requires Airborne(w, readAt, acc, continuations) && Elsewhere(w, readAt, w', readAt', {id})
    requires OnlyFor(more, id) && !acc.Finished(id) && id !in ContinuationIds(continuations)
    requires FlightOf(w', readAt', id).readAt.Some? && ReadBefore(FlightOf(w', readAt', id).readAt.value, acc, id)
    ensures Airborne(w', readAt', acc.Hear(more), continuations)
  {
    AirborneMeans(w, readAt, acc, continuations);
    HeardOfOne(acc, more, id);
    forall x | LastPage(acc.Hear(more).said, x).Some?
      ensures FlightOf(w', readAt', x).readAt.Some?
      ensures ReadBefore(FlightOf(w', readAt', x).readAt.value, acc.Hear(more), x)
    {
      if x != id {
        assert Unmoved(acc, acc.Hear(more), x) && LastPage(acc.said, x).Some?;
        assert FlightOf(w', readAt', x) == FlightOf(w, readAt, x);
      }
      ReadBeforeStays(FlightOf(w', readAt', x).readAt.value, acc, more, x);
    }
    forall i | 0 <= i < |continuations|
      ensures Flies(
                FlightOf(w', readAt', continuations[i].list.id), acc.Hear(more), continuations[i].list.id,
                continuations[i].generation)
    {
      assert ContinuationIds(continuations)[i] == continuations[i].list.id;
      FliesOn(
        FlightOf(w, readAt, continuations[i].list.id), acc, more, continuations[i].list.id, continuations[i].generation);
    }
  }

  /** Nothing is heard, and some lists that nothing came for are read. */
  lemma ReadMeanwhile(
      w: Coherence.World, readAt: map<string, Log>, w': Coherence.World, readAt': map<string, Log>,
      acc: Account, continuations: seq<Continuation>, ids: set<string>)
    requires Airborne(w, readAt, acc, continuations) && Elsewhere(w, readAt, w', readAt', ids)
    requires forall i | 0 <= i < |continuations| :: continuations[i].list.id !in ids
    requires forall id | id in ids ::
               FlightOf(w', readAt', id).readAt.Some? && ReadBefore(FlightOf(w', readAt', id).readAt.value, acc, id)
    ensures Airborne(w', readAt', acc, continuations)
  {
    AirborneMeans(w, readAt, acc, continuations);
    forall x | LastPage(acc.said, x).Some?
      ensures FlightOf(w', readAt', x).readAt.Some? && ReadBefore(FlightOf(w', readAt', x).readAt.value, acc, x)
    {
      if x !in ids {
        assert FlightOf(w', readAt', x) == FlightOf(w, readAt, x);
      }
    }
    forall i | 0 <= i < |continuations|
      ensures Flies(
                FlightOf(w', readAt', continuations[i].list.id), acc, continuations[i].list.id,
                continuations[i].generation)
    {
      assert FlightOf(w', readAt', continuations[i].list.id) == FlightOf(w, readAt, continuations[i].list.id);
    }
  }

  /** A batch that failed is about no list. */
  lemma FailureKeepsAirborne(
      w: Coherence.World, readAt: map<string, Log>, acc: Account, error: AppError, continuations: seq<Continuation>)
    requires Airborne(w, readAt, acc, continuations)
    ensures Airborne(w, readAt, acc.Hear(Only(BatchFailed(error))), continuations)
  {
    var more := Only(BatchFailed(error));
    AirborneMeans(w, readAt, acc, continuations);
    forall x | LastPage(acc.Hear(more).said, x).Some?
      ensures FlightOf(w, readAt, x).readAt.Some?
      ensures ReadBefore(FlightOf(w, readAt, x).readAt.value, acc.Hear(more), x)
    {
      ReadOfOne(acc.said, BatchFailed(error), x);
      assert LastPage(acc.said, x).Some?;
      ReadBeforeStays(FlightOf(w, readAt, x).readAt.value, acc, more, x);
    }
    forall i | 0 <= i < |continuations|
      ensures Flies(
                FlightOf(w, readAt, continuations[i].list.id), acc.Hear(more), continuations[i].list.id,
                continuations[i].generation)
    {
      FliesOn(
        FlightOf(w, readAt, continuations[i].list.id), acc, more, continuations[i].list.id, continuations[i].generation);
    }
  }

  // -------------------------------------------------------------------------
  // Nothing is forgotten

  /** While nothing stopped the call and no sub-request failed, every list is done or
      still to be fetched; or it was read by the fallback, which may cut it short. */
  ghost predicate CoveredAt(k: int, p: Progress, queue: seq<string>, acc: Account) {
    p.stopped.Complete? && !p.subFailed ==>
      forall id {:trigger acc.Finished(id)} | id in acc.all ::
        || acc.Finished(id)
        || id in ContinuationIds(p.continuations) + queue
        || (id in p.known && FellBack(acc.said))
  }

  ghost predicate Covered(p: Progress, queue: seq<string>, acc: Account) {
    forall k :: CoveredAt(k, p, queue, acc)
  }

  lemma CoveredMeans(p: Progress, queue: seq<string>, acc: Account)
    requires Covered(p, queue, acc) && p.stopped.Complete? && !p.subFailed
    ensures forall id {:trigger acc.Finished(id)} | id in acc.all ::
              || acc.Finished(id)
              || id in ContinuationIds(p.continuations) + queue
              || (id in p.known && FellBack(acc.said))
  {
    assert CoveredAt(0, p, queue, acc);
  }

  /** One list leaves the queue, finished, put by, or failed. */
  lemma StillCovered(p: Progress, next: Progress, id: string, rest: seq<string>, acc: Account, acc': Account)
    requires Covered(p, [id] + rest, acc) && acc.LeadsTo(acc') && p.known.Keys <= next.known.Keys
    requires next.stopped.Complete? && !next.subFailed ==> p.stopped.Complete? && !p.subFailed
    requires next.stopped.Complete? && !next.subFailed ==>
               acc'.Finished(id) || id in ContinuationIds(next.continuations) || (id in next.known && FellBack(acc'.said))
    requires forall x | x in ContinuationIds(p.continuations) :: x in ContinuationIds(next.continuations)
    ensures Covered(next, rest, acc')
  {
    if next.stopped.Complete? && !next.subFailed {
      CoveredMeans(p, [id] + rest, acc);
      forall x | x in acc'.all
        ensures acc'.Finished(x) || x in ContinuationIds(next.continuations) + rest || (x in next.known && FellBack(acc'.said))
      {
        if !acc.Finished(x) && x in ContinuationIds(p.continuations) + ([id] + rest) {
          assert x in ContinuationIds(p.continuations) || x == id || x in rest;
        }
      }
    }
  }

  /** A continuation was walked while nothing had stopped the call. */
  lemma WalkedIsCovered(p: Progress, next: Progress, acc: Account, acc': Account)
    requires Covered(p, [], acc) && acc.LeadsTo(acc') && p.continuations != []
    requires next.continuations == p.continuations[1..] && p.known.Keys <= next.known.Keys
    requires next.subFailed == p.subFailed
    requires next.stopped.Complete? ==> p.stopped.Complete? && acc'.Finished(p.continuations[0].list.id)
    ensures Covered(next, [], acc')
  {
    var id, ids := p.continuations[0].list.id, ContinuationIds(p.continuations);
    var q := p.(continuations := next.continuations);
    assert ids == [id] + ContinuationIds(q.continuations);
    assert forall x | x in ids + [] :: x in ContinuationIds(q.continuations) + ([id] + []);
    if p.stopped.Complete? && !p.subFailed {
      CoveredMeans(p, [], acc);
    }
    StillCovered(q, next, id, [], acc, acc');
  }

  // -------------------------------------------------------------------------
  // Why a call stopped

  /** What an error that ends a walk or a batch does. */
  function StoppedBy(p: Progress, e: AppError): Progress {
    if e.Throttled? then p.(stopped := Throttling) else p.(stopped := GraphError, failure := Some(e))
  }

  /** The reason a call gives for stopping is the truth. */
  ghost predicate Justified(p: Progress, said: Log, left: nat, overdue: bool, maxPages: nat) {
    && (match p.stopped
        case Complete => p.failure.None?
        case SyncTimeout => overdue
        case RequestBudget => left == 0
        case PageCap => said.Size() >= maxPages
        case Throttling => WasThrottled(said)
        case GraphError => p.failure.Some? || p.subFailed)
    && (p.failure.Some? ==> Showed(said, p.failure.value))
    && (p.subFailed ==> SubRequestFailed(said))
  }

  lemma JustifiedLater(
      p: Progress, said: Log, left: nat, overdue: bool, maxPages: nat, more: Log, left': nat, overdue': bool)
    requires Justified(p, said, left, overdue, maxPages) && left' <= left && (overdue ==> overdue')
    ensures Justified(p, said.Then(more), left', overdue', maxPages)
  {
    SizeOfBoth(said, more);
    FailuresOfBoth(said, more);
    if p.failure.Some? {
      ShowedByBoth(said, more, p.failure.value);
    }
  }

  /** The last exchange showed an error. */
  lemma ErrorJustifies(p: Progress, said: Log, e: AppError, left: nat, overdue: bool, maxPages: nat)
    requires Justified(p, said, left, overdue, maxPages) && said.LastError() == Some(e)
    ensures Justified(StoppedBy(p, e), said, left, overdue, maxPages)
  {
  }

  /** A nextLink of another origin is an error, shown by the page that has it. */
  lemma OffOriginJustifies(p: Progress, c: Continuation, acc: Account, left: nat, overdue: bool, maxPages: nat)
    requires Justified(p, acc.said, left, overdue, maxPages) && PutBy(c, acc) && c.next.OffOriginLink?
    ensures Justified(StoppedBy(p, OffOrigin), acc.said, left, overdue, maxPages)
  {
    OffOriginShows(acc.said, c.list.id);
  }

  /** How a walk of a long list ends: nothing is fetched once something stopped the
      call; otherwise by an error, at its last page, or cut short for a reason. */
  ghost predicate WalkEnds(
    p: Progress, next: Progress, c: Continuation, walk: Log, left: nat, overdue: bool, maxPages: nat)
  {
    && next.subFailed == p.subFailed
    && if !p.stopped.Complete? then
         walk == Silence && next.stopped == p.stopped && next.failure == p.failure
       else if c.next.OffOriginLink? then
         walk == Silence && next.stopped.GraphError? && next.failure == Some(OffOrigin)
       else if walk.LastError().Some? then
         var after := StoppedBy(p, walk.LastError().value);
         next.stopped == after.stopped && next.failure == after.failure
       else
         && next.failure == p.failure
         && if Ended(walk, c.list.id) then next.stopped.Complete?
            else CutShort(next.stopped, walk.Size(), left, overdue, maxPages)
  }

  predicate CutShort(why: Stopped, pages: nat, left: nat, overdue: bool, maxPages: nat) {
    || (why.SyncTimeout? && overdue)
    || (why.RequestBudget? && left == 0)
    || (why.PageCap? && pages >= maxPages)
  }

  /** How reading lists one at a time ends: with an error, by the deadline, or with
      something held for each. */
  ghost predicate ReadsEnd(p: Progress, next: Progress, more: Log, ids: seq<string>, overdue: bool) {
    if more.LastError().Some? then
      var after := StoppedBy(p, more.LastError().value);
      next.stopped == after.stopped && next.failure == after.failure
    else
      && next.failure == p.failure
      && ((next.stopped.SyncTimeout? && overdue)
          || (next.stopped == p.stopped && forall i | 0 <= i < |ids| :: ids[i] in next.known))
  }

  // -------------------------------------------------------------------------
  // Calm runs

  ghost predicate StartsWell(c: Continuation, mailbox: Mailbox) {
    && HasPage(mailbox, c.list.id, 1)
    && c.next == Next(c.list.id, 1)
    && c.tasks == mailbox[c.list.id][0]
  }

  /** In a calm run: what was walked to its end is the mailbox's own, and a
      continuation holds its list's first page. */
  ghost predicate Faithful(p: Progress, acc: Account, mailbox: Mailbox) {
    && p.failure.None?
    && (forall id | acc.Walked(id) :: id in mailbox && Gathered(acc.said, id) == Flat(mailbox[id]))
    && (forall i | 0 <= i < |p.continuations| :: StartsWell(p.continuations[i], mailbox))
  }

  /** And what is done is complete in the cache. */
  ghost predicate Cached(acc: Account, tasks: map<string, Cache.ListTasks>) {
    forall id | acc.Finished(id) :: id in tasks && tasks[id].complete
  }

  lemma HeardIsFaithful(p: Progress, acc: Account, more: Log, id: string, mailbox: Mailbox)
    requires Faithful(p, acc, mailbox) && OnlyFor(more, id) && !acc.Finished(id)
    requires Ended(more, id) ==>
               id in mailbox && Gathered(acc.said, id) + Gathered(more, id) == Flat(mailbox[id])
    ensures Faithful(p, acc.Hear(more), mailbox)
  {
    HeardOfOne(acc, more, id);
    forall x | acc.Hear(more).Walked(x)
      ensures x in mailbox && Gathered(acc.said.Then(more), x) == Flat(mailbox[x])
    {
      if x != id {
        assert Unmoved(acc, acc.Hear(more), x) && acc.Walked(x);
      }
    }
  }

  /** An entry was stored, and no other was evicted for it. */
  ghost predicate Stores(m: map<string, Cache.ListTasks>, m': map<string, Cache.ListTasks>, id: string, complete: bool) {
    && (forall x | x in m && x != id :: x in m' && m'[x] == m[x])
    && id in m' && m'[id].complete == complete
  }

  lemma KeptIsCached(
      acc: Account, more: Log, id: string, complete: bool,
      m: map<string, Cache.ListTasks>, m': map<string, Cache.ListTasks>)
    requires Cached(acc, m) && Stores(m, m', id, complete) && OnlyFor(more, id) && !acc.Finished(id)
    requires complete <==> Ended(more, id)
    ensures Cached(acc.Hear(more), m')
  {
    HeardOfOne(acc, more, id);
    forall x | acc.Hear(more).Finished(x)
      ensures x in m' && m'[x].complete
    {
      if x != id {
        assert Unmoved(acc, acc.Hear(more), x) && acc.Finished(x);
      }
    }
  }

  lemma HeardIsCached(acc: Account, more: Log, id: string, m: map<string, Cache.ListTasks>)
    requires Cached(acc, m) && OnlyFor(more, id) && !acc.Finished(id) && !Ended(more, id)
    ensures Cached(acc.Hear(more), m)
  {
    HeardOfOne(acc, more, id);
    forall x | acc.Hear(more).Finished(x)
      ensures x in m && m[x].complete
    {
      if x != id {
        assert Unmoved(acc, acc.Hear(more), x);
      }
      assert acc.Finished(x);
    }
  }
}
