/**
 * The bounded sync: batched first pages, then the rest of each long list, into the
 * cache and into what this call holds. Other callers may change the cache at any
 * moment it is not locked.
 */
module Sync {
  import opened Wrappers
  import opened Models
  import opened Truncation
  import opened Retry
  import opened Exchanges
  import opened Paging
  import opened SyncCoverage
  import opened Priority
  import opened SyncAccount
  import Cache
  import Coherence

  const BATCH_MAX := 20

  /** What another caller may do to the cache between two locked sections. */
  datatype CacheOp =
    | Invalidate(list: string)
    | Fill(act: Coherence.Action)
    | Put(list: string, tasks: seq<Task>, complete: bool, now: int)
    | PutLists(lists: seq<TaskList>, now: int)
    | ForgetLists
    | NewAccount

  /** The list's entry is the new one; of the others some may be gone, none changed. */
  ghost predicate Replaces(
    m: map<string, Cache.ListTasks>, m': map<string, Cache.ListTasks>, id: string, kept: seq<Task>, complete: bool)
  {
    && id in m' && m'[id].tasks == Truncated(kept) && m'[id].complete == complete
    && forall x | x in m' && x != id :: x in m && m'[x] == m[x]
  }

  function IdSet(lists: seq<TaskList>): set<string> {
    set l | l in lists :: l.id
  }

  lemma {:induction false} IdSetSize(lists: seq<TaskList>)
    requires Distinct(IdsOf(lists))
    ensures |IdSet(lists)| == |lists|
  {
    if lists != [] {
      var rest, last := lists[..|lists| - 1], lists[|lists| - 1];
      assert forall i | 0 <= i < |rest| :: IdsOf(lists)[i] == IdsOf(rest)[i];
      IdSetSize(rest);
      assert forall i | 0 <= i < |rest| :: IdsOf(lists)[i] != IdsOf(lists)[|rest|];
      assert last.id !in IdSet(rest);
      assert IdSet(lists) == IdSet(rest) + {last.id};
    }
  }

  /** The lists whose entry is complete, fresh or not. */
  function CompleteIn(lists: seq<TaskList>, tasks: map<string, Cache.ListTasks>): set<string> {
    set l | l in lists && l.id in tasks && tasks[l.id].complete :: l.id
  }

  /** A list is done on entry exactly if it is not queued. */
  lemma QueuedOrDone(lists: seq<TaskList>, known: Known, ordered: seq<TaskList>, acc: Account, l: TaskList)
    requires Distinct(IdsOf(lists)) && l in lists && acc == Account(IdSet(lists), known, acc.plan, acc.start, Silence)
    requires forall l :: l in ordered <==> l in lists && !IsDone(known, l)
    ensures acc.Finished(l.id) <==> l !in ordered
    ensures l in ordered <==> l.id in IdsOf(ordered)
  {
    if l.id in IdsOf(ordered) {
      var i :| 0 <= i < |ordered| && IdsOf(ordered)[i] == l.id;
      assert ordered[i] in ordered;
      var a :| 0 <= a < |lists| && lists[a] == ordered[i];
      var b :| 0 <= b < |lists| && lists[b] == l;
      assert IdsOf(lists)[a] == IdsOf(lists)[b];
    }
    if l in ordered {
      var i :| 0 <= i < |ordered| && ordered[i] == l;
      assert IdsOf(ordered)[i] == l.id;
    }
  }

  lemma NothingHeard(known: Known, acc: Account, id: string)
    requires acc.said == Silence && acc.ready == known
    ensures id in acc.all ==> Knows(known, acc, id)
    ensures Gathered(acc.said, id) == []
    ensures Open(known, acc, id) <==> id in acc.all && !acc.Finished(id)
  {
  }

  /** Where a call starts: what is stale is queued, and nothing is heard yet. */
  lemma BeginsAccounted(lists: seq<TaskList>, known: Known, ordered: seq<TaskList>, plan: seq<string>, start: Log)
    requires Distinct(IdsOf(lists)) && Distinct(IdsOf(ordered))
    requires forall l :: l in ordered <==> l in lists && !IsDone(known, l)
    ensures var p, acc := Begin(known), Account(IdSet(lists), known, plan, start, Silence);
            Accounted(p, IdsOf(ordered), acc) && Covered(p, IdsOf(ordered), acc)
  {
    var acc, queue := Account(IdSet(lists), known, plan, start, Silence), IdsOf(ordered);
    forall i | 0 <= i < |queue|
      ensures Open(known, acc, queue[i]) && Gathered(acc.said, queue[i]) == []
    {
      assert ordered[i] in ordered && ordered[i] in lists;
      QueuedOrDone(lists, known, ordered, acc, ordered[i]);
      NothingHeard(known, acc, queue[i]);
    }
    forall id | id in acc.all
      ensures Knows(known, acc, id) && (acc.Finished(id) || id in queue)
    {
      NothingHeard(known, acc, id);
      var l :| l in lists && l.id == id;
      QueuedOrDone(lists, known, ordered, acc, l);
    }
    NothingPutBy(known, queue, acc);
  }

  lemma NothingPutBy(known: Known, queue: seq<string>, acc: Account)
    requires Distinct(queue) && forall i | 0 <= i < |queue| :: Open(known, acc, queue[i]) && Gathered(acc.said, queue[i]) == []
    requires forall id | id in acc.all :: Knows(known, acc, id) && (acc.Finished(id) || id in queue)
    ensures Accounted(Begin(known), queue, acc) && Covered(Begin(known), queue, acc)
  {
    assert ContinuationIds([]) + queue == queue;
  }

  /** Nothing is queued exactly if everything is at hand. */
  lemma NothingQueued(lists: seq<TaskList>, known: Known, ordered: seq<TaskList>, acc: Account)
    requires Distinct(IdsOf(lists)) && acc == Account(IdSet(lists), known, acc.plan, acc.start, Silence)
    requires forall l :: l in ordered <==> l in lists && !IsDone(known, l)
    ensures ordered == [] <==> forall i | 0 <= i < |lists| :: acc.OnEntry(lists[i].id)
  {
    forall l | l in lists
      ensures acc.OnEntry(l.id) <==> l !in ordered
    {
      QueuedOrDone(lists, known, ordered, acc, l);
    }
    assert forall i | 0 <= i < |lists| :: lists[i] in lists;
    if ordered != [] {
      assert ordered[0] in ordered;
    }
  }

  lemma {:induction false} NoneComplete(snapshots: seq<Snapshot>)
    requires forall s | s in snapshots :: s.complete ==> s.present
    ensures Named(snapshots, true, true) == [] <==> forall s | s in snapshots :: !s.complete
  {
    if snapshots != [] {
      var rest, last := snapshots[..|snapshots| - 1], snapshots[|snapshots| - 1];
      assert snapshots == rest + [last];
      assert last in snapshots;
      NoneComplete(rest);
    }
  }

  lemma Larger(a: set<string>, b: set<string>)
    requires a <= b
    ensures |a| <= |b| && (a != b ==> |a| < |b|)
  {
    assert b == a + (b - a);
    if a != b {
      var x :| x in b - a;
      assert |b - a| > 0;
    }
  }

  /** A result that shows what is held, counts it, and says why it is not complete. */
  ghost predicate Reports(lists: seq<TaskList>, o: SyncOutcome, p: Progress) {
    && |o.snapshots| == |lists| == o.coverage.total
    && (forall i | 0 <= i < |lists| :: o.snapshots[i] == Shown(lists[i], p.known))
    && Counts(o.coverage, o.snapshots)
    && o.coverage.stopped ==
         if o.coverage.partial == [] && o.coverage.missing == [] then Complete
         else if p.stopped.Complete? then RequestBudget
         else p.stopped
  }

  lemma {:induction false} NothingSeen(snapshots: seq<Snapshot>)
    ensures TasksIn(snapshots) == 0 <==> forall s | s in snapshots :: s.tasks == []
  {
    if snapshots != [] {
      var rest, last := snapshots[..|snapshots| - 1], snapshots[|snapshots| - 1];
      assert snapshots == rest + [last];
      assert last in snapshots;
      NothingSeen(rest);
    }
  }

  /** The lists held complete are those that are done. */
  lemma DoneIsShown(lists: seq<TaskList>, o: SyncOutcome, p: Progress, acc: Account)
    requires Reports(lists, o, p) && acc.all == IdSet(lists) && forall id | id in acc.all :: Knows(p.known, acc, id)
    ensures forall i | 0 <= i < |lists| :: o.snapshots[i].complete <==> acc.Finished(lists[i].id)
    ensures o.coverage.IsComplete() <==> acc.Done() == acc.all
  {
    EveryListIsCounted(o.coverage, o.snapshots);
    forall i | 0 <= i < |lists|
      ensures o.snapshots[i].complete <==> acc.Finished(lists[i].id)
    {
      assert lists[i] in lists && Knows(p.known, acc, lists[i].id);
    }
    if acc.Done() == acc.all {
      forall i | 0 <= i < |lists|
        ensures o.snapshots[i].complete
      {
        assert lists[i] in lists && lists[i].id in acc.Done();
      }
    }
    if o.coverage.IsComplete() {
      forall id | id in acc.all
        ensures id in acc.Done()
      {
        var i :| 0 <= i < |lists| && lists[i].id == id;
      }
    }
  }

  /** Enough requests and pages for every first page and the rest of one list. */
  ghost predicate Roomy(lists: seq<TaskList>, left: nat, maxPages: nat, mailbox: Mailbox, longest: nat) {
    && 1 <= longest && Batches(|lists|) + longest - 1 <= Min(left, maxPages)
    && forall id | id in mailbox :: |mailbox[id]| <= longest
  }

  function Begin(known: Known): Progress {
    Progress(known, Complete, false, None, [])
  }

  function Batches(n: nat): nat {
    (n + BATCH_MAX - 1) / BATCH_MAX
  }

  lemma NothingToShow(lists: seq<TaskList>, o: SyncOutcome, p: Progress)
    requires Reports(lists, o, p) && Distinct(IdsOf(lists))
    ensures o.coverage.tasksSeen == 0 && o.coverage.complete == 0 <==>
              forall i | 0 <= i < |lists| && lists[i].id in p.known ::
                p.known[lists[i].id].tasks == [] && !p.known[lists[i].id].complete
  {
    NothingSeen(o.snapshots);
    NoneComplete(o.snapshots);
    assert forall i | 0 <= i < |lists| :: o.snapshots[i] in o.snapshots;
  }

  // -------------------------------------------------------------------------
  // Steps of a call

  lemma OneMoreShown(lists: seq<TaskList>, i: nat, look: Look, ttl: nat)
    requires i < |lists|
    ensures var known, id := look.Shows(IdSet(lists[..i]), ttl), lists[i].id;
            look.Shows(IdSet(lists[..i + 1]), ttl)
            == if look.Fresh(id, ttl) then known[id := Held(look.tasks[id].tasks, look.tasks[id].complete)] else known
  {
    var before, after := lists[..i], lists[..i + 1];
    assert after == before + [lists[i]];
    assert IdSet(after) == IdSet(before) + {lists[i].id};
  }

  /** A faithful answer is the list's first page. */
  lemma FirstPageIs(mailbox: Mailbox, id: string, response: Option<SubResponse>)
    requires FirstPages(mailbox, [id], [response])
    ensures HasPage(mailbox, id, 0) && FirstPage(response) == Some(PageAt(mailbox, id, 0))
    ensures PageAt(mailbox, id, 0).next.None? ==> PageAt(mailbox, id, 0).tasks == Flat(mailbox[id])
  {
    assert [id][0] == id && [response][0] == response;
    var first := mailbox[id][0];
    if |mailbox[id]| == 1 {
      assert Flat(mailbox[id]) == first + Flat(mailbox[id][1..]);
      assert first + [] == first;
    }
  }

  /** A sub-request failed: its list is neither held nor pending any more. */
  lemma FailureTaken(p: Progress, id: string, response: Option<SubResponse>, rest: seq<string>, acc: Account)
    requires Accounted(p, [id] + rest, acc) && Covered(p, [id] + rest, acc) && FirstPage(response).None?
    ensures var next, acc' := p.(subFailed := true), acc.Hear(Only(Batched(id, response)));
            Accounted(next, rest, acc') && Covered(next, rest, acc') && acc.LeadsTo(acc')
  {
    FirstOfQueue(p, id, rest, acc);
    ReadOfOne(acc.said, Batched(id, response), id);
    HeardOnly(p, rest, acc, Only(Batched(id, response)), id);
    SameAccount(p, p.(subFailed := true), rest, acc.Hear(Only(Batched(id, response))));
  }

  /** A first page with a nextLink: the list is put by. */
  lemma LongListTaken(p: Progress, c: Continuation, response: Option<SubResponse>, rest: seq<string>, acc: Account)
    requires Accounted(p, [c.list.id] + rest, acc) && Covered(p, [c.list.id] + rest, acc)
    requires FirstPage(response) == Some(Page(c.tasks, Some(c.next)))
    ensures var next, acc' := p.(continuations := p.continuations + [c]), acc.Hear(Only(Batched(c.list.id, response)));
            Accounted(next, rest, acc') && Covered(next, rest, acc') && acc.LeadsTo(acc')
  {
    var next := p.(continuations := p.continuations + [c]);
    PutByIsAccounted(p, rest, acc, c, response);
    assert ContinuationIds(next.continuations) == ContinuationIds(p.continuations) + [c.list.id];
    StillCovered(p, next, c.list.id, rest, acc, acc.Hear(Only(Batched(c.list.id, response))));
  }

  lemma LongListIsFaithful(
      p: Progress, c: Continuation, response: Option<SubResponse>, rest: seq<string>, acc: Account, mailbox: Mailbox)
    requires Accounted(p, [c.list.id] + rest, acc) && Faithful(p, acc, mailbox)
    requires FirstPage(response) == Some(Page(c.tasks, Some(c.next)))
    requires FirstPages(mailbox, [c.list.id], [response])
    ensures var next, acc' := p.(continuations := p.continuations + [c]), acc.Hear(Only(Batched(c.list.id, response)));
            && Faithful(next, acc', mailbox)
            && forall m | Cached(acc, m) :: Cached(acc', m)
  {
    var id, more := c.list.id, Only(Batched(c.list.id, response));
    FirstOfQueue(p, id, rest, acc);
    FirstPageIs(mailbox, id, response);
    ReadOfOne(acc.said, Batched(id, response), id);
    HeardIsFaithful(p, acc, more, id, mailbox);
    forall m | Cached(acc, m)
      ensures Cached(acc.Hear(more), m)
    {
      HeardIsCached(acc, more, id, m);
    }
  }

  /** One more of a batch's responses is taken. */
  lemma NextOfBatch(ids: seq<string>, responses: seq<Option<SubResponse>>, i: nat, rest: seq<string>, acc: Account)
    requires |responses| == |ids| && i < |ids|
    ensures ids[i..] + rest == [ids[i]] + (ids[i + 1..] + rest)
    ensures acc.Hear(Answers(ids[..i], responses[..i])).Hear(Only(Batched(ids[i], responses[i])))
            == acc.Hear(Answers(ids[..i + 1], responses[..i + 1]))
    ensures SubRequestFailed(Answers(ids[..i + 1], responses[..i + 1])) <==>
              SubRequestFailed(Answers(ids[..i], responses[..i])) || FirstPage(responses[i]).None?
  {
    NextAnswer(ids, responses, i);
    ReadOfOne(acc.said.Then(Answers(ids[..i], responses[..i])), Batched(ids[i], responses[i]), ids[i]);
  }

  /** The fallback so far: nothing stopped it, and something is held for each list. */
  ghost predicate ReadSoFar(p: Progress, next: Progress, more: Log, ids: seq<string>) {
    && p.stopped.Complete? && next.stopped.Complete? && next.failure == p.failure
    && more.LastError().None?
    && forall i | 0 <= i < |ids| :: ids[i] in next.known
  }

  lemma ReadsOn(
      p: Progress, before: Progress, next: Progress, more: Log, walk: Log,
      ids: seq<string>, id: string, overdue: bool)
    requires ReadSoFar(p, before, more, ids) && ReadsEnd(before, next, walk, [id], overdue)
    requires before.known.Keys <= next.known.Keys
    ensures ReadsEnd(p, next, more.Then(walk), ids + [id], overdue)
    ensures next.stopped.Complete? ==> ReadSoFar(p, next, more.Then(walk), ids + [id])
  {
    assert next.stopped.Complete? ==> [id][0] in next.known;
  }

  lemma ReadsStop(p: Progress, next: Progress, more: Log, some: seq<string>, ids: seq<string>, overdue: bool)
    requires ReadsEnd(p, next, more, some, overdue) && p.stopped.Complete? && !next.stopped.Complete?
    ensures ReadsEnd(p, next, more, ids, overdue)
  {
  }

  /** A list of the fallback was read, and kept. */
  lemma ReadKept(
      p: Progress, next: Progress, id: string, tasks: seq<Task>, complete: bool, rest: seq<string>, acc: Account,
      walk: Log, left: nat, overdue: bool, later: bool, maxPages: nat)
    requires Covered(p, [id] + rest, acc) && acc.LeadsTo(acc.Hear(walk)) && FellBack(acc.said)
    requires InTurn(acc, [id] + rest) && OnlyFor(walk, id)
    requires next == Kept(p, id, tasks, complete) && walk.LastError().None? && (overdue ==> later)
    requires Justified(p, acc.Hear(walk).said, left, overdue, maxPages)
    ensures Covered(next, rest, acc.Hear(walk)) && ReadsEnd(p, next, walk, [id], later)
    ensures InTurn(acc.Hear(walk), rest)
    ensures Justified(next, acc.Hear(walk).said, left, later, maxPages)
  {
    StillCovered(p, next, id, rest, acc, acc.Hear(walk));
    TurnTaken(acc, walk, id, rest);
    assert [id][0] in next.known;
  }

  /** A walk of the fallback failed. */
  lemma ReadFails(
      p: Progress, id: string, rest: seq<string>, acc: Account, walk: Log, e: AppError,
      left: nat, overdue: bool, maxPages: nat)
    requires Accounted(p, rest, acc) && Open(p.known, acc, id) && id !in ContinuationIds(p.continuations) + rest
    requires OnlyFor(walk, id) && !Ended(walk, id) && walk.LastError() == Some(e)
    requires Justified(p, acc.said.Then(walk), left, overdue, maxPages) && InTurn(acc, [id] + rest)
    ensures var next := StoppedBy(p, e);
            && Accounted(next, [], acc.Hear(walk)) && Covered(next, [], acc.Hear(walk))
            && Justified(next, acc.said.Then(walk), left, overdue, maxPages)
    ensures acc.LeadsTo(acc.Hear(walk)) && InTurn(acc.Hear(walk), [])
  {
    TurnTaken(acc, walk, id, rest);
    TurnGivenUp(acc.Hear(walk), rest, 0);
    HeardOnly(p, rest, acc, walk, id);
    assert [] + rest == rest;
    FewerAreAccounted(p, [], rest, acc.Hear(walk));
    SameAccount(p, StoppedBy(p, e), [], acc.Hear(walk));
    ErrorJustifies(p, acc.said.Then(walk), e, left, overdue, maxPages);
  }

  /** How one batch ends: answered, its failures only noted; refused with a 4xx, and
      read one list at a time instead; or stopped by its error. */
  ghost predicate BatchEnds(
    p: Progress, next: Progress, pending: seq<TaskList>, rest: seq<TaskList>,
    answered: Result<seq<Option<SubResponse>>, AppError>, further: Log, overdue: bool)
  {
    var k := Min(|pending|, BATCH_MAX);
    match answered
    case Ok(_) => rest == pending[k..] && further == Silence && next.stopped == p.stopped && next.failure == p.failure
    case Err(e) =>
      if e.Graph? && 400 <= e.status < 500
      then rest == [] && ReadsEnd(p, next, further, IdsOf(pending), overdue)
      else rest == pending[k..] && further == Silence && next == StoppedBy(p, e)
  }

  /** What one batch adds to the log. */
  function Asked(
    pending: seq<TaskList>, answered: Result<seq<Option<SubResponse>>, AppError>, further: Log): Log
    requires answered.Ok? ==> |answered.value| == Min(|pending|, BATCH_MAX)
  {
    match answered
    case Ok(responses) => Answers(IdsOf(pending[..Min(|pending|, BATCH_MAX)]), responses).Then(further)
    case Err(e) => Only(BatchFailed(e)).Then(further)
  }

  lemma BatchJustifies(
      p: Progress, next: Progress, ids: seq<string>, responses: seq<Option<SubResponse>>, said: Log,
      left: nat, overdue: bool, later: bool, maxPages: nat)
    requires |responses| == |ids| && Justified(p, said.Then(Answers(ids, responses)), left, overdue, maxPages)
    requires next.stopped == p.stopped && next.failure == p.failure && p.stopped.Complete? && (overdue ==> later)
    requires next.subFailed <==> p.subFailed || SubRequestFailed(Answers(ids, responses))
    ensures Justified(next, said.Then(Answers(ids, responses)), left, later, maxPages)
  {
    FailuresOfBoth(said, Answers(ids, responses));
  }

  lemma BatchFails(p: Progress, queue: seq<string>, acc: Account, error: AppError)
    requires Accounted(p, queue, acc) && Covered(p, queue, acc)
    ensures var acc' := acc.Hear(Only(BatchFailed(error)));
            && Accounted(p, queue, acc') && Covered(p, queue, acc')
            && acc.LeadsTo(acc') && FellBack(acc'.said) && acc'.said.LastError() == Some(error)
  {
    var acc' := acc.Hear(Only(BatchFailed(error)));
    ReadOfOne(acc.said, BatchFailed(error), "");
    FailedIsAccounted(p, queue, acc, error);
    if p.stopped.Complete? && !p.subFailed {
      CoveredMeans(p, queue, acc);
      assert forall id | acc.Finished(id) :: acc'.Finished(id);
    }
  }

  /** Something stopped the call: of the queue, the lists not asked for are left. */
  lemma TailAccounted(p: Progress, next: Progress, pending: seq<TaskList>, acc: Account)
    requires Accounted(p, IdsOf(pending), acc) && !next.stopped.Complete?
    requires next.known == p.known && next.continuations == p.continuations
    ensures var rest := IdsOf(pending[Min(|pending|, BATCH_MAX)..]); Accounted(next, rest, acc) && Covered(next, rest, acc)
  {
    var k := Min(|pending|, BATCH_MAX);
    assert IdsOf(pending) == IdsOf(pending[..k]) + IdsOf(pending[k..]);
    FewerAreAccounted(p, IdsOf(pending[..k]), IdsOf(pending[k..]), acc);
    SameAccount(p, next, IdsOf(pending[k..]), acc);
  }

  /** Something stopped the call: the queue is given up. */
  lemma StopsAccounted(p: Progress, next: Progress, queue: seq<string>, acc: Account)
    requires Accounted(p, queue, acc) && InTurn(acc, queue) && !next.stopped.Complete?
    requires next.known == p.known && next.continuations == p.continuations
    ensures Accounted(next, [], acc) && Covered(next, [], acc) && InTurn(acc, []) && IdsOf([]) == []
  {
    TurnGivenUp(acc, queue, 0);
    assert queue + [] == queue && IdsOf([]) == [];
    FewerAreAccounted(p, queue, [], acc);
    SameAccount(p, next, [], acc);
  }

  /** The batch loop of a calm run with a request for every batch: each takes one, and
      nothing stops it; `n` lists were pending, `k` are. */
  ghost predicate OnCourse(p: Progress, acc: Account, n: nat, k: nat, had: nat, left: nat) {
    Batches(n) <= had ==>
      && p.stopped.Complete? && !p.subFailed && left == had - Batches(n) + Batches(k)
      && (k < n ==> acc.Further() || p.continuations != [])
  }

  lemma OneBatchLess(
      p: Progress, acc: Account, next: Progress, acc': Account, n: nat, k: nat, k': nat, had: nat, left: nat, left': nat)
    requires OnCourse(p, acc, n, k, had, left) && 0 < k <= n
    requires left > 0 ==>
               && left' + 1 == left && k' == Max(k - BATCH_MAX, 0)
               && next.stopped.Complete? && (next.subFailed ==> p.subFailed)
               && (acc'.Further() || next.continuations != [])
    ensures OnCourse(next, acc', n, k', had, left')
  {
  }

  lemma MayFollow(c: Continuation, acc: Account)
    requires PutBy(c, acc)
    ensures Follows(acc.WholeLog(), c.list.id, c.next)
  {
    ReadOfBoth(acc.start, acc.said, c.list.id);
  }

  /** What a walk's end does: `why` it was cut short, if it was, or its error. */
  function AfterWalk(p: Progress, walked: Result<(seq<Task>, bool), AppError>, why: Stopped): Progress {
    match walked
    case Ok((_, whole)) => if whole then p else p.(stopped := why)
    case Err(e) => StoppedBy(p, e)
  }

  /** What is held of a long list after its walk; a walk that failed brought nothing. */
  function WalkedTasks(c: Continuation, walked: Result<(seq<Task>, bool), AppError>): (seq<Task>, bool) {
    match walked
    case Ok((more, whole)) => (c.tasks + more, whole)
    case Err(_) => (c.tasks, false)
  }

  ghost predicate WalkTells(c: Continuation, walk: Log, walked: Result<(seq<Task>, bool), AppError>) {
    if c.next.OffOriginLink? then walk == Silence && walked == Err(OffOrigin) else Tells(walk, c.list.id, walked)
  }

  /** A continuation that was taken up; the others are accounted for. */
  ghost predicate Resumable(p: Progress, c: Continuation, acc: Account) {
    && Accounted(p, [], acc) && Open(p.known, acc, c.list.id) && PutBy(c, acc)
    && c.list.id !in ContinuationIds(p.continuations) + []
  }

  /** What a continuation's walk came to may be kept. */
  ghost predicate Keepable(p: Progress, c: Continuation, acc: Account, walk: Log, tasks: seq<Task>, complete: bool) {
    && Resumable(p, c, acc)
    && OnlyFor(walk, c.list.id) && (complete <==> Ended(walk, c.list.id))
    && tasks <= c.tasks + Gathered(walk, c.list.id)
    && (complete ==> tasks == c.tasks + Gathered(walk, c.list.id))
  }

  lemma WalkJudged(
      p: Progress, c: Continuation, acc: Account, walk: Log, walked: Result<(seq<Task>, bool), AppError>, why: Stopped,
      left: nat, overdue: bool, maxPages: nat)
    requires PutBy(c, acc) && p.stopped.Complete? && Justified(p, acc.said.Then(walk), left, overdue, maxPages)
    requires WalkTells(c, walk, walked)
    requires walked.Ok? && !walked.value.1 ==> CutShort(why, walk.Size(), left, overdue, maxPages)
    ensures var next := AfterWalk(p, walked, why);
            && Justified(next, acc.said.Then(walk), left, overdue, maxPages)
            && WalkEnds(p, next, c, walk, left, overdue, maxPages)
  {
    SizeOfBoth(acc.said, walk);
    if walked.Err? {
      if walk == Silence {
        OffOriginJustifies(p, c, acc, left, overdue, maxPages);
      } else {
        ErrorJustifies(p, acc.said.Then(walk), walked.error, left, overdue, maxPages);
      }
    }
  }

  /** And it may be kept. */
  lemma WalkMayBeKept(
      p: Progress, next: Progress, c: Continuation, acc: Account, walk: Log, walked: Result<(seq<Task>, bool), AppError>)
    requires Resumable(p, c, acc) && WalkTells(c, walk, walked)
    requires next.known == p.known && next.continuations == p.continuations
    ensures Keepable(next, c, acc, walk, WalkedTasks(c, walked).0, WalkedTasks(c, walked).1)
  {
    SameAccount(p, next, [], acc);
  }

  /** A continuation was taken up, walked and kept. */
  lemma Continued(
      p: Progress, walked: Progress, next: Progress, acc: Account, walk: Log, tasks: seq<Task>, complete: bool,
      left: nat, overdue: bool, later: bool, maxPages: nat)
    requires p.continuations != [] && Covered(p, [], acc) && (overdue ==> later)
    requires walked.known == p.known && walked.continuations == p.continuations[1..]
    requires WalkEnds(p.(continuations := p.continuations[1..]), walked, p.continuations[0], walk, left, overdue, maxPages)
    requires Keepable(walked, p.continuations[0], acc, walk, tasks, complete)
    requires next == Kept(walked, p.continuations[0].list.id, tasks, complete)
    requires Justified(walked, acc.said.Then(walk), left, overdue, maxPages)
    ensures Covered(next, [], acc.Hear(walk))
    ensures WalkEnds(p, next, p.continuations[0], walk, left, later, maxPages)
    ensures Justified(next, acc.Hear(walk).said, left, later, maxPages)
    ensures complete ==> acc.Hear(walk).Walked(p.continuations[0].list.id)
  {
    HeardOfOne(acc, walk, p.continuations[0].list.id);
    WalkedIsCovered(p, next, acc, acc.Hear(walk));
  }

  /** There is room for the rest of a list. */
  predicate HasRoom(c: Continuation, mailbox: Mailbox, left: nat, maxPages: nat) {
    c.list.id in mailbox && |mailbox[c.list.id]| - 1 <= Min(left, maxPages)
  }

  /** A calm walk from a list's second page: its tasks, if there was room for them. */
  lemma WalkedCalmly(
      g: Graph, c: Continuation, walked: Result<(seq<Task>, bool), AppError>, left: nat, maxPages: nat)
    requires StartsWell(c, g.mailbox) && g.Fetched(c.next, walked, left, maxPages)
    ensures var (tasks, complete) := WalkedTasks(c, walked);
            && (complete ==> tasks == Flat(g.mailbox[c.list.id]))
            && (HasRoom(c, g.mailbox, left, maxPages) ==> complete)
  {
    var pages := g.mailbox[c.list.id];
    assert Flat(pages) == pages[0] + Flat(pages[1..]);
  }

  /** If nothing expires, what is fresh and complete is what is complete. */
  lemma AllFreshInCalm(lists: seq<TaskList>, acc: Account, look: Look, ttl: nat)
    requires acc.all == IdSet(lists) && acc.ready == look.Shows(IdSet(lists), ttl) && acc.said == Silence
    requires forall i | 0 <= i < |lists| && lists[i].id in look.tasks :: lists[i].id in acc.ready
    ensures acc.Entry() == CompleteIn(lists, look.tasks) && Cached(acc, look.tasks)
  {
    forall l | l in lists && l.id in look.tasks
      ensures l.id in acc.ready
    {
      var i :| 0 <= i < |lists| && lists[i] == l;
    }
  }

  lemma RoomForOne(lists: seq<TaskList>, n: nat, left: nat, maxPages: nat, mailbox: Mailbox)
    requires n <= |lists|
    ensures (exists longest :: Roomy(lists, left, maxPages, mailbox, longest)) ==>
              Batches(n) <= left && forall id | id in mailbox :: |mailbox[id]| - 1 <= Min(left - Batches(n), maxPages)
  {
  }

  lemma RoomForFirst(c: Continuation, n: nat, had: nat, left: nat, maxPages: nat, mailbox: Mailbox)
    requires StartsWell(c, mailbox) && Batches(n) <= had && left >= had - Batches(n)
    requires forall id | id in mailbox :: |mailbox[id]| - 1 <= Min(had - Batches(n), maxPages)
    ensures HasRoom(c, mailbox, left, maxPages)
  {
  }

  lemma AllOnEntry(lists: seq<TaskList>, acc: Account)
    requires acc.all == IdSet(lists)
    ensures acc.Entry() == acc.all <==> forall i | 0 <= i < |lists| :: acc.OnEntry(lists[i].id)
  {
    if acc.Entry() == acc.all {
      forall i | 0 <= i < |lists|
        ensures acc.OnEntry(lists[i].id)
      {
        assert lists[i] in lists && lists[i].id in acc.Entry();
      }
    }
    if forall i | 0 <= i < |lists| :: acc.OnEntry(lists[i].id) {
      forall id | id in acc.all
        ensures id in acc.Entry()
      {
        var i :| 0 <= i < |lists| && lists[i].id == id;
      }
    }
  }

  /** What a call comes to. One snapshot a list, reported complete exactly if it was
      complete and fresh at the call's look or was walked to its end, whatever was
      evicted since; what is held for a list is that fresh entry, or what Graph
      answered. A hard failure is an error only if nothing is done. If everything was
      at hand, nothing was asked. */
  ghost predicate Concluded(lists: seq<TaskList>, r: Result<SyncOutcome, AppError>, p: Progress, acc: Account) {
    && acc.all == IdSet(lists)
    && (r.Ok? ==>
          && Reports(lists, r.value, p)
          && forall i | 0 <= i < |lists| :: r.value.snapshots[i].complete <==> acc.Finished(lists[i].id))
    && (r.Err? ==> acc.Done() == {} && p.failure == Some(r.error))
    && Accounted(p, [], acc) && Covered(p, [], acc)
    && p.continuations == [] && (p.stopped.Complete? ==> !p.subFailed)
    && (acc.Entry() == acc.all ==> acc.said == Silence)
  }

  /** And a calm one: what was walked is the mailbox's own, and the cache, if it keeps
      anything, has what is done. */
  ghost predicate CalmlyConcluded(
    lists: seq<TaskList>, r: Result<SyncOutcome, AppError>, acc: Account, mailbox: Mailbox,
    tasks: map<string, Cache.ListTasks>, ttl: nat)
  {
    && r.Ok? && |r.value.snapshots| == |lists|
    && (forall i | 0 <= i < |lists| && acc.Walked(lists[i].id) ::
          lists[i].id in mailbox && r.value.snapshots[i].tasks == Truncated(Flat(mailbox[lists[i].id])))
    && (ttl > 0 ==> acc.Done() <= CompleteIn(lists, tasks))
  }

  lemma SyncConcludes(lists: seq<TaskList>, r: Result<SyncOutcome, AppError>, p: Progress, acc: Account)
    requires acc.all == IdSet(lists) && Accounted(p, [], acc) && Covered(p, [], acc)
    requires p.continuations == [] && (p.stopped.Complete? ==> !p.subFailed)
    requires (forall i | 0 <= i < |lists| :: acc.OnEntry(lists[i].id)) ==> acc.said == Silence
    requires r.Ok? ==> Reports(lists, r.value, p)
    requires r.Err? ==>
               && p.failure == Some(r.error)
               && forall i | 0 <= i < |lists| && lists[i].id in p.known :: !p.known[lists[i].id].complete
    ensures Concluded(lists, r, p, acc)
  {
    AllOnEntry(lists, acc);
    AccountedMeans(p, [], acc);
    if r.Ok? {
      DoneIsShown(lists, r.value, p, acc);
    } else {
      forall id | id in acc.all
        ensures !acc.Finished(id)
      {
        var i :| 0 <= i < |lists| && lists[i].id == id;
        assert Knows(p.known, acc, id);
      }
    }
  }

  lemma CalmConcludes(
      lists: seq<TaskList>, r: Result<SyncOutcome, AppError>, p: Progress, acc: Account, mailbox: Mailbox,
      tasks: map<string, Cache.ListTasks>, ttl: nat)
    requires Concluded(lists, r, p, acc) && Faithful(p, acc, mailbox) && (ttl > 0 ==> Cached(acc, tasks))
    ensures CalmlyConcluded(lists, r, acc, mailbox, tasks, ttl)
  {
    AccountedMeans(p, [], acc);
    forall i | 0 <= i < |lists| && acc.Walked(lists[i].id)
      ensures lists[i].id in mailbox && r.value.snapshots[i].tasks == Truncated(Flat(mailbox[lists[i].id]))
    {
      assert Knows(p.known, acc, lists[i].id);
    }
  }

  /** A call that finds everything at hand. */
  lemma AllAtHand(lists: seq<TaskList>, known: Known, acc: Account, o: SyncOutcome)
    requires Distinct(IdsOf(lists)) && acc == Account(IdSet(lists), known, acc.plan, acc.start, Silence)
    requires forall i | 0 <= i < |lists| :: IsDone(known, lists[i])
    requires Reports(lists, o, Begin(known))
    ensures Concluded(lists, Ok(o), Begin(known), acc) && acc.Entry() == acc.Done() == acc.all
  {
    forall l | l in lists
      ensures IsDone(known, l)
    {
      var i :| 0 <= i < |lists| && lists[i] == l;
    }
    BeginsAccounted(lists, known, [], acc.plan, acc.start);
    assert IdsOf([]) == [];
    assert forall i | 0 <= i < |lists| :: lists[i] in lists;
    AllOnEntry(lists, acc);
  }

  /** The reason reported is the one the call stopped for, unless nothing is left to
      report. The fallback is the exception: a list it cut short is put down to the
      request budget, whatever cut it; still, none is missing then. */
  lemma ReasonReported(lists: seq<TaskList>, o: SyncOutcome, p: Progress, acc: Account)
    requires Concluded(lists, Ok(o), p, acc)
    ensures !FellBack(acc.said) && o.coverage.stopped != p.stopped ==> o.coverage.IsComplete()
    ensures o.coverage.stopped != p.stopped ==> o.coverage.missing == []
  {
    EveryListIsCounted(o.coverage, o.snapshots);
    AccountedMeans(p, [], acc);
    DoneIsShown(lists, o, p, acc);
    if p.stopped.Complete? {
      CoveredMeans(p, [], acc);
      forall i | 0 <= i < |lists|
        ensures o.snapshots[i].present && (!FellBack(acc.said) ==> o.snapshots[i].complete)
      {
        assert lists[i] in lists && lists[i].id in acc.all && Knows(p.known, acc, lists[i].id);
        assert ContinuationIds(p.continuations) + [] == [];
      }
    }
  }

  /** What a call shows of a list that it walked is every page Graph answered, in order
      and cut; of one that was at hand, the entry, for which nothing was asked; of any
      other, an entry that was fresh, or the first of what Graph answered. */
  lemma SnapshotsAreAnswers(lists: seq<TaskList>, o: SyncOutcome, p: Progress, acc: Account, i: nat)
    requires Concluded(lists, Ok(o), p, acc) && i < |lists|
    ensures var s, id := o.snapshots[i], lists[i].id;
            && (acc.Walked(id) ==> s.tasks == Truncated(Gathered(acc.said, id)))
            && (acc.OnEntry(id) ==> s.tasks == acc.ready[id].tasks && LastPage(acc.said, id).None?)
            && (s.present ==>
                  || (id in acc.ready && s.tasks == acc.ready[id].tasks)
                  || s.tasks <= Truncated(Gathered(acc.said, id)))
  {
    AccountedMeans(p, [], acc);
    HeldIsAnswer(p.known, acc, lists[i]) by {
      assert lists[i] in lists && Knows(p.known, acc, lists[i].id);
    }
  }

  lemma HeldIsAnswer(known: Known, acc: Account, l: TaskList)
    requires Knows(known, acc, l.id)
    ensures var s, id := Shown(l, known), l.id;
            && (acc.Walked(id) ==> s.tasks == Truncated(Gathered(acc.said, id)))
            && (acc.OnEntry(id) ==> s.tasks == acc.ready[id].tasks && LastPage(acc.said, id).None?)
            && (s.present ==>
                  || (id in acc.ready && s.tasks == acc.ready[id].tasks)
                  || s.tasks <= Truncated(Gathered(acc.said, id)))
  {
  }

  /** A list with no entry, or one as old as the time to live when the call looked, is
      never answered from the cache: what is shown of it came from Graph in this call, and
      it is complete exactly if it was walked to its end. */
  lemma OldIsNeverAnswered(
      lists: seq<TaskList>, look: Look, ttl: nat, o: SyncOutcome, p: Progress, acc: Account, i: nat)
    requires Concluded(lists, Ok(o), p, acc) && acc.ready == look.Shows(IdSet(lists), ttl) && i < |lists|
    requires lists[i].id in look.tasks ==> look.now >= look.tasks[lists[i].id].fetchedAt + ttl
    ensures var s, id := o.snapshots[i], lists[i].id;
            && (s.complete <==> acc.Walked(id))
            && (s.complete ==> s.tasks == Truncated(Gathered(acc.said, id)))
            && (s.present ==> s.tasks <= Truncated(Gathered(acc.said, id)))
  {
    var id := lists[i].id;
    if id in look.tasks {
      assert lists[i] in lists;
      OldIsNeverShown(look, IdSet(lists), id, ttl);
    }
    assert id !in acc.ready;
    SnapshotsAreAnswers(lists, o, p, acc, i);
  }

  lemma SameList(lists: seq<TaskList>, a: TaskList, b: TaskList)
    requires Distinct(IdsOf(lists)) && a in lists && b in lists && a.id == b.id
    ensures a == b
  {
    var i :| 0 <= i < |lists| && lists[i] == a;
    var j :| 0 <= j < |lists| && lists[j] == b;
    assert IdsOf(lists)[i] == IdsOf(lists)[j];
  }

  /** Whatever Graph answered first of two lists of a call, it was asked for first by rank
      and then by name: the default list before any other, flagged mail after all; and
      nothing that was at hand was asked for. */
  lemma AskedByRank(
      lists: seq<TaskList>, acc: Account, warm: set<string>, lower: string -> string, i: nat, j: nat,
      first: TaskList, second: TaskList)
    requires Distinct(IdsOf(lists)) && first in lists && second in lists
    requires InTurn(acc, []) && acc.plan == IdsOf(Prioritise(lists, acc.ready, warm, lower))
    requires i < j < |FirstHeard(acc.said)|
    requires FirstHeard(acc.said)[i] == first.id && FirstHeard(acc.said)[j] == second.id
    ensures second.wellknown == Some("defaultList") ==> first.wellknown == Some("defaultList")
    ensures first.wellknown == Some("flaggedEmails") ==> second.wellknown == Some("flaggedEmails")
    ensures !Before(RankedOf(second, warm, lower), RankedOf(first, warm, lower))
    ensures !IsDone(acc.ready, first) && !IsDone(acc.ready, second)
  {
    InTurnMeans(acc, []);
    var heard := FirstHeard(acc.said);
    assert heard + [] == heard;
    assert Precedes(acc.plan, heard[i], heard[j]);
    var ordered := Prioritise(lists, acc.ready, warm, lower);
    var k, l :| 0 <= k < l < |acc.plan| && acc.plan[k] == first.id && acc.plan[l] == second.id;
    PrioritisedLists(lists, acc.ready, warm, lower);
    assert ordered[k] in ordered && ordered[l] in ordered;
    SameList(lists, ordered[k], first);
    SameList(lists, ordered[l], second);
    WhoGoesFirst(lists, acc.ready, warm, lower, k, l);
  }

  lemma FurtherIsMore(p: Progress, acc: Account)
    requires Accounted(p, [], acc) && acc.Further()
    ensures acc.Entry() < acc.Done()
  {
    AccountedMeans(p, [], acc);
    var id :| acc.Walked(id);
    assert Knows(p.known, acc, id);
    assert id in acc.Done() && id !in acc.Entry();
  }

  /** The end of a call: a hard failure is an error exactly if there is nothing to
      show for the call; otherwise it is coverage. */
  method Conclude(lists: seq<TaskList>, p: Progress, ghost acc: Account) returns (r: Result<SyncOutcome, AppError>)
    requires Distinct(IdsOf(lists)) && acc.all == IdSet(lists) && Accounted(p, [], acc) && Covered(p, [], acc)
    requires p.continuations == [] && (p.stopped.Complete? ==> !p.subFailed)
    requires (forall i | 0 <= i < |lists| :: acc.OnEntry(lists[i].id)) ==> acc.said == Silence
    ensures Concluded(lists, r, p, acc)
    ensures r.Err? <==>
              && p.failure.Some?
              && forall i | 0 <= i < |lists| && lists[i].id in p.known ::
                   p.known[lists[i].id].tasks == [] && !p.known[lists[i].id].complete
  {
    var outcome := Report(lists, p.known, p.stopped);
    NothingToShow(lists, outcome, p);
    r := Ok(outcome);
    if p.failure.Some? && outcome.coverage.tasksSeen == 0 && outcome.coverage.complete == 0 {
      r := Err(p.failure.value);
    }
    SyncConcludes(lists, r, p, acc);
  }

  // -------------------------------------------------------------------------
  // What every step keeps

  ghost predicate CalmlyAt(
    k: int, p: Progress, acc: Account, mailbox: Mailbox, ttl: nat, tasks: map<string, Cache.ListTasks>)
  {
    Faithful(p, acc, mailbox) && (ttl > 0 ==> Cached(acc, tasks))
  }

  /** What a calm run keeps; what the cache holds matters if it holds anything. The
      quantifier only keeps the definition folded. */
  ghost predicate Calmly(
    p: Progress, acc: Account, calm: bool, mailbox: Mailbox, ttl: nat, tasks: map<string, Cache.ListTasks>)
  {
    calm ==> forall k :: CalmlyAt(k, p, acc, mailbox, ttl, tasks)
  }

  lemma CalmlyMeans(p: Progress, acc: Account, mailbox: Mailbox, ttl: nat, tasks: map<string, Cache.ListTasks>)
    requires Calmly(p, acc, true, mailbox, ttl, tasks)
    ensures Faithful(p, acc, mailbox) && (ttl > 0 ==> Cached(acc, tasks))
  {
    assert CalmlyAt(0, p, acc, mailbox, ttl, tasks);
  }

  /** A list put by keeps a run calm. */
  lemma LongListCalmly(
      p: Progress, c: Continuation, response: Option<SubResponse>, rest: seq<string>, acc: Account, mailbox: Mailbox,
      ttl: nat, tasks: map<string, Cache.ListTasks>)
    requires Accounted(p, [c.list.id] + rest, acc) && Calmly(p, acc, true, mailbox, ttl, tasks)
    requires FirstPage(response) == Some(Page(c.tasks, Some(c.next)))
    requires FirstPages(mailbox, [c.list.id], [response])
    ensures Calmly(
              p.(continuations := p.continuations + [c]), acc.Hear(Only(Batched(c.list.id, response))), true,
              mailbox, ttl, tasks)
  {
    CalmlyMeans(p, acc, mailbox, ttl, tasks);
    LongListIsFaithful(p, c, response, rest, acc, mailbox);
  }

  /** The first list put by, in a calm run. */
  lemma FirstCalm(
      p: Progress, acc: Account, calm: bool, mailbox: Mailbox, ttl: nat, tasks: map<string, Cache.ListTasks>)
    requires Calmly(p, acc, calm, mailbox, ttl, tasks) && p.continuations != []
    ensures Calmly(p.(continuations := p.continuations[1..]), acc, calm, mailbox, ttl, tasks)
    ensures calm ==> StartsWell(p.continuations[0], mailbox)
  {
    SameCalm(p, p.(continuations := p.continuations[1..]), acc, calm, mailbox, ttl, tasks);
    if calm {
      CalmlyMeans(p, acc, mailbox, ttl, tasks);
    }
  }

  /** What changes nothing that a calm run is about. */
  lemma SameCalm(
      p: Progress, next: Progress, acc: Account, calm: bool, mailbox: Mailbox, ttl: nat,
      tasks: map<string, Cache.ListTasks>)
    requires Calmly(p, acc, calm, mailbox, ttl, tasks)
    requires next.failure == p.failure
    requires forall c | c in next.continuations :: c in p.continuations
    ensures Calmly(next, acc, calm, mailbox, ttl, tasks)
  {
    if calm {
      CalmlyMeans(p, acc, mailbox, ttl, tasks);
      forall i | 0 <= i < |next.continuations|
        ensures StartsWell(next.continuations[i], mailbox)
      {
        assert next.continuations[i] in next.continuations;
        var j :| 0 <= j < |p.continuations| && p.continuations[j] == next.continuations[i];
      }
    }
  }

  function Set(ids: seq<string>): set<string> {
    set id | id in ids
  }

  /** A fill whose generation was read, with so much heard, and nothing asked yet. */
  ghost predicate Captured(f: Flight, id: string, generation: nat, log: Log) {
    && f.readAt == Some(log) && f.fill.Some?
    && f.fill.value == Coherence.Fill({id}, generation, f.fill.value.capturedAt, None, map[])
  }

  ghost predicate Begun(f: Flight, id: string, generation: nat, log: Log) {
    && f.readAt == Some(log) && f.fill.Some? && f.fill.value.began.Some?
    && f.fill.value == Coherence.Fill({id}, generation, f.fill.value.capturedAt, f.fill.value.began, map[])
  }

  /** A fill that stores under the generation there is now, what Graph answered since that
      was read. */
  ghost predicate MayStoreNow(f: Flight, id: string, tasks: seq<Task>, generation: nat, log: Log) {
    && f.fill.Some? && id in f.fill.value.lists && f.fill.value.began.Some?
    && Coherence.KeepUnder(f.fill.value, id) == generation
    && f.readAt.Some?
    && exists heard :: log == f.readAt.value.Then(heard) && Truncated(tasks) <= Truncated(Gathered(heard, id))
  }

  lemma MayStoreCut(f: Flight, id: string, tasks: seq<Task>, generation: nat, log: Log)
    requires f.fill.Some? && id in f.fill.value.lists && f.fill.value.began.Some?
    requires Coherence.KeepUnder(f.fill.value, id) == generation
    requires f.readAt.Some? && SyncAccount.Answered(log, f.readAt.value, id, tasks)
    ensures MayStoreNow(f, id, tasks, generation, log) && MayStoreNow(f, id, Truncated(tasks), generation, log)
  {
    var heard :| log == f.readAt.value.Then(heard) && tasks <= Gathered(heard, id);
    TruncatedTwice(tasks);
    assert Truncated(tasks) <= Truncated(Gathered(heard, id));
  }

  /** The generation was read again, for the walk of a list's further pages. */
  predicate WasReread(f: Flight, id: string) {
    f.fill.Some? && id in f.fill.value.reread
  }

  lemma StoredFlight(
      w: Coherence.World, w': Coherence.World, readAt: map<string, Log>, id: string, evicted: set<string>)
    requires Coherence.CanKeep(w, Coherence.Own(id), id) && w' == Coherence.Step(w, Coherence.Keep(Coherence.Own(id), id, evicted))
    ensures Elsewhere(w, readAt, w', readAt, {id})
    ensures var f, f' := FlightOf(w, readAt, id), FlightOf(w', readAt, id);
            f'.fill.Some? && f.fill.Some? && f'.fill.value.gen == f.fill.value.gen && f'.readAt == f.readAt
  {
  }

  lemma Storable(f: Flight, acc: Account, more: Log, unheard: Log, id: string, tasks: seq<Task>, generation: nat)
    requires Flies(f, acc, id, generation) && tasks <= Gathered(acc.said, id) + Gathered(more, id)
    ensures SyncAccount.Answered(acc.Hear(more).WholeLog().Then(unheard), f.readAt.value, id, tasks)
  {
    ReadOfBoth(acc.said, more, id);
    ReadBeforeStays(f.readAt.value, acc, more, id);
    AnsweredInCall(f.readAt.value, acc.Hear(more), unheard, id, tasks);
  }

  /** A response is heard of a list whose fill is under way. */
  lemma HeardInFlight(
      w: Coherence.World, readAt: map<string, Log>, p: Progress, id: string, response: Option<SubResponse>,
      rest: seq<string>, acc: Account, generation: nat)
    requires Accounted(p, [id] + rest, acc) && Airborne(w, readAt, acc, p.continuations)
    requires Flies(FlightOf(w, readAt, id), acc, id, generation)
    ensures var acc' := acc.Hear(Only(Batched(id, response)));
            Airborne(w, readAt, acc', p.continuations) && Flies(FlightOf(w, readAt, id), acc', id, generation)
  {
    var more := Only(Batched(id, response));
    FirstOfQueue(p, id, rest, acc);
    ReadOfOne(acc.said, Batched(id, response), id);
    StaysAirborne(w, readAt, w, readAt, acc, more, p.continuations, id);
    FliesOn(FlightOf(w, readAt, id), acc, more, id, generation);
  }

  ghost predicate InFlightAt(
    k: int, w: Coherence.World, readAt: map<string, Log>, acc: Account, ids: seq<string>, generation: nat)
  {
    forall i | 0 <= i < |ids| :: Flies(FlightOf(w, readAt, ids[i]), acc, ids[i], generation)
  }

  /** The fills of a batch are under way. */
  ghost predicate InFlight(w: Coherence.World, readAt: map<string, Log>, acc: Account, ids: seq<string>, generation: nat) {
    forall k :: InFlightAt(k, w, readAt, acc, ids, generation)
  }

  lemma FirstInFlight(
      w: Coherence.World, readAt: map<string, Log>, acc: Account, ids: seq<string>, generation: nat)
    requires InFlight(w, readAt, acc, ids, generation) && ids != []
    ensures Flies(FlightOf(w, readAt, ids[0]), acc, ids[0], generation)
  {
    assert InFlightAt(0, w, readAt, acc, ids, generation);
  }

  lemma RestInFlight(
      w: Coherence.World, readAt: map<string, Log>, w': Coherence.World, readAt': map<string, Log>,
      acc: Account, more: Log, ids: seq<string>, generation: nat)
    requires ids != [] && Distinct(ids) && InFlight(w, readAt, acc, ids, generation)
    requires Elsewhere(w, readAt, w', readAt', {ids[0]})
    ensures InFlight(w', readAt', acc.Hear(more), ids[1..], generation)
  {
    assert InFlightAt(0, w, readAt, acc, ids, generation);
    forall i | 0 <= i < |ids[1..]|
      ensures Flies(FlightOf(w', readAt', ids[1..][i]), acc.Hear(more), ids[1..][i], generation)
    {
      assert ids[1..][i] == ids[i + 1] && ids[i + 1] != ids[0];
      assert FlightOf(w', readAt', ids[i + 1]) == FlightOf(w, readAt, ids[i + 1]);
      FliesOn(FlightOf(w, readAt, ids[i + 1]), acc, more, ids[i + 1], generation);
    }
  }

  lemma QueueDistinct(p: Progress, ids: seq<string>, rest: seq<string>, acc: Account)
    requires Accounted(p, ids + rest, acc)
    ensures Distinct(ids) && forall i | 0 <= i < |ids| :: Gathered(acc.said, ids[i]) == []
    ensures forall i | 0 <= i < |p.continuations| :: p.continuations[i].list.id !in Set(ids)
  {
    AccountedMeans(p, ids + rest, acc);
    var conts := ContinuationIds(p.continuations);
    var all := conts + (ids + rest);
    assert forall i | 0 <= i < |ids| :: ids[i] == all[|conts| + i] && ids[i] == (ids + rest)[i];
    assert forall i | 0 <= i < |conts| :: conts[i] == all[i];
  }

  lemma BatchStarts(ids: seq<string>, responses: seq<Option<SubResponse>>, rest: seq<string>, acc: Account)
    requires |responses| == |ids|
    ensures ids[0..] == ids && acc.Hear(Answers(ids[..0], responses[..0])) == acc && acc.LeadsTo(acc)
  {
  }

  /** What a batch's later responses say. */
  lemma Unheard(ids: seq<string>, responses: seq<Option<SubResponse>>, i: nat, acc: Account) returns (unheard: Log)
    requires |responses| == |ids| && i < |ids|
    ensures acc.Hear(Answers(ids[..i], responses[..i])).Hear(Only(Batched(ids[i], responses[i]))).WholeLog().Then(unheard)
            == acc.Hear(Answers(ids, responses)).WholeLog()
  {
    unheard := LaterAnswers(ids, responses, i + 1);
    NextAnswer(ids, responses, i);
    var sofar := Answers(ids[..i + 1], responses[..i + 1]);
    ReadOfOne(acc.said.Then(Answers(ids[..i], responses[..i])), Batched(ids[i], responses[i]), ids[i]);
    ThenAssociates(acc.said, sofar, unheard);
    ThenAssociates(acc.start, acc.said.Then(sofar), unheard);
  }

  lemma {:induction false} LaterAnswers(ids: seq<string>, responses: seq<Option<SubResponse>>, k: nat) returns (later: Log)
    requires |responses| == |ids| && k <= |ids|
    ensures Answers(ids[..k], responses[..k]).Then(later) == Answers(ids, responses)
  {
    if k == |ids| {
      later := Silence;
      assert ids[..k] == ids && responses[..k] == responses;
    } else {
      var n := |ids| - 1;
      later := LaterAnswers(ids[..n], responses[..n], k);
      assert ids[..n][..k] == ids[..k] && responses[..n][..k] == responses[..k];
      later := Said(later, Batched(ids[n], responses[n]));
    }
  }

  /** One list's fill has begun. */
  lemma OneBegun(
      w: Coherence.World, readAt: map<string, Log>, w': Coherence.World, readAt': map<string, Log>,
      acc: Account, continuations: seq<Continuation>, id: string, generation: nat)
    requires Airborne(w, readAt, acc, continuations) && Elsewhere(w, readAt, w', readAt', {id})
    requires id !in ContinuationIds(continuations) && Gathered(acc.said, id) == []
    requires Begun(FlightOf(w', readAt', id), id, generation, acc.WholeLog())
    ensures Airborne(w', readAt', acc, continuations)
    ensures Flies(FlightOf(w', readAt', id), acc, id, generation)
  {
    ReadNow(acc, id);
    assert forall i | 0 <= i < |continuations| :: ContinuationIds(continuations)[i] == continuations[i].list.id;
    ReadMeanwhile(w, readAt, w', readAt', acc, continuations, {id});
  }

  /** A batch's fills have begun. */
  lemma BatchBegun(
      w: Coherence.World, readAt: map<string, Log>, w': Coherence.World, readAt': map<string, Log>,
      p: Progress, ids: seq<string>, rest: seq<string>, acc: Account, generation: nat)
    requires Airborne(w, readAt, acc, p.continuations) && Elsewhere(w, readAt, w', readAt', Set(ids))
    requires Accounted(p, ids + rest, acc)
    requires forall i | 0 <= i < |ids| :: Begun(FlightOf(w', readAt', ids[i]), ids[i], generation, acc.WholeLog())
    ensures Airborne(w', readAt', acc, p.continuations) && InFlight(w', readAt', acc, ids, generation)
  {
    QueueDistinct(p, ids, rest, acc);
    forall i | 0 <= i < |ids|
      ensures Flies(FlightOf(w', readAt', ids[i]), acc, ids[i], generation)
    {
      ReadNow(acc, ids[i]);
    }
    forall id | id in Set(ids)
      ensures FlightOf(w', readAt', id).readAt.Some? && ReadBefore(FlightOf(w', readAt', id).readAt.value, acc, id)
    {
      var i :| 0 <= i < |ids| && ids[i] == id;
    }
    ReadMeanwhile(w, readAt, w', readAt', acc, p.continuations, Set(ids));
  }

  lemma OthersAside(w: Coherence.World, w': Coherence.World, readAt: map<string, Log>)
    requires Coherence.Mine(w') == Coherence.Mine(w)
    ensures Elsewhere(w, readAt, w', readAt, {})
  {
    forall id
      ensures FlightOf(w', readAt, id) == FlightOf(w, readAt, id)
    {
      assert Coherence.Own(id) in Coherence.Mine(w) <==> Coherence.Own(id) in w.fills;
      assert Coherence.Own(id) in Coherence.Mine(w') <==> Coherence.Own(id) in w'.fills;
      if Coherence.Own(id) in w.fills {
        assert Coherence.Mine(w)[Coherence.Own(id)] == Coherence.Mine(w')[Coherence.Own(id)];
      }
    }
  }

  /** What one call keeps, at every step. */
  ghost predicate Sound(
    p: Progress, queue: seq<string>, acc: Account, calm: bool, mailbox: Mailbox, ttl: nat,
    tasks: map<string, Cache.ListTasks>)
  {
    Accounted(p, queue, acc) && Covered(p, queue, acc) && Calmly(p, acc, calm, mailbox, ttl, tasks)
  }

  class Server {
    const cache: Cache.Cache
    const graph: Graph
    const syncTimeout: nat
    const lower: string -> string

    /** Every look at the cache for fresh entries, in order. */
    ghost var looks: seq<Look>
    /** The lists that had an entry, each time they were ordered by that. */
    ghost var warmed: seq<set<string>>

    constructor (cache: Cache.Cache, graph: Graph, syncTimeout: nat, lower: string -> string)
      ensures this.cache == cache && this.graph == graph && this.syncTimeout == syncTimeout && this.lower == lower
      ensures looks == [] && warmed == []
    {
      this.cache, this.graph, this.syncTimeout, this.lower := cache, graph, syncTimeout, lower;
      looks, warmed := [], [];
    }

    /** Where a call stands, between two steps: what it keeps, why it would stop, and
        every exchange heard. */
    ghost predicate Standing(p: Progress, queue: seq<string>, acc: Account, budget: Budget)
      reads cache, graph, budget
    {
      && cache.Tracked() && budget.Valid() && graph.log == acc.WholeLog()
      && Airborne(cache.world, cache.readAt, acc, p.continuations)
      && Sound(p, queue, acc, graph.calm, graph.mailbox, cache.ttl, cache.tasks) && InTurn(acc, queue)
      && Justified(p, acc.said, budget.requestsLeft, graph.time >= budget.deadline, budget.maxPages)
    }

    /** Time passed; requests were spent, and none lost. */
    twostate predicate Onward(budget: Budget)
      reads graph, budget
    {
      && graph.time >= old(graph.time)
      && budget.requestsUsed >= old(budget.requestsUsed)
      && budget.requestsLeft + budget.requestsUsed == old(budget.requestsLeft + budget.requestsUsed)
    }

    /** In a calm run, nothing changed since. */
    twostate predicate Undisturbed()
      reads cache, graph
    {
      && graph.time >= old(graph.time)
      && (graph.calm ==>
            old(graph.calm) && cache.tasks == old(cache.tasks) && cache.generation == old(cache.generation))
    }

    /** Of all other lists, this server's fills are as they were. */
    twostate predicate Aside(ids: set<string>)
      reads cache
    {
      Elsewhere(old(cache.world), old(cache.readAt), cache.world, cache.readAt, ids)
    }

    /** A step of somebody else's; a store is one of a fill that may make it. */
    method Perform(op: CacheOp)
      requires cache.Tracked()
      modifies cache
      ensures cache.Tracked() && Aside({})
    {
      match op {
        case Invalidate(list) => cache.InvalidateList(list);
        case Fill(act) =>
          if Coherence.OfOthers(act) && (act.Capture? || act.BeginFetch? || act.Reread? || act.Abandon?) {
            cache.Note(act);
          }
        case Put(list, tasks, complete, now) => PutByOthers(list, tasks, complete, now);
        case PutLists(lists, now) => cache.PutCatalogue(lists, now);
        case ForgetLists => cache.InvalidateCatalogue();
        case NewAccount => cache.ResetForNewAccount();
      }
      OthersAside(old(cache.world), cache.world, cache.readAt);
    }

    ghost method BeginByOthers(fill: Coherence.Pid, list: string)
      requires cache.Tracked() && fill.Other?
      modifies cache`acts, cache`world
      ensures cache.Tracked() && Cache.MayStore(cache.world, fill, list)
      ensures Coherence.Mine(cache.world) == old(Coherence.Mine(cache.world))
    {
      ghost var w0 := cache.world;
      cache.Note(Coherence.Capture(fill, {list}));
      ghost var w1 := cache.world;
      cache.Note(Coherence.BeginFetch(fill));
      Coherence.OthersLeaveMine(w0, Coherence.Capture(fill, {list}));
      Coherence.OthersLeaveMine(w1, Coherence.BeginFetch(fill));
    }

    /** A fill whose beginning was not followed is taken to have begun just now. */
    method PutByOthers(list: string, tasks: seq<Task>, complete: bool, now: int)
      requires cache.Tracked()
      modifies cache
      ensures cache.Tracked() && cache.readAt == old(cache.readAt)
      ensures Coherence.Mine(cache.world) == old(Coherence.Mine(cache.world))
    {
      ghost var n: nat :| true;
      ghost var fill := Coherence.Other(n);
      if !Cache.MayStore(cache.world, fill, list) {
        BeginByOthers(fill, list);
      }
      ghost var before := cache.world;
      ghost var evicted := cache.PutList(list, tasks, complete, now, fill, None);
      Coherence.OthersLeaveMine(before, Coherence.Keep(fill, list, evicted));
    }

    /** Time passes, and other callers do what they like to the cache. */
    method Others()
      requires cache.Tracked()
      modifies cache, graph`time, graph`calm
      ensures cache.Tracked() && Undisturbed() && Aside({})
    {
      var _ := graph.Now();
      var n: int :| n >= 0;
      if n == 0 {
        return;
      }
      graph.calm := false;
      while n > 0
        invariant cache.Tracked() && !graph.calm && graph.time >= old(graph.time) && Aside({})
      {
        var op: CacheOp := *;
        Perform(op);
        n := n - 1;
      }
    }

    /** Read the generation for some lists, before anything is asked for them. */
    method Generation(ghost ids: seq<string>) returns (generation: nat)
      requires cache.Tracked()
      modifies cache, graph`time, graph`calm
      ensures cache.Tracked() && Undisturbed() && generation == cache.generation && Aside(Set(ids))
      ensures forall i | 0 <= i < |ids| ::
                Captured(FlightOf(cache.world, cache.readAt, ids[i]), ids[i], generation, graph.log)
    {
      Others();
      generation := cache.generation;
      Capture(ids);
    }

    ghost method Capture(ids: seq<string>)
      requires cache.Tracked()
      modifies cache`acts, cache`world, cache`readAt
      ensures cache.Tracked() && Aside(Set(ids))
      ensures forall i | 0 <= i < |ids| ::
                Captured(FlightOf(cache.world, cache.readAt, ids[i]), ids[i], cache.generation, graph.log)
    {
      for k := 0 to |ids|
        invariant cache.Tracked() && Aside(Set(ids))
        invariant forall i | 0 <= i < k ::
                    Captured(FlightOf(cache.world, cache.readAt, ids[i]), ids[i], cache.generation, graph.log)
      {
        Coherence.TracksMeans(cache.acts, cache.world, cache.generation, cache.tasks.Keys);
        cache.Note(Coherence.Capture(Coherence.Own(ids[k]), {ids[k]}));
        cache.readAt := cache.readAt[ids[k] := graph.log];
      }
    }

    /** The first requests for some lists go out. */
    ghost method BeginFetch(ids: seq<string>, generation: nat, log: Log)
      requires cache.Tracked() && Distinct(ids)
      requires forall i | 0 <= i < |ids| :: Captured(FlightOf(cache.world, cache.readAt, ids[i]), ids[i], generation, log)
      modifies cache`acts, cache`world
      ensures cache.Tracked() && Aside(Set(ids))
      ensures forall i | 0 <= i < |ids| :: Begun(FlightOf(cache.world, cache.readAt, ids[i]), ids[i], generation, log)
    {
      for k := 0 to |ids|
        invariant cache.Tracked() && Aside(Set(ids))
        invariant forall i | 0 <= i < k :: Begun(FlightOf(cache.world, cache.readAt, ids[i]), ids[i], generation, log)
        invariant forall i | k <= i < |ids| ::
                    Captured(FlightOf(cache.world, cache.readAt, ids[i]), ids[i], generation, log)
      {
        cache.Note(Coherence.BeginFetch(Coherence.Own(ids[k])));
      }
    }

    /** Ask for the first pages of lists whose generation was read before. Others go on
        while the answer is under way. */
    method AskBatch(ids: seq<string>, budget: Budget, ghost generation: nat)
      returns (r: Result<seq<Option<SubResponse>>, AppError>)
      requires cache.Tracked() && budget.Valid() && Distinct(ids)
      requires forall i | 0 <= i < |ids| ::
                 Captured(FlightOf(cache.world, cache.readAt, ids[i]), ids[i], generation, graph.log)
      modifies cache, graph, budget`requestsLeft, budget`requestsUsed
      ensures cache.Tracked() && Aside(Set(ids)) && Undisturbed()
      ensures forall i | 0 <= i < |ids| ::
                Begun(FlightOf(cache.world, cache.readAt, ids[i]), ids[i], generation, old(graph.log))
      ensures budget.Valid() && old(budget.requestsUsed) <= budget.requestsUsed
      ensures budget.requestsLeft + budget.requestsUsed == old(budget.requestsLeft + budget.requestsUsed)
      ensures r.Ok? ==> |r.value| == |ids| && graph.log == old(graph.log).Then(Answers(ids, r.value))
      ensures r.Err? ==> graph.log == Said(old(graph.log), BatchFailed(r.error))
      ensures graph.calm ==>
                && r.Ok? && FirstPages(graph.mailbox, ids, r.value)
                && budget.requestsLeft == old(budget.requestsLeft) - 1
    {
      BeginFetch(ids, generation, graph.log);
      r := graph.BatchGet(ids, budget);
      Elapse(ids);
    }

    /** Ask for all the pages of a list whose generation was read before. */
    method AskPages(id: string, budget: Budget, ghost generation: nat)
      returns (r: Result<(seq<Task>, bool), AppError>, ghost walk: Log)
      requires cache.Tracked() && budget.Valid()
      requires Captured(FlightOf(cache.world, cache.readAt, id), id, generation, graph.log)
      modifies cache, graph, budget`requestsLeft, budget`requestsUsed
      ensures cache.Tracked() && Aside({id}) && Undisturbed()
      ensures Begun(FlightOf(cache.world, cache.readAt, id), id, generation, old(graph.log))
      ensures budget.Valid() && Onward(budget)
      ensures graph.log == old(graph.log).Then(walk) && Tells(walk, id, r)
      ensures r.Ok? && !r.value.1 ==>
                walk.Size() >= budget.maxPages || graph.time >= budget.deadline || budget.requestsLeft == 0
      ensures graph.calm ==>
                r.Ok? && graph.Fetched(Next(id, 0), r, old(budget.requestsLeft), budget.maxPages)
    {
      BeginFetch([id], generation, graph.log);
      r, walk := graph.GetCollection(id, Next(id, 0), budget);
      Elapse([id]);
    }

    /** Others go on; what this server has in flight for some lists stays as it is. */
    method Elapse(ghost ids: seq<string>)
      requires cache.Tracked()
      modifies cache, graph`time, graph`calm
      ensures cache.Tracked() && Undisturbed() && Aside({})
      ensures forall i | 0 <= i < |ids| ::
                FlightOf(cache.world, cache.readAt, ids[i]) == old(FlightOf(cache.world, cache.readAt, ids[i]))
    {
      Others();
    }

    /** Read the generation again, for a list whose first page is there. */
    method ReadAgain(ghost id: string, ghost acc: Account, ghost before: nat) returns (generation: nat)
      requires cache.Tracked() && Flies(FlightOf(cache.world, cache.readAt, id), acc, id, before)
      modifies cache, graph`time, graph`calm
      ensures cache.Tracked() && Undisturbed() && generation == cache.generation && Aside({id})
      ensures Flies(FlightOf(cache.world, cache.readAt, id), acc, id, generation)
      ensures WasReread(FlightOf(cache.world, cache.readAt, id), id)
    {
      Others();
      assert FlightOf(cache.world, cache.readAt, id) == old(FlightOf(cache.world, cache.readAt, id));
      generation := cache.generation;
      Coherence.TracksMeans(cache.acts, cache.world, cache.generation, cache.tasks.Keys);
      cache.Note(Coherence.Reread(Coherence.Own(id), id));
    }

    /** Read the clock, then wait for the lock and look. */
    method ClockThenLook() returns (now: int, ghost look: Look)
      requires cache.Tracked()
      modifies this`looks, cache, graph`time, graph`calm
      ensures cache.Tracked() && Undisturbed()
      ensures looks == old(looks) + [look] && look == Look(now, cache.tasks)
      ensures old(graph.time) <= now <= graph.time
    {
      now := graph.Now();
      Others();
      look := Look(now, cache.tasks);
      looks := looks + [look];
    }

    /** Wait for the lock, then read the clock and look. */
    method LockThenLook() returns (now: int, ghost look: Look)
      requires cache.Tracked()
      modifies this`looks, cache, graph`time, graph`calm
      ensures cache.Tracked() && Undisturbed()
      ensures looks == old(looks) + [look] && look == Look(now, cache.tasks)
      ensures old(graph.time) <= now <= graph.time
    {
      Others();
      now := graph.Now();
      look := Look(now, cache.tasks);
      looks := looks + [look];
    }

    /** Exactly the fresh entries, complete or not, under one lock. The run is calm
        only if no entry has expired. */
    method FreshEntries(lists: seq<TaskList>) returns (known: Known, ghost look: Look)
      requires cache.Tracked()
      modifies this`looks, cache, graph`time, graph`calm
      ensures cache.Tracked() && Undisturbed()
      ensures looks == old(looks) + [look] && look.tasks == cache.tasks && old(graph.time) <= look.now <= graph.time
      ensures known == look.Shows(IdSet(lists), cache.ttl)
      ensures graph.calm ==> forall i | 0 <= i < |lists| && lists[i].id in cache.tasks :: lists[i].id in known
    {
      var now;
      now, look := ClockThenLook();
      known := map[];
      for i := 0 to |lists|
        invariant cache.Tracked() && Undisturbed() && look == Look(now, cache.tasks) && looks == old(looks) + [look]
        invariant now <= graph.time && known == look.Shows(IdSet(lists[..i]), cache.ttl)
        invariant graph.calm ==> forall j | 0 <= j < i && lists[j].id in cache.tasks :: lists[j].id in known
      {
        OneMoreShown(lists, i, look, cache.ttl);
        var e := cache.List(lists[i].id, now);
        if e.Some? {
          known := known[lists[i].id := Held(e.value.tasks, e.value.complete)];
        } else if lists[i].id in cache.tasks {
          graph.calm := false;
        }
      }
      assert lists[..|lists|] == lists;
    }

    /** Store an entry; the run stays calm if nothing is evicted for it. */
    method Store(id: string, kept: seq<Task>, complete: bool)
      requires cache.Tracked() && cache.ttl != 0
      requires MayStoreNow(FlightOf(cache.world, cache.readAt, id), id, kept, cache.generation, graph.log)
      modifies cache, graph`calm
      ensures cache.Tracked() && cache.generation == old(cache.generation)
      ensures Aside({id}) && cache.readAt == old(cache.readAt)
      ensures FlightOf(cache.world, cache.readAt, id).fill.Some?
      ensures FlightOf(cache.world, cache.readAt, id).fill.value.gen == old(FlightOf(cache.world, cache.readAt, id)).fill.value.gen
      ensures Replaces(old(cache.tasks), cache.tasks, id, kept, complete)
      ensures graph.calm ==> old(graph.calm) && Stores(old(cache.tasks), cache.tasks, id, complete)
    {
      ghost var before, lru, total := cache.tasks, cache.lru, cache.totalTasks - Cache.Size(cache.tasks, id) + |kept|;
      ghost var entry := Cache.Entry(graph.time, complete, Truncated(kept));
      Coherence.TracksMeans(cache.acts, cache.world, cache.generation, cache.tasks.Keys);
      ghost var heard :| graph.log == cache.readAt[id].Then(heard) && Truncated(kept) <= Truncated(Gathered(heard, id));
      ghost var w := cache.world;
      ghost var evicted := cache.PutList(id, kept, complete, graph.time, Coherence.Own(id), Some(heard));
      StoredFlight(w, cache.world, cache.readAt, id, evicted);
      assert cache.tasks == Cache.Evicted(Cache.Without(lru, id), (before - {id})[id := entry], total, cache.maxTasks).0;
      Cache.PutLeaves(before, lru, id, entry, total, cache.maxTasks);
      graph.calm := graph.calm && forall x | x in before :: x in cache.tasks;
    }

    /** Into the cache, unless it moved on since `generation`, and into what this
        call holds, cut exactly as the cache cuts. `found` is the cache as it was
        when the lock was taken. */
    method Keep(p: Progress, id: string, tasks: seq<Task>, complete: bool, generation: nat)
      returns (next: Progress, ghost found: map<string, Cache.ListTasks>)
      requires cache.Tracked()
      requires var f := FlightOf(cache.world, cache.readAt, id);
               && f.fill.Some? && id in f.fill.value.lists && f.fill.value.began.Some?
               && Coherence.KeepUnder(f.fill.value, id) == generation
               && f.readAt.Some? && SyncAccount.Answered(graph.log, f.readAt.value, id, tasks)
      modifies cache, graph`time, graph`calm
      ensures Aside({id}) && FlightOf(cache.world, cache.readAt, id).readAt == old(FlightOf(cache.world, cache.readAt, id)).readAt
      ensures cache.Tracked() && next == Kept(p, id, tasks, complete) && graph.time >= old(graph.time)
      ensures if cache.ttl > 0 && generation == cache.generation
              then Replaces(found, cache.tasks, id, tasks, complete)
              else cache.tasks == found
      ensures graph.calm ==> old(graph.calm) && cache.generation == old(cache.generation) && found == old(cache.tasks)
      ensures graph.calm && cache.ttl > 0 && generation == cache.generation ==>
                Stores(old(cache.tasks), cache.tasks, id, complete)
    {
      var kept := TruncateBodies(tasks);
      Others();
      found := cache.tasks;
      assert FlightOf(cache.world, cache.readAt, id) == old(FlightOf(cache.world, cache.readAt, id));
      if cache.generation == generation && cache.ttl != 0 {
        MayStoreCut(FlightOf(cache.world, cache.readAt, id), id, tasks, generation, graph.log);
        Store(id, kept, complete);
        TruncatedTwice(tasks);
      }
      next := p.(known := p.known[id := Held(kept, complete)]);
    }

    /** A fresh and complete entry, exactly if the look shows one. */
    method FreshComplete(list: string) returns (tasks: Option<seq<Task>>, ghost look: Look)
      requires cache.Tracked()
      modifies this`looks, cache, graph`time, graph`calm
      ensures cache.Tracked() && Undisturbed()
      ensures looks == old(looks) + [look] && old(graph.time) <= look.now <= graph.time
      ensures tasks == AtHand(look, list, cache.ttl)
    {
      var now;
      now, look := LockThenLook();
      var e := cache.List(list, now);
      tasks := if e.Some? && e.value.complete then Some(e.value.tasks) else None;
    }

    /** One list's tasks: from the cache exactly if one of two looks shows a fresh and
        complete entry, else fetched, and stored only if the cache has not moved on since
        the generation was read, before anything was asked. `found` is the cache as it
        was then. */
    method ListTasks(list: TaskList, budget: Budget)
      returns (
        r: Result<(seq<Task>, bool), AppError>, ghost seen: seq<Look>, ghost walk: Log,
        ghost found: map<string, Cache.ListTasks>)
      requires cache.Tracked() && budget.Valid()
      modifies this`looks, cache, graph, budget`requestsLeft, budget`requestsUsed
      ensures cache.Tracked() && budget.Valid() && Onward(budget)
      ensures looks == old(looks) + seen && graph.log == old(graph.log).Then(walk)
      ensures 1 <= |seen| <= 2 && forall k | 0 <= k < |seen| :: old(graph.time) <= seen[k].now <= graph.time
      ensures |seen| == 2 ==> AtHand(seen[0], list.id, cache.ttl).None?
      ensures match AtHand(seen[|seen| - 1], list.id, cache.ttl)
              // From the cache: complete, at no request.
              case Some(tasks) =>
                r == Ok((tasks, true)) && walk == Silence && budget.requestsUsed == old(budget.requestsUsed)
              // Fetched: stored exactly if the generation is the one read before the fetch.
              case None =>
                && |seen| == 2 && Tells(walk, list.id, r)
                && var f := FlightOf(cache.world, cache.readAt, list.id);
                   && f.readAt == Some(old(graph.log)) && f.fill.Some?
                   && (r.Ok? ==>
                         if cache.ttl > 0 && f.fill.value.gen == cache.generation
                         then Replaces(found, cache.tasks, list.id, r.value.0, r.value.1)
                         else cache.tasks == found)
      ensures graph.calm && walk != Silence && HasPage(graph.mailbox, list.id, 0) && r.Ok? && r.value.1 ==>
                r.value.0 == Flat(graph.mailbox[list.id])
    {
      walk, found := Silence, map[];
      ghost var first, second;
      var cached;
      cached, first := FreshComplete(list.id);
      seen := [first];
      if cached.Some? {
        return Ok((cached.value, true)), seen, walk, found;
      }
      // Again under the refill lock, which may have been a long wait.
      cached, second := FreshComplete(list.id);
      seen := [first, second];
      if cached.Some? {
        return Ok((cached.value, true)), seen, walk, found;
      }
      var generation := Generation([list.id]);
      assert Captured(FlightOf(cache.world, cache.readAt, [list.id][0]), list.id, generation, graph.log);
      r, walk := AskPages(list.id, budget, generation);
      if graph.calm && HasPage(graph.mailbox, list.id, 0) {
        assert graph.mailbox[list.id][0..] == graph.mailbox[list.id];
      }
      if r.Ok? {
        found := StoreFetched(list.id, r.value.0, r.value.1, generation, old(graph.log), walk);
      }
    }

    /** Store what was fetched, unless the cache has moved on. */
    method StoreFetched(
        id: string, tasks: seq<Task>, complete: bool, generation: nat, ghost log: Log, ghost walk: Log)
      returns (ghost found: map<string, Cache.ListTasks>)
      requires cache.Tracked() && Begun(FlightOf(cache.world, cache.readAt, id), id, generation, log)
      requires graph.log == log.Then(walk) && tasks == Gathered(walk, id)
      modifies cache, graph`time, graph`calm
      ensures cache.Tracked() && graph.time >= old(graph.time) && (graph.calm ==> old(graph.calm))
      ensures var f := FlightOf(cache.world, cache.readAt, id);
              && f.readAt == Some(log) && f.fill.Some? && f.fill.value.gen == generation
      ensures if cache.ttl > 0 && generation == cache.generation
              then Replaces(found, cache.tasks, id, tasks, complete)
              else cache.tasks == found
    {
      Others();
      assert FlightOf(cache.world, cache.readAt, id) == old(FlightOf(cache.world, cache.readAt, id));
      found := cache.tasks;
      if cache.generation == generation && cache.ttl != 0 {
        assert SyncAccount.Answered(graph.log, log, id, tasks);
        MayStoreCut(FlightOf(cache.world, cache.readAt, id), id, tasks, generation, graph.log);
        Store(id, tasks, complete);
      }
    }

    /** Keep what was gathered for a list that was open until now. */
    method KeepHeard(
        p: Progress, id: string, tasks: seq<Task>, complete: bool, generation: nat,
        ghost queue: seq<string>, ghost acc: Account, ghost more: Log, ghost unheard: Log)
      returns (next: Progress)
      requires cache.Tracked() && Accounted(p, queue, acc)
      requires graph.log == acc.Hear(more).WholeLog().Then(unheard)
      requires Airborne(cache.world, cache.readAt, acc, p.continuations)
      requires Flies(FlightOf(cache.world, cache.readAt, id), acc, id, generation)
      requires Calmly(p, acc, graph.calm, graph.mailbox, cache.ttl, cache.tasks)
      requires OnlyFor(more, id) && Open(p.known, acc, id) && id !in ContinuationIds(p.continuations) + queue
      requires complete <==> Ended(more, id)
      requires tasks <= Gathered(acc.said, id) + Gathered(more, id)
      requires complete ==> tasks == Gathered(acc.said, id) + Gathered(more, id)
      requires graph.calm && complete ==>
                 id in graph.mailbox && tasks == Flat(graph.mailbox[id]) && generation == cache.generation
      modifies cache, graph`time, graph`calm
      ensures cache.Tracked() && next == Kept(p, id, tasks, complete) && graph.time >= old(graph.time)
      ensures Aside({id}) && Airborne(cache.world, cache.readAt, acc.Hear(more), next.continuations)
      ensures Accounted(next, queue, acc.Hear(more)) && acc.LeadsTo(acc.Hear(more))
      ensures Calmly(next, acc.Hear(more), graph.calm, graph.mailbox, cache.ttl, cache.tasks)
      ensures graph.calm ==> old(graph.calm) && cache.generation == old(cache.generation)
    {
      KeptIsAccounted(p, queue, acc, more, id, tasks, complete);
      ghost var w, readAt := cache.world, cache.readAt;
      if graph.calm {
        CalmlyMeans(p, acc, graph.mailbox, cache.ttl, cache.tasks);
      }
      Storable(FlightOf(w, readAt, id), acc, more, unheard, id, tasks, generation);
      ghost var found;
      next, found := Keep(p, id, tasks, complete, generation);
      StaysAirborne(w, readAt, cache.world, cache.readAt, acc, more, p.continuations, id);
      if graph.calm {
        HeardIsFaithful(p, acc, more, id, graph.mailbox);
        if cache.ttl > 0 {
          if generation == cache.generation {
            KeptIsCached(acc, more, id, complete, old(cache.tasks), cache.tasks);
          } else {
            HeardIsCached(acc, more, id, cache.tasks);
          }
        }
      }
    }

    /** A sub-response as it is taken: the next one, from a fetch that began after its
        generation was read. */
    ghost predicate Poised(
      id: string, response: Option<SubResponse>, generation: nat, p: Progress, rest: seq<string>, acc: Account,
      unheard: Log)
      reads cache, graph
    {
      && cache.Tracked() && Sound(p, [id] + rest, acc, graph.calm, graph.mailbox, cache.ttl, cache.tasks)
      && graph.log == acc.Hear(Only(Batched(id, response))).WholeLog().Then(unheard)
      && Airborne(cache.world, cache.readAt, acc, p.continuations)
      && Flies(FlightOf(cache.world, cache.readAt, id), acc, id, generation)
      && (graph.calm ==> generation == cache.generation && FirstPages(graph.mailbox, [id], [response]))
    }

    /** One sub-response: a failure is noted, a whole list kept, a long one put by. */
    method TakeResponse(
        l: TaskList, response: Option<SubResponse>, generation: nat, p: Progress,
        ghost rest: seq<string>, ghost acc: Account, ghost unheard: Log)
      returns (next: Progress)
      requires Poised(l.id, response, generation, p, rest, acc, unheard)
      modifies cache, graph`time, graph`calm
      ensures cache.Tracked()
      ensures Sound(
                next, rest, acc.Hear(Only(Batched(l.id, response))), graph.calm, graph.mailbox, cache.ttl, cache.tasks)
      ensures acc.LeadsTo(acc.Hear(Only(Batched(l.id, response)))) && graph.time >= old(graph.time)
      ensures Aside({l.id})
      ensures Airborne(cache.world, cache.readAt, acc.Hear(Only(Batched(l.id, response))), next.continuations)
      ensures next.stopped == p.stopped && next.failure == p.failure
      ensures next.subFailed == (p.subFailed || FirstPage(response).None?)
      ensures match FirstPage(response)
              case None => next == p.(subFailed := true)
              case Some(Page(tasks, Some(link))) =>
                next == p.(continuations := p.continuations + [Continuation(l, tasks, link, generation)])
              case Some(Page(tasks, None)) => next == Kept(p, l.id, tasks, true)
      ensures graph.calm ==> old(graph.calm) && cache.generation == old(cache.generation)
      ensures graph.calm ==> next.continuations != [] || acc.Hear(Only(Batched(l.id, response))).Walked(l.id)
    {
      ghost var more := Only(Batched(l.id, response));
      if graph.calm {
        FirstPageIs(graph.mailbox, l.id, response);
      }
      var page := FirstPage(response);
      HeardInFlight(cache.world, cache.readAt, p, l.id, response, rest, acc, generation);
      if page.None? {
        FailureTaken(p, l.id, response, rest, acc);
        return p.(subFailed := true);
      }
      if page.value.next.Some? {
        var c := Continuation(l, page.value.tasks, page.value.next.value, generation);
        LongListTaken(p, c, response, rest, acc);
        OneMoreAirborne(cache.world, cache.readAt, acc.Hear(more), p.continuations, c);
        if graph.calm {
          LongListCalmly(p, c, response, rest, acc, graph.mailbox, cache.ttl, cache.tasks);
        }
        return p.(continuations := p.continuations + [c]);
      }
      FirstOfQueue(p, l.id, rest, acc);
      ReadOfOne(acc.said, Batched(l.id, response), l.id);
      next := KeepHeard(p, l.id, page.value.tasks, true, generation, rest, acc, more, unheard);
      HeardOfOne(acc, more, l.id);
      StillCovered(p, next, l.id, rest, acc, acc.Hear(more));
    }

    /** A batch's responses, in the order of its lists. */
    method TakeBatch(
        chunk: seq<TaskList>, responses: seq<Option<SubResponse>>, generation: nat, p: Progress,
        ghost rest: seq<string>, ghost acc: Account)
      returns (next: Progress)
      requires |responses| == |chunk| && cache.Tracked() && InTurn(acc, IdsOf(chunk) + rest)
      requires Sound(p, IdsOf(chunk) + rest, acc, graph.calm, graph.mailbox, cache.ttl, cache.tasks)
      requires graph.log == acc.Hear(Answers(IdsOf(chunk), responses)).WholeLog()
      requires Airborne(cache.world, cache.readAt, acc, p.continuations)
      requires InFlight(cache.world, cache.readAt, acc, IdsOf(chunk), generation)
      requires graph.calm ==> generation == cache.generation && FirstPages(graph.mailbox, IdsOf(chunk), responses)
      modifies cache, graph`time, graph`calm
      ensures cache.Tracked()
      ensures Airborne(cache.world, cache.readAt, acc.Hear(Answers(IdsOf(chunk), responses)), next.continuations)
      ensures Sound(
                next, rest, acc.Hear(Answers(IdsOf(chunk), responses)),
                graph.calm, graph.mailbox, cache.ttl, cache.tasks)
      ensures InTurn(acc.Hear(Answers(IdsOf(chunk), responses)), rest)
      ensures acc.LeadsTo(acc.Hear(Answers(IdsOf(chunk), responses))) && graph.time >= old(graph.time)
      ensures next.stopped == p.stopped && next.failure == p.failure
      ensures next.subFailed <==> p.subFailed || SubRequestFailed(Answers(IdsOf(chunk), responses))
      ensures graph.calm ==> old(graph.calm) && (next.subFailed ==> p.subFailed)
      ensures graph.calm && chunk != [] ==>
                acc.Hear(Answers(IdsOf(chunk), responses)).Further() || next.continuations != []
    {
      next := p;
      ghost var ids := IdsOf(chunk);
      BatchStarts(ids, responses, rest, acc);
      for i := 0 to |chunk|
        invariant graph.time >= old(graph.time) && (graph.calm ==> old(graph.calm))
        invariant Midway(p, next, ids, responses, i, generation, rest, acc)
      {
        next := TakeNext(chunk, responses, i, generation, next, p, rest, acc);
      }
      assert ids[|chunk|..] + rest == rest && ids[..|chunk|] == ids && responses[..|chunk|] == responses;
    }

    /** A batch of which so many responses were taken. */
    ghost predicate Midway(
      p: Progress, next: Progress, ids: seq<string>, responses: seq<Option<SubResponse>>, i: nat, generation: nat,
      rest: seq<string>, acc: Account)
      reads cache, graph
      requires |responses| == |ids| && i <= |ids|
    {
      var acc' := acc.Hear(Answers(ids[..i], responses[..i]));
      && cache.Tracked() && graph.log == acc.Hear(Answers(ids, responses)).WholeLog()
      && Sound(next, ids[i..] + rest, acc', graph.calm, graph.mailbox, cache.ttl, cache.tasks) && acc.LeadsTo(acc')
      && Airborne(cache.world, cache.readAt, acc', next.continuations) && InTurn(acc', ids[i..] + rest)
      && InFlight(cache.world, cache.readAt, acc', ids[i..], generation)
      && next.stopped == p.stopped && next.failure == p.failure
      && (next.subFailed <==> p.subFailed || SubRequestFailed(Answers(ids[..i], responses[..i])))
      && (graph.calm ==>
            && generation == cache.generation && (next.subFailed ==> p.subFailed)
            && FirstPages(graph.mailbox, ids, responses)
            && (i > 0 ==> acc'.Further() || next.continuations != []))
    }

    lemma NextPoised(
        p: Progress, sofar: Progress, ids: seq<string>, responses: seq<Option<SubResponse>>, i: nat, generation: nat,
        rest: seq<string>, acc: Account)
      returns (unheard: Log)
      requires |responses| == |ids| && i < |ids|
      requires Midway(p, sofar, ids, responses, i, generation, rest, acc)
      ensures Poised(
                ids[i], responses[i], generation, sofar, ids[i + 1..] + rest,
                acc.Hear(Answers(ids[..i], responses[..i])), unheard)
      ensures Distinct(ids[i..]) && ids[i..][0] == ids[i] && ids[i..][1..] == ids[i + 1..]
    {
      var acc' := acc.Hear(Answers(ids[..i], responses[..i]));
      NextOfBatch(ids, responses, i, rest, acc);
      QueueDistinct(sofar, ids[i..], rest, acc');
      assert ids[i..][0] == ids[i] && ids[i..][1..] == ids[i + 1..];
      FirstInFlight(cache.world, cache.readAt, acc', ids[i..], generation);
      unheard := Unheard(ids, responses, i, acc);
    }

    /** The next response of a batch. */
    method TakeNext(
        chunk: seq<TaskList>, responses: seq<Option<SubResponse>>, i: nat, generation: nat, sofar: Progress,
        ghost p: Progress, ghost rest: seq<string>, ghost acc: Account)
      returns (next: Progress)
      requires |responses| == |chunk| && i < |chunk|
      requires Midway(p, sofar, IdsOf(chunk), responses, i, generation, rest, acc)
      modifies cache, graph`time, graph`calm
      ensures graph.time >= old(graph.time) && (graph.calm ==> old(graph.calm))
      ensures Midway(p, next, IdsOf(chunk), responses, i + 1, generation, rest, acc)
    {
      ghost var ids := IdsOf(chunk);
      ghost var acc', e := acc.Hear(Answers(ids[..i], responses[..i])), Only(Batched(ids[i], responses[i]));
      ghost var unheard := NextPoised(p, sofar, ids, responses, i, generation, rest, acc);
      ghost var w, readAt := cache.world, cache.readAt;
      next := TakeResponse(chunk[i], responses[i], generation, sofar, ids[i + 1..] + rest, acc', unheard);
      NextOfBatch(ids, responses, i, rest, acc);
      TurnTaken(acc', e, ids[i], ids[i + 1..] + rest);
      RestInFlight(w, readAt, cache.world, cache.readAt, acc', e, ids[i..], generation);
      assert acc'.Further() ==> acc'.Hear(e).Further();
    }

    /** All the pages of one list. */
    method Read(id: string, p: Progress, budget: Budget, ghost acc: Account)
      returns (walked: Result<(seq<Task>, bool), AppError>, generation: nat, ghost walk: Log)
      requires cache.Tracked() && graph.log == acc.WholeLog()
      requires Airborne(cache.world, cache.readAt, acc, p.continuations) && Gathered(acc.said, id) == []
      requires id !in ContinuationIds(p.continuations)
      requires budget.Valid() && Justified(p, acc.said, budget.requestsLeft, graph.time >= budget.deadline, budget.maxPages)
      modifies cache, graph, budget`requestsLeft, budget`requestsUsed
      ensures Onward(budget) && cache.Tracked() && budget.Valid()
      ensures Airborne(cache.world, cache.readAt, acc, p.continuations)
      ensures Flies(FlightOf(cache.world, cache.readAt, id), acc, id, generation)
      ensures graph.log == acc.Hear(walk).WholeLog() && Tells(walk, id, walked) && (graph.calm ==> old(graph.calm))
      ensures Justified(p, acc.Hear(walk).said, budget.requestsLeft, graph.time >= budget.deadline, budget.maxPages)
    {
      ghost var w, readAt := cache.world, cache.readAt;
      generation := Generation([id]);
      assert Captured(FlightOf(cache.world, cache.readAt, [id][0]), id, generation, graph.log);
      ghost var left, overdue := budget.requestsLeft, graph.time >= budget.deadline;
      walked, walk := AskPages(id, budget, generation);
      OneBegun(w, readAt, cache.world, cache.readAt, acc, p.continuations, id, generation);
      ThenAssociates(acc.start, acc.said, walk);
      JustifiedLater(p, acc.said, left, overdue, budget.maxPages, walk, budget.requestsLeft, graph.time >= budget.deadline);
    }

    /** One list of the fallback: its first page and all the others. */
    method ReadOne(
        l: TaskList, p: Progress, budget: Budget, ghost rest: seq<string>, ghost acc: Account)
      returns (next: Progress, stop: bool, ghost walk: Log)
      requires Standing(p, [l.id] + rest, acc, budget)
      requires !graph.calm && FellBack(acc.said) && p.stopped.Complete?
      modifies cache, graph, budget`requestsLeft, budget`requestsUsed
      ensures !graph.calm
      ensures Onward(budget)
      ensures Standing(next, if stop then [] else rest, acc.Hear(walk), budget)
      ensures acc.LeadsTo(acc.Hear(walk))
      ensures ReadsEnd(p, next, walk, [l.id], graph.time >= budget.deadline)
      ensures p.known.Keys <= next.known.Keys && (stop <==> !next.stopped.Complete?)
    {
      FirstOfQueue(p, l.id, rest, acc);
      stop, walk := true, Silence;
      var expired := graph.Expired(budget);
      if expired {
        next := p.(stopped := SyncTimeout);
        StopsAccounted(p, next, [l.id] + rest, acc);
        return;
      }
      var walked, generation;
      walked, generation, walk := Read(l.id, p, budget, acc);
      match walked {
        case Ok((tasks, complete)) =>
          stop := false;
          ghost var overdue := graph.time >= budget.deadline;
          next := KeepHeard(p, l.id, tasks, complete, generation, rest, acc, walk, Silence);
          ReadKept(
            p, next, l.id, tasks, complete, rest, acc, walk,
            budget.requestsLeft, overdue, graph.time >= budget.deadline, budget.maxPages);
        case Err(e) =>
          next := StoppedBy(p, e);
          StaysAirborne(
            cache.world, cache.readAt, cache.world, cache.readAt, acc, walk, p.continuations, l.id);
          ReadFails(p, l.id, rest, acc, walk, e, budget.requestsLeft, graph.time >= budget.deadline, budget.maxPages);
      }
    }

    /** `$batch` was not accepted: first pages, and all the others, one list at a time. */
    method Sequential(lists: seq<TaskList>, p: Progress, budget: Budget, ghost acc: Account)
      returns (next: Progress, ghost acc': Account, ghost more: Log)
      requires Standing(p, IdsOf(lists), acc, budget)
      requires !graph.calm && FellBack(acc.said) && p.stopped.Complete?
      modifies cache, graph, budget`requestsLeft, budget`requestsUsed
      ensures !graph.calm && Onward(budget) && acc.LeadsTo(acc') && acc' == acc.Hear(more)
      ensures Standing(next, [], acc', budget)
      ensures ReadsEnd(p, next, more, IdsOf(lists), graph.time >= budget.deadline)
    {
      next, acc', more := p, acc, Silence;
      ghost var ids := IdsOf(lists);
      assert ids[0..] == ids;
      for i := 0 to |lists|
        invariant !graph.calm && Onward(budget) && acc.LeadsTo(acc') && acc' == acc.Hear(more)
        invariant Standing(next, ids[i..], acc', budget)
        invariant FellBack(acc'.said) && ReadSoFar(p, next, more, ids[..i])
      {
        assert ids[i..] == [lists[i].id] + ids[i + 1..];
        ghost var before, walk := next, Silence;
        var stop;
        next, stop, walk := ReadOne(lists[i], next, budget, ids[i + 1..], acc');
        ReadsOn(p, before, next, more, walk, ids[..i], lists[i].id, graph.time >= budget.deadline);
        assert ids[..i + 1] == ids[..i] + [lists[i].id];
        ThenAssociates(acc.said, more, walk);
        acc', more := acc'.Hear(walk), more.Then(walk);
        if stop {
          ReadsStop(p, next, more, ids[..i + 1], ids, graph.time >= budget.deadline);
          return;
        }
      }
      assert ids[|lists|..] == [] && ids[..|lists|] == ids;
    }

    /** Ask for the first pages of some lists. */
    method Post(chunk: seq<TaskList>, p: Progress, budget: Budget, ghost rest: seq<string>, ghost acc: Account)
      returns (answered: Result<seq<Option<SubResponse>>, AppError>, generation: nat, ghost more: Log)
      requires cache.Tracked() && graph.log == acc.WholeLog()
      requires Accounted(p, IdsOf(chunk) + rest, acc) && Airborne(cache.world, cache.readAt, acc, p.continuations)
      requires budget.Valid() && Justified(p, acc.said, budget.requestsLeft, graph.time >= budget.deadline, budget.maxPages)
      modifies cache, graph, budget`requestsLeft, budget`requestsUsed
      ensures Onward(budget) && cache.Tracked() && budget.Valid()
      ensures Airborne(cache.world, cache.readAt, acc, p.continuations)
      ensures InFlight(cache.world, cache.readAt, acc, IdsOf(chunk), generation)
      ensures graph.log == acc.Hear(more).WholeLog()
      ensures match answered
              case Ok(responses) => |responses| == |chunk| && more == Answers(IdsOf(chunk), responses)
              case Err(e) => more == Only(BatchFailed(e))
      ensures Justified(p, acc.Hear(more).said, budget.requestsLeft, graph.time >= budget.deadline, budget.maxPages)
      ensures Undisturbed()
      ensures graph.calm ==>
                && answered.Ok? && generation == cache.generation && FirstPages(graph.mailbox, IdsOf(chunk), answered.value)
                && budget.requestsLeft == old(budget.requestsLeft) - 1
    {
      ghost var w, readAt := cache.world, cache.readAt;
      QueueDistinct(p, IdsOf(chunk), rest, acc);
      generation := Generation(IdsOf(chunk));
      ghost var left, overdue := budget.requestsLeft, graph.time >= budget.deadline;
      answered := AskBatch(IdsOf(chunk), budget, generation);
      BatchBegun(w, readAt, cache.world, cache.readAt, p, IdsOf(chunk), rest, acc, generation);
      more := if answered.Ok? then Answers(IdsOf(chunk), answered.value) else Only(BatchFailed(answered.error));
      ThenAssociates(acc.start, acc.said, more);
      JustifiedLater(p, acc.said, left, overdue, budget.maxPages, more, budget.requestsLeft, graph.time >= budget.deadline);
    }

    /** A batch that failed: read one list at a time instead, or stopped. `acc` has
        heard the failure. */
    method Refused(pending: seq<TaskList>, e: AppError, p: Progress, budget: Budget, ghost acc: Account)
      returns (rest: seq<TaskList>, next: Progress, ghost acc': Account, ghost further: Log)
      requires Standing(p, IdsOf(pending), acc, budget)
      requires p.stopped.Complete?
      requires !graph.calm && FellBack(acc.said) && acc.said.LastError() == Some(e)
      modifies cache, graph, budget`requestsLeft, budget`requestsUsed
      ensures !graph.calm
      ensures Onward(budget)
      ensures acc.LeadsTo(acc') && acc' == acc.Hear(further)
      ensures Standing(next, IdsOf(rest), acc', budget)
      ensures BatchEnds(p, next, pending, rest, Err(e), further, graph.time >= budget.deadline)
    {
      further, acc' := Silence, acc;
      if e.Graph? && 400 <= e.status < 500 {
        next, acc', further := Sequential(pending, p, budget, acc);
        rest := [];
        return;
      }
      rest := pending[Min(|pending|, BATCH_MAX)..];
      ErrorJustifies(p, acc.said, e, budget.requestsLeft, graph.time >= budget.deadline, budget.maxPages);
      if e.Throttled? {
        next := p.(stopped := Throttling);
      } else {
        next := p.(stopped := GraphError, failure := Some(e));
      }
      TailAccounted(p, next, pending, acc);
      assert IdsOf(rest) == IdsOf(pending)[Min(|pending|, BATCH_MAX)..];
      TurnGivenUp(acc, IdsOf(pending), Min(|pending|, BATCH_MAX));
    }

    /** A batch that was answered: its failures are only noted. */
    method Answered(
        chunk: seq<TaskList>, responses: seq<Option<SubResponse>>, generation: nat, p: Progress, budget: Budget,
        ghost rest: seq<string>, ghost acc: Account)
      returns (next: Progress)
      requires |responses| == |chunk| && cache.Tracked() && budget.Valid() && p.stopped.Complete?
      requires InTurn(acc, IdsOf(chunk) + rest)
      requires Sound(p, IdsOf(chunk) + rest, acc, graph.calm, graph.mailbox, cache.ttl, cache.tasks)
      requires graph.log == acc.Hear(Answers(IdsOf(chunk), responses)).WholeLog()
      requires Airborne(cache.world, cache.readAt, acc, p.continuations)
      requires InFlight(cache.world, cache.readAt, acc, IdsOf(chunk), generation)
      requires Justified(
                 p, acc.Hear(Answers(IdsOf(chunk), responses)).said, budget.requestsLeft,
                 graph.time >= budget.deadline, budget.maxPages)
      requires graph.calm ==> generation == cache.generation && FirstPages(graph.mailbox, IdsOf(chunk), responses)
      modifies cache, graph`time, graph`calm
      ensures graph.time >= old(graph.time) && acc.LeadsTo(acc.Hear(Answers(IdsOf(chunk), responses)))
      ensures Standing(next, rest, acc.Hear(Answers(IdsOf(chunk), responses)), budget)
      ensures next.stopped == p.stopped && next.failure == p.failure
      ensures graph.calm ==> old(graph.calm) && (next.subFailed ==> p.subFailed)
      ensures graph.calm && chunk != [] ==>
                acc.Hear(Answers(IdsOf(chunk), responses)).Further() || next.continuations != []
    {
      ghost var overdue := graph.time >= budget.deadline;
      next := TakeBatch(chunk, responses, generation, p, rest, acc);
      BatchJustifies(
        p, next, IdsOf(chunk), responses, acc.said,
        budget.requestsLeft, overdue, graph.time >= budget.deadline, budget.maxPages);
    }

    /** The first twenty pending lists go out as one batch. */
    method SendBatch(pending: seq<TaskList>, p: Progress, budget: Budget, ghost acc: Account)
      returns (
        rest: seq<TaskList>, next: Progress, ghost acc': Account,
        ghost answered: Result<seq<Option<SubResponse>>, AppError>, ghost further: Log)
      requires pending != [] && p.stopped.Complete?
      requires Standing(p, IdsOf(pending), acc, budget)
      modifies cache, graph, budget`requestsLeft, budget`requestsUsed
      ensures Onward(budget)
      ensures answered.Ok? ==> |answered.value| == Min(|pending|, BATCH_MAX)
      ensures acc.LeadsTo(acc') && acc' == acc.Hear(Asked(pending, answered, further))
      ensures Standing(next, IdsOf(rest), acc', budget)
      ensures BatchEnds(p, next, pending, rest, answered, further, graph.time >= budget.deadline)
      ensures graph.calm ==>
                && old(graph.calm) && answered.Ok? && (next.subFailed ==> p.subFailed)
                && budget.requestsLeft == old(budget.requestsLeft) - 1
                && (acc'.Further() || next.continuations != [])
    {
      var k := Min(|pending|, BATCH_MAX);
      var chunk := pending[..k];
      assert IdsOf(pending) == IdsOf(chunk) + IdsOf(pending[k..]);
      var r, generation;
      ghost var more;
      r, generation, more := Post(chunk, p, budget, IdsOf(pending[k..]), acc);
      answered, further := r, Silence;
      match r {
        case Ok(responses) =>
          rest, acc' := pending[k..], acc.Hear(more);
          next := Answered(chunk, responses, generation, p, budget, IdsOf(rest), acc);
        case Err(e) =>
          BatchFails(p, IdsOf(pending), acc, e);
          FailureTakesNoTurn(acc, e, IdsOf(pending));
          FailureKeepsAirborne(cache.world, cache.readAt, acc, e, p.continuations);
          rest, next, acc', further := Refused(pending, e, p, budget, acc.Hear(more));
          ThenAssociates(acc.said, more, further);
      }
    }

    /** One turn of the batch loop: what is pending next is nothing, once something
        stopped it. */
    method NextBatch(pending: seq<TaskList>, p: Progress, budget: Budget, ghost acc: Account)
      returns (rest: seq<TaskList>, next: Progress, ghost acc': Account)
      requires pending != [] && p.stopped.Complete?
      requires Standing(p, IdsOf(pending), acc, budget)
      modifies cache, graph, budget`requestsLeft, budget`requestsUsed
      ensures |rest| < |pending|
      ensures Onward(budget)
      ensures acc.LeadsTo(acc') && (next.stopped.Complete? || rest == [])
      ensures Standing(next, IdsOf(rest), acc', budget)
      ensures graph.calm ==> old(graph.calm)
      ensures graph.calm && old(budget.requestsLeft) > 0 ==>
                && next.stopped.Complete? && (next.subFailed ==> p.subFailed)
                && |rest| == Max(|pending| - BATCH_MAX, 0) && budget.requestsLeft == old(budget.requestsLeft) - 1
                && (acc'.Further() || next.continuations != [])
    {
      var expired := graph.Expired(budget);
      var why := if expired then SyncTimeout else if budget.requestsLeft == 0 then RequestBudget else Complete;
      if !why.Complete? {
        rest, next, acc' := [], p.(stopped := why), acc;
        StopsAccounted(p, next, IdsOf(pending), acc);
        SameCalm(p, next, acc, graph.calm, graph.mailbox, cache.ttl, cache.tasks);
        return;
      }
      ghost var answered, further;
      rest, next, acc', answered, further := SendBatch(pending, p, budget, acc);
      if !next.stopped.Complete? {
        StopsAccounted(next, next, IdsOf(rest), acc');
        rest := [];
      }
    }

    /** The batch loop: until nothing is pending, or something stops it. */
    method FetchFirstPages(ordered: seq<TaskList>, known: Known, budget: Budget, ghost entry: Account)
      returns (p: Progress, ghost acc: Account)
      requires Standing(Begin(known), IdsOf(ordered), entry, budget)
      modifies cache, graph, budget`requestsLeft, budget`requestsUsed
      ensures Onward(budget)
      ensures entry.LeadsTo(acc)
      ensures Standing(p, [], acc, budget)
      ensures ordered == [] ==> p == Begin(known) && acc == entry
      ensures graph.calm ==> old(graph.calm)
      ensures graph.calm && ordered != [] ==>
                OnCourse(p, acc, |ordered|, 0, old(budget.requestsLeft), budget.requestsLeft)
    {
      p, acc := Begin(known), entry;
      var pending := ordered;
      while pending != []
        invariant Onward(budget)
        invariant entry.LeadsTo(acc)
        invariant Standing(p, IdsOf(pending), acc, budget)
        invariant p.stopped.Complete? || pending == []
        invariant ordered == [] ==> p == Begin(known) && acc == entry
        invariant graph.calm ==> old(graph.calm)
        invariant graph.calm ==>
                    OnCourse(p, acc, |ordered|, |pending|, old(budget.requestsLeft), budget.requestsLeft)
        invariant |pending| <= |ordered|
        decreases |pending|
      {
        ghost var p0, acc0, k, left := p, acc, |pending|, budget.requestsLeft;
        pending, p, acc := NextBatch(pending, p, budget, acc);
        if graph.calm {
          OneBatchLess(p0, acc0, p, acc, |ordered|, k, |pending|, old(budget.requestsLeft), left, budget.requestsLeft);
        }
      }
      assert IdsOf(pending) == [];
    }

    /** Why a walk that did not finish stopped. */
    method WhyStopped(budget: Budget) returns (stopped: Stopped)
      modifies graph`time, graph`calm
      ensures stopped == if graph.time >= budget.deadline then SyncTimeout
                         else if budget.requestsLeft == 0 then RequestBudget
                         else PageCap
      ensures graph.time >= old(graph.time) && (graph.calm ==> old(graph.calm))
    {
      var expired := graph.Expired(budget);
      stopped := if expired then SyncTimeout else if budget.requestsLeft == 0 then RequestBudget else PageCap;
    }

    /** Read the generation again, for a list that was put by. */
    method Reopen(c: Continuation, ghost others: seq<Continuation>, ghost acc: Account) returns (generation: nat)
      requires cache.Tracked() && Airborne(cache.world, cache.readAt, acc, others)
      requires Flies(FlightOf(cache.world, cache.readAt, c.list.id), acc, c.list.id, c.generation)
      requires c.list.id !in ContinuationIds(others)
      modifies cache, graph`time, graph`calm
      ensures cache.Tracked() && Undisturbed() && generation == cache.generation
      ensures Airborne(cache.world, cache.readAt, acc, others)
      ensures Flies(FlightOf(cache.world, cache.readAt, c.list.id), acc, c.list.id, generation)
      ensures WasReread(FlightOf(cache.world, cache.readAt, c.list.id), c.list.id)
    {
      ghost var w, readAt := cache.world, cache.readAt;
      generation := ReadAgain(c.list.id, acc, c.generation);
      assert forall i | 0 <= i < |others| :: ContinuationIds(others)[i] == others[i].list.id;
      ReadMeanwhile(w, readAt, cache.world, cache.readAt, acc, others, {c.list.id});
    }

    /** Walk one list's further pages, and say why, if they were not all. */
    method Walk(c: Continuation, p: Progress, budget: Budget, ghost acc: Account)
      returns (walked: Result<(seq<Task>, bool), AppError>, why: Stopped, generation: nat, ghost walk: Log)
      requires cache.Tracked() && PutBy(c, acc) && graph.log == acc.WholeLog()
      requires Airborne(cache.world, cache.readAt, acc, p.continuations)
      requires Flies(FlightOf(cache.world, cache.readAt, c.list.id), acc, c.list.id, c.generation)
      requires c.list.id !in ContinuationIds(p.continuations)
      requires budget.Valid() && Justified(p, acc.said, budget.requestsLeft, graph.time >= budget.deadline, budget.maxPages)
      modifies cache, graph, budget`requestsLeft, budget`requestsUsed
      ensures Onward(budget)
      ensures cache.Tracked() && graph.log == acc.Hear(walk).WholeLog() && WalkTells(c, walk, walked)
      ensures Airborne(cache.world, cache.readAt, acc, p.continuations)
      ensures Flies(FlightOf(cache.world, cache.readAt, c.list.id), acc, c.list.id, generation)
      ensures WasReread(FlightOf(cache.world, cache.readAt, c.list.id), c.list.id)
      ensures budget.Valid()
      ensures Justified(p, acc.said.Then(walk), budget.requestsLeft, graph.time >= budget.deadline, budget.maxPages)
      ensures walked.Ok? && !walked.value.1 ==>
                CutShort(why, walk.Size(), budget.requestsLeft, graph.time >= budget.deadline, budget.maxPages)
      ensures Undisturbed()
      ensures graph.calm ==>
                && generation == cache.generation && walked.Ok?
                && graph.Fetched(c.next, walked, old(budget.requestsLeft), budget.maxPages)
    {
      generation := Reopen(c, p.continuations, acc);
      ghost var left, overdue := budget.requestsLeft, graph.time >= budget.deadline;
      MayFollow(c, acc);
      walked, walk := graph.ContinueCollection(c.list.id, c.next, budget);
      ghost var w, readAt := cache.world, cache.readAt;
      Elapse([c.list.id]);
      assert FlightOf(cache.world, cache.readAt, [c.list.id][0]) == FlightOf(w, readAt, c.list.id);
      ReadMeanwhile(w, readAt, cache.world, cache.readAt, acc, p.continuations, {});
      ThenAssociates(acc.start, acc.said, walk);
      why := Complete;
      if walked.Ok? && !walked.value.1 {
        why := WhyStopped(budget);
      }
      JustifiedLater(p, acc.said, left, overdue, budget.maxPages, walk, budget.requestsLeft, graph.time >= budget.deadline);
    }

    /** A continuation as it is taken up, out of what is still put by. */
    ghost predicate Taken(p: Progress, c: Continuation, acc: Account, budget: Budget)
      reads cache, graph, budget
    {
      && cache.Tracked() && budget.Valid() && graph.log == acc.WholeLog() && Resumable(p, c, acc)
      && Airborne(cache.world, cache.readAt, acc, p.continuations)
      && Flies(FlightOf(cache.world, cache.readAt, c.list.id), acc, c.list.id, c.generation)
      && Calmly(p, acc, graph.calm, graph.mailbox, cache.ttl, cache.tasks)
      && (graph.calm ==> StartsWell(c, graph.mailbox))
      && Justified(p, acc.said, budget.requestsLeft, graph.time >= budget.deadline, budget.maxPages)
    }

    lemma FirstTaken(p: Progress, acc: Account, budget: Budget)
      requires Standing(p, [], acc, budget) && p.continuations != []
      ensures Taken(p.(continuations := p.continuations[1..]), p.continuations[0], acc, budget)
    {
      FirstPutBy(p, acc);
      FirstAirborne(cache.world, cache.readAt, acc, p.continuations);
      FirstCalm(p, acc, graph.calm, graph.mailbox, cache.ttl, cache.tasks);
    }

    /** And what it came to: its tasks, and the generation they are to be stored under. */
    ghost predicate Resumed(
      p: Progress, c: Continuation, tasks: seq<Task>, complete: bool, generation: nat, acc: Account, walk: Log)
      reads cache, graph
    {
      && cache.Tracked() && graph.log == acc.Hear(walk).WholeLog() && Keepable(p, c, acc, walk, tasks, complete)
      && Airborne(cache.world, cache.readAt, acc, p.continuations)
      && Flies(FlightOf(cache.world, cache.readAt, c.list.id), acc, c.list.id, generation)
      && Calmly(p, acc, graph.calm, graph.mailbox, cache.ttl, cache.tasks)
      && (graph.calm && complete ==>
            && c.list.id in graph.mailbox && tasks == Flat(graph.mailbox[c.list.id])
            && generation == cache.generation)
    }

    /** Take up one continuation, unless something stopped the call: its tasks so far,
        whether they are all, and what stopped the walk if they are not. */
    method Resume(c: Continuation, p: Progress, budget: Budget, ghost acc: Account)
      returns (next: Progress, tasks: seq<Task>, complete: bool, generation: nat, ghost walk: Log)
      requires Taken(p, c, acc, budget)
      modifies cache, graph, budget`requestsLeft, budget`requestsUsed
      ensures Onward(budget) && budget.Valid()
      ensures Resumed(next, c, tasks, complete, generation, acc, walk)
      ensures p.stopped.Complete? ==> WasReread(FlightOf(cache.world, cache.readAt, c.list.id), c.list.id)
      ensures next.known == p.known && next.continuations == p.continuations
      ensures Justified(next, acc.said.Then(walk), budget.requestsLeft, graph.time >= budget.deadline, budget.maxPages)
      ensures WalkEnds(p, next, c, walk, budget.requestsLeft, graph.time >= budget.deadline, budget.maxPages)
      ensures graph.calm ==> old(graph.calm)
      ensures graph.calm && p.stopped.Complete?
              && HasRoom(c, graph.mailbox, old(budget.requestsLeft), budget.maxPages) ==>
                complete
    {
      next, tasks, complete, generation, walk := p, c.tasks, false, c.generation, Silence;
      if p.stopped.Complete? {
        var walked, why;
        walked, why, generation, walk := Walk(c, p, budget, acc);
        next := AfterWalk(p, walked, why);
        var kept := WalkedTasks(c, walked);
        tasks, complete := kept.0, kept.1;
        WalkJudged(p, c, acc, walk, walked, why, budget.requestsLeft, graph.time >= budget.deadline, budget.maxPages);
        WalkMayBeKept(p, next, c, acc, walk, walked);
        if graph.calm {
          SameCalm(p, next, acc, true, graph.mailbox, cache.ttl, cache.tasks);
          WalkedCalmly(graph, c, walked, old(budget.requestsLeft), budget.maxPages);
        }
      }
    }

    /** Keep what a continuation came to. */
    method KeepWalked(
        p: Progress, c: Continuation, tasks: seq<Task>, complete: bool, generation: nat, ghost acc: Account, ghost walk: Log)
      returns (next: Progress)
      requires Resumed(p, c, tasks, complete, generation, acc, walk)
      modifies cache, graph`time, graph`calm
      ensures cache.Tracked() && next == Kept(p, c.list.id, tasks, complete) && graph.time >= old(graph.time)
      ensures Airborne(cache.world, cache.readAt, acc.Hear(walk), next.continuations)
      ensures Accounted(next, [], acc.Hear(walk)) && acc.LeadsTo(acc.Hear(walk))
      ensures Calmly(next, acc.Hear(walk), graph.calm, graph.mailbox, cache.ttl, cache.tasks)
      ensures graph.calm ==> old(graph.calm)
    {
      next := KeepHeard(p, c.list.id, tasks, complete, generation, [], acc, walk, Silence);
    }

    /** The rest of one long list, or what there is of it once something stopped. */
    method WalkOn(p: Progress, budget: Budget, ghost acc: Account)
      returns (next: Progress, ghost walk: Log)
      requires Standing(p, [], acc, budget)
      requires p.continuations != []
      modifies cache, graph, budget`requestsLeft, budget`requestsUsed
      ensures Onward(budget)
      ensures acc.LeadsTo(acc.Hear(walk))
      ensures Standing(next, [], acc.Hear(walk), budget)
      ensures WalkEnds(p, next, p.continuations[0], walk, budget.requestsLeft, graph.time >= budget.deadline, budget.maxPages)
      ensures next.continuations == p.continuations[1..]
      ensures graph.calm ==> old(graph.calm)
      ensures graph.calm && p.stopped.Complete?
              && HasRoom(p.continuations[0], graph.mailbox, old(budget.requestsLeft), budget.maxPages) ==>
                acc.Hear(walk).Walked(p.continuations[0].list.id)
    {
      var c, rest := p.continuations[0], p.(continuations := p.continuations[1..]);
      FirstTaken(p, acc, budget);
      var walked, tasks, complete, generation;
      walked, tasks, complete, generation, walk := Resume(c, rest, budget, acc);
      ghost var overdue := graph.time >= budget.deadline;
      TurnKept(acc, walk, c.list.id, []);
      next := KeepWalked(walked, c, tasks, complete, generation, acc, walk);
      Continued(
        p, walked, next, acc, walk, tasks, complete,
        budget.requestsLeft, overdue, graph.time >= budget.deadline, budget.maxPages);
    }

    /** All the continuations, one list at a time. */
    method WalkAll(p: Progress, budget: Budget, ghost acc: Account) returns (next: Progress, ghost acc': Account)
      requires Standing(p, [], acc, budget)
      modifies cache, graph, budget`requestsLeft, budget`requestsUsed
      ensures Onward(budget) && acc.LeadsTo(acc') && next.continuations == []
      ensures Standing(next, [], acc', budget)
      ensures p.continuations == [] ==> next == p && acc' == acc
      ensures graph.calm ==> old(graph.calm)
      ensures graph.calm && p.stopped.Complete? && p.continuations != []
              && HasRoom(p.continuations[0], graph.mailbox, old(budget.requestsLeft), budget.maxPages) ==>
                acc'.Further()
    {
      next, acc' := p, acc;
      while next.continuations != []
        invariant Onward(budget) && acc.LeadsTo(acc')
        invariant Standing(next, [], acc', budget)
        invariant graph.calm ==> old(graph.calm)
        invariant |next.continuations| < |p.continuations|
                  || (next == p && acc' == acc && budget.requestsLeft == old(budget.requestsLeft))
        invariant graph.calm && p.stopped.Complete? && |next.continuations| < |p.continuations|
                  && HasRoom(p.continuations[0], graph.mailbox, old(budget.requestsLeft), budget.maxPages) ==>
                    acc'.Further()
        decreases |next.continuations|
      {
        ghost var walk, before := Silence, acc';
        next, walk := WalkOn(next, budget, acc');
        acc' := acc'.Hear(walk);
        assert before.Further() ==> acc'.Further();
      }
    }

    /** Which lists have an entry, however old. */
    method Warm() returns (keys: set<string>)
      requires cache.Tracked()
      modifies this`warmed, cache, graph`time, graph`calm
      ensures cache.Tracked() && Undisturbed() && Aside({})
      ensures keys == cache.tasks.Keys && warmed == old(warmed) + [keys]
    {
      Others();
      keys := cache.tasks.Keys;
      warmed := warmed + [keys];
    }

    /** What is stale is to be asked for by rank, as the lists that have an entry were then. */
    twostate predicate Planned(lists: seq<TaskList>, acc: Account)
      reads this`warmed
    {
      && warmed != [] && warmed == old(warmed) + [warmed[|warmed| - 1]]
      && acc.plan == IdsOf(Prioritise(lists, acc.ready, warmed[|warmed| - 1], lower))
    }

    /** What is fresh, and the queue of what is not. */
    method LookUp(lists: seq<TaskList>) returns (known: Known, ordered: seq<TaskList>, ghost acc: Account, ghost look: Look)
      requires cache.Tracked() && Distinct(IdsOf(lists))
      modifies this`looks, this`warmed, cache, graph`time, graph`calm
      ensures looks == old(looks) + [look] && old(graph.time) <= look.now <= graph.time
      ensures acc == Account(IdSet(lists), look.Shows(IdSet(lists), cache.ttl), IdsOf(ordered), graph.log, Silence)
      ensures known == acc.ready && Planned(lists, acc) && InTurn(acc, IdsOf(ordered))
      ensures |ordered| <= |lists| && (ordered == [] <==> forall i | 0 <= i < |lists| :: acc.OnEntry(lists[i].id))
      ensures cache.Tracked() && graph.log == acc.WholeLog()
      ensures Airborne(cache.world, cache.readAt, acc, [])
      ensures Sound(Begin(known), IdsOf(ordered), acc, graph.calm, graph.mailbox, cache.ttl, cache.tasks)
      ensures graph.calm ==> old(graph.calm) && acc.Entry() == old(CompleteIn(lists, cache.tasks))
    {
      known, look := FreshEntries(lists);
      var warm := Warm();
      ordered := Prioritise(lists, known, warm, lower);
      PrioritisedLists(lists, known, warm, lower);
      acc := Account(IdSet(lists), known, IdsOf(ordered), graph.log, Silence);
      PlanIsInTurn(acc);
      BeginsAccounted(lists, known, ordered, acc.plan, graph.log);
      NothingQueued(lists, known, ordered, acc);
      NothingAirborne(cache.world, cache.readAt, acc);
      if graph.calm {
        AllFreshInCalm(lists, acc, look, cache.ttl);
      }
    }

    /** Everything between the two clamps of the deadline. */
    method Refill(lists: seq<TaskList>, budget: Budget) returns (p: Progress, ghost acc: Account, ghost look: Look)
      requires cache.Tracked() && budget.Valid() && Distinct(IdsOf(lists))
      modifies this`looks, this`warmed, cache, graph, budget`requestsLeft, budget`requestsUsed
      ensures Onward(budget) && p.continuations == [] && (p.stopped.Complete? ==> !p.subFailed)
      ensures Planned(lists, acc)
      ensures looks == old(looks) + [look] && old(graph.time) <= look.now <= graph.time
      ensures acc.all == IdSet(lists) && acc.ready == look.Shows(IdSet(lists), cache.ttl)
      ensures acc.start == old(graph.log) && Standing(p, [], acc, budget)
      ensures (forall i | 0 <= i < |lists| :: acc.OnEntry(lists[i].id)) ==> acc.said == Silence
      ensures graph.calm ==> old(graph.calm) && acc.Entry() == old(CompleteIn(lists, cache.tasks))
      ensures graph.calm && acc.Entry() != acc.all
              && (exists longest :: Roomy(lists, old(budget.requestsLeft), budget.maxPages, graph.mailbox, longest)) ==>
                acc.Further()
    {
      var known, ordered;
      ghost var begun;
      known, ordered, begun, look := LookUp(lists);
      AllOnEntry(lists, begun);
      p, acc := FetchAll(lists, ordered, known, budget, begun);
    }

    /** First pages, then the rest of each long list. */
    method FetchAll(
        ghost lists: seq<TaskList>, ordered: seq<TaskList>, known: Known, budget: Budget, ghost entry: Account)
      returns (p: Progress, ghost acc: Account)
      requires Standing(Begin(known), IdsOf(ordered), entry, budget) && |ordered| <= |lists|
      modifies cache, graph, budget`requestsLeft, budget`requestsUsed
      ensures Onward(budget) && p.continuations == [] && (p.stopped.Complete? ==> !p.subFailed)
      ensures entry.LeadsTo(acc) && Standing(p, [], acc, budget) && (ordered == [] ==> acc == entry)
      ensures graph.calm ==> old(graph.calm)
      ensures graph.calm && ordered != []
              && (exists longest :: Roomy(lists, old(budget.requestsLeft), budget.maxPages, graph.mailbox, longest)) ==>
                acc.Further()
    {
      p, acc := FetchFirstPages(ordered, known, budget, entry);
      ghost var before, left := acc, budget.requestsLeft;
      ghost var roomy := graph.calm && exists longest ::
        Roomy(lists, old(budget.requestsLeft), budget.maxPages, graph.mailbox, longest);
      if roomy && p.continuations != [] {
        RoomForOne(lists, |ordered|, old(budget.requestsLeft), budget.maxPages, graph.mailbox);
        FirstCalm(p, acc, true, graph.mailbox, cache.ttl, cache.tasks);
        RoomForFirst(p.continuations[0], |ordered|, old(budget.requestsLeft), left, budget.maxPages, graph.mailbox);
      }
      p, acc := WalkAll(p, budget, acc);
      assert before.Further() ==> acc.Further();
      p := Finished(p, budget, acc);
    }

    /** A failed sub-request is the reason, if there is no other. */
    method Finished(p: Progress, ghost budget: Budget, ghost acc: Account) returns (next: Progress)
      requires Standing(p, [], acc, budget)
      ensures Standing(next, [], acc, budget) && (next.stopped.Complete? ==> !next.subFailed)
      ensures next.continuations == p.continuations
    {
      next := p;
      if p.stopped.Complete? && p.subFailed {
        next := p.(stopped := GraphError);
        SameAccount(p, next, [], acc);
        SameCalm(p, next, acc, graph.calm, graph.mailbox, cache.ttl, cache.tasks);
      }
    }

    /** The whole answer, exactly if every list is fresh and complete. */
    method FromCache(lists: seq<TaskList>) returns (o: Option<SyncOutcome>, ghost known: Known, ghost look: Look)
      requires cache.Tracked() && Distinct(IdsOf(lists))
      modifies this`looks, cache, graph`time, graph`calm
      ensures cache.Tracked() && Undisturbed()
      ensures looks == old(looks) + [look] && old(graph.time) <= look.now <= graph.time
      ensures known == look.Shows(IdSet(lists), cache.ttl)
      ensures o.Some? <==> forall i | 0 <= i < |lists| :: IsDone(known, lists[i])
      ensures o.Some? ==>
                var acc := Account(IdSet(lists), known, [], graph.log, Silence);
                Concluded(lists, Ok(o.value), Begin(known), acc) && acc.Entry() == acc.Done() == acc.all
      ensures o.Some? && graph.calm ==> CompleteIn(lists, cache.tasks) == IdSet(lists)
    {
      var entries;
      entries, look := FreshEntries(lists);
      known := entries;
      assert forall i | 0 <= i < |lists| :: lists[i] in lists;
      if !forall l | l in lists :: IsDone(entries, l) {
        return None, known, look;
      }
      var outcome := Report(lists, entries, Complete);
      AllAtHand(lists, known, Account(IdSet(lists), known, [], graph.log, Silence), outcome);
      return Some(outcome), known, look;
    }

    /** The rest of the sync, once something was found stale. */
    method RefillAndConclude(lists: seq<TaskList>, budget: Budget)
      returns (r: Result<SyncOutcome, AppError>, ghost p: Progress, ghost acc: Account, ghost look: Look)
      requires cache.Tracked() && budget.Valid() && Distinct(IdsOf(lists))
      modifies this`looks, this`warmed, cache, graph, budget`requestsLeft, budget`requestsUsed
      ensures cache.Tracked() && budget.Valid() && graph.time >= old(graph.time)
      ensures Onward(budget)
      ensures looks == old(looks) + [look] && old(graph.time) <= look.now <= graph.time
      ensures acc.ready == look.Shows(IdSet(lists), cache.ttl)
      ensures acc.start == old(graph.log) && graph.log == acc.WholeLog() && Concluded(lists, r, p, acc)
      ensures ReadFirst(cache.world, cache.readAt, acc) && Planned(lists, acc) && InTurn(acc, [])
      ensures Justified(p, acc.said, budget.requestsLeft, graph.time >= budget.deadline, budget.maxPages)
      ensures graph.calm ==> old(graph.calm) && acc.Entry() == CompleteIn(lists, old(cache.tasks))
      ensures graph.calm ==> CalmlyConcluded(lists, r, acc, graph.mailbox, cache.tasks, cache.ttl)
      ensures graph.calm && acc.Entry() != acc.all
              && (exists longest :: Roomy(lists, old(budget.requestsLeft), budget.maxPages, graph.mailbox, longest)) ==>
                acc.Entry() < acc.Done()
    {
      var progress;
      progress, acc, look := Refill(lists, budget);
      p := progress;
      AirborneMeans(cache.world, cache.readAt, acc, p.continuations);
      r := Conclude(lists, progress, acc);
      if graph.calm {
        CalmlyMeans(p, acc, graph.mailbox, cache.ttl, cache.tasks);
        CalmConcludes(lists, r, p, acc, graph.mailbox, cache.tasks, cache.ttl);
      }
      if acc.Further() {
        FurtherIsMore(p, acc);
      }
    }

    /** The sync under a deadline of its own. */
    method SyncWithin(lists: seq<TaskList>, budget: Budget)
      returns (r: Result<SyncOutcome, AppError>, ghost p: Progress, ghost acc: Account, ghost seen: seq<Look>)
      requires cache.Tracked() && budget.Valid() && Distinct(IdsOf(lists))
      modifies this`looks, this`warmed, cache, graph, budget`requestsLeft, budget`requestsUsed
      ensures cache.Tracked() && budget.Valid() && Onward(budget)
      ensures looks == old(looks) + seen && 1 <= |seen| <= 2
      ensures old(graph.time) <= seen[|seen| - 1].now <= graph.time
      ensures acc.ready == seen[|seen| - 1].Shows(IdSet(lists), cache.ttl)
      ensures acc.start == old(graph.log) && graph.log == old(graph.log).Then(acc.said)
      ensures Concluded(lists, r, p, acc) && ReadFirst(cache.world, cache.readAt, acc)
      ensures InTurn(acc, []) && if |seen| == 2 then Planned(lists, acc) else acc.said == Silence
      ensures Justified(p, acc.said, budget.requestsLeft, graph.time >= budget.deadline, budget.maxPages)
      ensures graph.calm ==> old(graph.calm) && acc.Entry() == old(CompleteIn(lists, cache.tasks))
      ensures graph.calm ==> CalmlyConcluded(lists, r, acc, graph.mailbox, cache.tasks, cache.ttl)
      ensures graph.calm && acc.Entry() != acc.all
              && (exists longest :: Roomy(lists, old(budget.requestsLeft), budget.maxPages, graph.mailbox, longest)) ==>
                acc.Entry() < acc.Done()
    {
      var ready: Option<SyncOutcome>;
      ghost var known, look;
      ready, known, look := FromCache(lists);
      seen := [look];
      if ready.Some? {
        r, p, acc := Ok(ready.value), Begin(known), Account(IdSet(lists), known, [], graph.log, Silence);
        PlanIsInTurn(acc);
        return;
      }
      r, p, acc, look := RefillAndConclude(lists, budget);
      seen := seen + [look];
    }

    /** The bounded sync over `lists`. `acc` is what the call looked at and what it
        heard, `p` what it made of that. */
    method SyncLists(lists: seq<TaskList>, budget: Budget)
      returns (r: Result<SyncOutcome, AppError>, ghost p: Progress, ghost acc: Account, ghost seen: seq<Look>)
      requires cache.Tracked() && budget.Valid() && Distinct(IdsOf(lists))
      modifies this`looks, this`warmed, cache, graph, budget
      ensures cache.Tracked() && budget.Valid() && budget.maxPages == old(budget.maxPages) && Onward(budget)
      // The caller's deadline is back.
      ensures budget.deadline == old(budget.deadline)
      // Every exchange of the call is in the account, and so are the lists that were
      // fresh at its last look.
      ensures looks == old(looks) + seen && 1 <= |seen| <= 2
      ensures old(graph.time) <= seen[|seen| - 1].now <= graph.time
      ensures acc.ready == seen[|seen| - 1].Shows(IdSet(lists), cache.ttl)
      ensures acc.start == old(graph.log) && graph.log == old(graph.log).Then(acc.said)
      ensures Concluded(lists, r, p, acc)
      // What it fetched, it fetched after it had read the generation to store it under.
      ensures ReadFirst(cache.world, cache.readAt, acc)
      // And it asked for the lists by rank, and then by name.
      ensures InTurn(acc, []) && if |seen| == 2 then Planned(lists, acc) else acc.said == Silence
      // The reason is the truth.
      ensures Justified(
                p, acc.said, budget.requestsLeft, graph.time >= Min(old(graph.time) + syncTimeout, budget.deadline),
                budget.maxPages)
      // A calm call gets further, if anything was incomplete and there was room.
      ensures graph.calm ==> old(graph.calm) && acc.Entry() == old(CompleteIn(lists, cache.tasks))
      ensures graph.calm ==> CalmlyConcluded(lists, r, acc, graph.mailbox, cache.tasks, cache.ttl)
      ensures graph.calm && acc.Entry() != acc.all
              && (exists longest :: Roomy(lists, old(budget.requestsLeft), old(budget.maxPages), graph.mailbox, longest)) ==>
                acc.Entry() < acc.Done()
    {
      var now := graph.Now();
      var outer := budget.deadline;
      budget.deadline := Min(now + syncTimeout, outer);
      r, p, acc, seen := SyncWithin(lists, budget);
      ghost var overdue := graph.time >= budget.deadline;
      budget.deadline := outer;
      JustifiedLater(
        p, acc.said, budget.requestsLeft, overdue, budget.maxPages,
        Silence, budget.requestsLeft, graph.time >= Min(old(graph.time) + syncTimeout, outer));
    }

    /** One tool call: a budget of its own. In a calm run with room, it finishes or
        gets further. */
    method OneCall(lists: seq<TaskList>, maxPages: nat, deadlineMs: nat, ghost longest: nat)
      returns (r: Result<SyncOutcome, AppError>, ghost done: set<string>)
      requires cache.Tracked() && cache.ttl > 0 && Distinct(IdsOf(lists)) && maxPages <= U32_MAX
      requires Roomy(lists, maxPages, maxPages, graph.mailbox, longest)
      modifies this`looks, this`warmed, cache, graph
      ensures cache.Tracked() && done <= IdSet(lists)
      ensures r.Ok? ==> (r.value.coverage.IsComplete() <==> done == IdSet(lists))
      ensures graph.calm ==>
                && old(graph.calm) && r.Ok? && old(CompleteIn(lists, cache.tasks)) <= done <= CompleteIn(lists, cache.tasks)
                && (done == IdSet(lists) || |old(CompleteIn(lists, cache.tasks))| < |done|)
    {
      ghost var before := CompleteIn(lists, cache.tasks);
      var now := graph.Now();
      var budget := new Budget.ForTool(now, deadlineMs, maxPages);
      ghost var p, acc, seen;
      r, p, acc, seen := SyncLists(lists, budget);
      done := acc.Done();
      Larger(acc.Entry(), acc.Done());
      if r.Ok? {
        AccountedMeans(p, [], acc);
        DoneIsShown(lists, r.value, p, acc);
      }
      assert graph.calm ==> acc.Entry() == before;
    }

    /** Calling again with the same arguments: in a calm run with room for one list's
        pages, as many calls as there are lists always finish. */
    method SyncUntilComplete(lists: seq<TaskList>, maxPages: nat, deadlineMs: nat, ghost longest: nat)
      returns (r: Result<SyncOutcome, AppError>)
      requires cache.Tracked() && cache.ttl > 0 && Distinct(IdsOf(lists)) && maxPages <= U32_MAX && lists != []
      requires Roomy(lists, maxPages, maxPages, graph.mailbox, longest)
      modifies this`looks, this`warmed, cache, graph
      ensures cache.Tracked()
      ensures graph.calm ==> r.Ok? && r.value.coverage.IsComplete()
    {
      IdSetSize(lists);
      ghost var done: set<string> := {};
      r := Err(Exhausted);
      for i := 0 to |lists|
        invariant cache.Tracked() && done <= IdSet(lists)
        invariant graph.calm && i > 0 ==> r.Ok?
        invariant graph.calm ==> done <= CompleteIn(lists, cache.tasks) && (done == IdSet(lists) || |done| >= i)
        invariant r.Ok? && done == IdSet(lists) ==> r.value.coverage.IsComplete()
      {
        ghost var before, was := done, CompleteIn(lists, cache.tasks);
        r, done := OneCall(lists, maxPages, deadlineMs, longest);
        if graph.calm {
          Larger(before, was);
          Larger(was, done);
        }
      }
      Larger(done, IdSet(lists));
    }
  }
}
