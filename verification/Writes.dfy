/**
 * The write tools: every id is placed in a list before the first mutation, and
 * every item of a batch ends in exactly one of its result arrays.
 */
module Writes {
  import opened Wrappers
  import opened Models
  import opened Transport
  import opened Retry
  import opened SyncCoverage
  import Exchanges
  import opened SyncAccount
  import Sync
  import Cache
  import Coherence

  // -------------------------------------------------------------------------
  // Result arrays

  datatype ErrorCode = ListNotFound | SyncIncomplete | SyncFailed(error: AppError) | Internal

  /** Where one item of a batch ends. */
  datatype Place =
    | Unresolved(code: ErrorCode)
    | Late
    | NotNeeded
    | Sent
    | Absent
    | Rejected(error: AppError)

  /** The result arrays: sent, already absent, not needed (unchanged or refused), failed. */
  datatype Kind = SentArray | AbsentArray | NotNeededArray | FailedArray

  function KindOf(p: Place): Kind {
    match p
    case Sent => SentArray
    case Absent => AbsentArray
    case NotNeeded => NotNeededArray
    case _ => FailedArray
  }

  datatype Entry = Entry(index: nat, id: string, place: Place)

  /** The array of one kind, after so many items. */
  function Collected(ids: seq<string>, places: seq<Place>, kind: Kind): seq<Entry>
    requires |places| <= |ids|
  {
    if places == [] then []
    else
      var i := |places| - 1;
      Collected(ids, places[..i], kind)
      + (if KindOf(places[i]) == kind then [Entry(i, ids[i], places[i])] else [])
  }

  predicate InOrder(a: seq<Entry>) {
    forall k, l | 0 <= k < l < |a| :: a[k].index < a[l].index
  }

  /** The four arrays of a report. */
  datatype Report = Report(sent: seq<Entry>, absent: seq<Entry>, notNeeded: seq<Entry>, failed: seq<Entry>) {
    function Push(e: Entry): Report {
      match KindOf(e.place)
      case SentArray => this.(sent := sent + [e])
      case AbsentArray => this.(absent := absent + [e])
      case NotNeededArray => this.(notNeeded := notNeeded + [e])
      case FailedArray => this.(failed := failed + [e])
    }

    function Of(kind: Kind): seq<Entry> {
      match kind
      case SentArray => sent
      case AbsentArray => absent
      case NotNeededArray => notNeeded
      case FailedArray => failed
    }
  }

  const EMPTY_REPORT := Report([], [], [], [])

  ghost predicate Reports(r: Report, ids: seq<string>, places: seq<Place>)
    requires |places| <= |ids|
  {
    && r.sent == Collected(ids, places, SentArray)
    && r.absent == Collected(ids, places, AbsentArray)
    && r.notNeeded == Collected(ids, places, NotNeededArray)
    && r.failed == Collected(ids, places, FailedArray)
  }

  lemma PushReports(r: Report, ids: seq<string>, places: seq<Place>, place: Place)
    requires |places| < |ids| && Reports(r, ids, places)
    ensures Reports(r.Push(Entry(|places|, ids[|places|], place)), ids, places + [place])
  {
    assert (places + [place])[..|places|] == places;
  }

  /** Items of one kind, each under its own index. */
  ghost predicate Only(a: seq<Entry>, ids: seq<string>, places: seq<Place>, kind: Kind)
    requires |places| <= |ids|
  {
    forall k | 0 <= k < |a| ::
      a[k].index < |places| && a[k] == Entry(a[k].index, ids[a[k].index], places[a[k].index]) && KindOf(a[k].place) == kind
  }

  /** Nothing of an array's kind is left out of it. */
  lemma {:induction false} CollectedAll(ids: seq<string>, places: seq<Place>, kind: Kind, i: nat)
    requires |places| <= |ids| && i < |places| && KindOf(places[i]) == kind
    ensures Entry(i, ids[i], places[i]) in Collected(ids, places, kind)
    decreases |places|
  {
    if i < |places| - 1 {
      CollectedAll(ids, places[..|places| - 1], kind, i);
    }
  }

  /** An array holds items of its kind only, in input order. */
  lemma {:induction false} CollectedInOrder(ids: seq<string>, places: seq<Place>, kind: Kind)
    requires |places| <= |ids|
    ensures InOrder(Collected(ids, places, kind)) && Only(Collected(ids, places, kind), ids, places, kind)
  {
    if places != [] {
      CollectedInOrder(ids, places[..|places| - 1], kind);
    }
  }

  lemma {:induction false} CollectedSizes(ids: seq<string>, places: seq<Place>)
    requires |places| <= |ids|
    ensures |Collected(ids, places, SentArray)| + |Collected(ids, places, AbsentArray)|
            + |Collected(ids, places, NotNeededArray)| + |Collected(ids, places, FailedArray)| == |places|
  {
    if places != [] {
      CollectedSizes(ids, places[..|places| - 1]);
    }
  }

  lemma ArrayIsCollected(r: Report, ids: seq<string>, places: seq<Place>, kind: Kind)
    requires |places| == |ids| && Reports(r, ids, places)
    ensures r.Of(kind) == Collected(ids, places, kind)
  {
    match kind
    case SentArray =>
    case AbsentArray =>
    case NotNeededArray =>
    case FailedArray =>
  }

  /** Each array holds exactly the items of its kind, each under its own index and in
      input order; so every index is in exactly one array, and none is lost. */
  lemma EveryItemLandsOnce(r: Report, ids: seq<string>, places: seq<Place>)
    requires |places| == |ids| && Reports(r, ids, places)
    ensures |r.sent| + |r.absent| + |r.notNeeded| + |r.failed| == |ids|
    ensures forall kind :: InOrder(r.Of(kind)) && Only(r.Of(kind), ids, places, kind)
    ensures forall i | 0 <= i < |ids| :: Entry(i, ids[i], places[i]) in r.Of(KindOf(places[i]))
  {
    CollectedSizes(ids, places);
    forall kind
      ensures InOrder(r.Of(kind)) && Only(r.Of(kind), ids, places, kind)
    {
      ArrayIsCollected(r, ids, places, kind);
      CollectedInOrder(ids, places, kind);
    }
    forall i | 0 <= i < |ids|
      ensures Entry(i, ids[i], places[i]) in r.Of(KindOf(places[i]))
    {
      ArrayIsCollected(r, ids, places, KindOf(places[i]));
      CollectedAll(ids, places, KindOf(places[i]), i);
    }
  }

  // -------------------------------------------------------------------------
  // When a write drops its list

  /** What the source calls a transport error: no usable answer, or none paid for. */
  predicate IsTransport(e: AppError) {
    e.TransportFailed? || e.Exhausted? || e.BadBody? || e.OffOrigin? || e.TokenUnreachable?
  }

  /** Success, or an outcome that is not known. */
  predicate Invalidates(e: Option<AppError>) {
    match e
    case None => true
    case Some(Graph(status)) => status >= 500
    case Some(error) => IsTransport(error) || error.Throttled?
  }

  function ErrorOf<T>(r: Result<T, AppError>): Option<AppError> {
    match r
    case Ok(_) => None
    case Err(e) => Some(e)
  }

  /** A write that was made, or may have been, has dropped its list. */
  predicate Drops(p: Place) {
    p.Sent? || p.Absent? || (p.Rejected? && Invalidates(Some(p.error)))
  }

  predicate Attempted(p: Place) {
    p.Sent? || p.Absent? || p.Rejected?
  }

  /** What was done for one item: all the client did, and for an item that was
      attempted, the answers and waits of its send, and how that ended. */
  datatype Deed = Deed(did: seq<Event>, trail: Trail, sent: Result<nat, AppError>)

  const NO_DEED := Deed([], Retry.START, Err(Exhausted))

  /** Where an item lands, given how its send ended. A body that does not parse is an
      error of its own, and a DELETE of a task that is gone is none. */
  predicate Lands(m: Method, sent: Result<nat, AppError>, p: Place) {
    match p
    case Sent => sent.Ok?
    case Absent => m.Delete? && sent == Err(Graph(404))
    case Rejected(e) => if sent.Ok? then !m.Delete? && e.BadBody? else sent == Err(e) && !(m.Delete? && e == Graph(404))
    case _ => false
  }

  /** An item is attempted only after its own look at the clock, which was before the
      deadline, and all that is done for it is one send of its own call; a late one was
      looked at too late; and for any other nothing is done. */
  ghost predicate Handled(call: Call, p: Place, d: Deed, deadline: int, maxAttempts: nat) {
    if Attempted(p) then
      && d.did != [] && d.did[0].Read? && d.did[0].at < deadline
      && Sends(d.did[1..], call, d.trail, d.sent, deadline, maxAttempts)
      && Lands(call.m, d.sent, p)
    else if p.Late? then |d.did| == 1 && d.did[0].Read? && d.did[0].at >= deadline
    else d.did == []
  }

  /** An answer after which a write may have been made. */
  predicate MayApply(o: Outcome) {
    o.NoResponse? || Success(o.status) || o.status >= 500
  }

  predicate MayHaveLanded(calls: seq<Outcome>) {
    exists i | 0 <= i < |calls| :: MayApply(calls[i])
  }

  /** An answer that may have been an application and is repeated all the same. */
  predicate Doubtful(m: Method, o: Outcome) {
    match o
    case Response(status, _) => status == 503 || status == 504 || (m.Delete? && (status == 500 || status == 502))
    case NoResponse(failure) => m.Delete? && failure != BodyTooLarge
  }

  /** An end that is taken for a refusal. */
  predicate Spared(p: Place) {
    p.Rejected? && (p.error.NoToken? || (p.error.Graph? && p.error.status < 500))
  }

  /** Exactly which writes may have been made and yet leave their list in the cache:
      those repeated after an answer in doubt, and then refused, or left without a
      token. */
  lemma KeptAlthoughLandedIff(call: Call, p: Place, d: Deed, deadline: int, maxAttempts: nat)
    requires !call.m.Get? && Attempted(p) && Handled(call, p, d, deadline, maxAttempts)
    ensures MayHaveLanded(d.trail.calls) && !Drops(p) <==>
              Spared(p) && exists i | 0 <= i < |d.trail.calls| :: Doubtful(call.m, d.trail.calls[i])
  {
    if Spared(p) {
      forall i | 0 <= i < |d.trail.calls|
        ensures MayApply(d.trail.calls[i]) <==> Doubtful(call.m, d.trail.calls[i])
      {
        SparedCall(call.m, p, d, maxAttempts, i);
      }
    }
  }

  lemma SparedCall(m: Method, p: Place, d: Deed, maxAttempts: nat, i: nat)
    requires !m.Get? && Spared(p) && Lands(m, d.sent, p) && Proper(m, d.trail.calls, d.trail.waits, d.sent, maxAttempts)
    requires i < |d.trail.calls|
    ensures MayApply(d.trail.calls[i]) <==> Doubtful(m, d.trail.calls[i])
  {
    if p.error.NoToken? {
      RepeatableAt(m, d.trail.calls, i);
    } else if i + 1 < |d.trail.calls| {
      RepeatableAt(m, d.trail.calls[..|d.trail.calls| - 1], i);
    }
  }

  /** A write that a 503 may have let through, refused when it was repeated: the list
      stays. */
  lemma RepeatedThenRefused(call: Call) returns (d: Deed)
    requires call.m == Patch
    ensures Handled(call, Rejected(Graph(404)), d, 10_000, 2) && !Drops(Rejected(Graph(404)))
    ensures d.trail.calls == [Response(503, None), Response(404, None)] && MayHaveLanded(d.trail.calls)
  {
    var sofar, t := AfterDoubt(call);
    var second := Response(404, None);
    ThroughTrails(sofar, 1_000, 1_000, call, second, 10_000, t);
    StopIsProper(Patch, t.calls, t.waits, 1, false, second, Err(Graph(404)), 2);
    var did := sofar + Through(1_000, 1_000, call, second, 10_000);
    assert ([Read(0)] + did)[1..] == did;
    d := Deed([Read(0)] + did, Trail(Told(second), t.calls + [second], t.waits, t.asks + 1), Err(Graph(404)));
    assert MayApply(d.trail.calls[0]);
  }

  /** And so it does when the token for the repeat is missing. */
  lemma RepeatedWithoutToken(call: Call) returns (d: Deed)
    requires call.m == Patch
    ensures Handled(call, Rejected(NoToken), d, 10_000, 2) && !Drops(Rejected(NoToken))
    ensures d.trail.calls == [Response(503, None)] && MayHaveLanded(d.trail.calls)
  {
    var sofar, t := AfterDoubt(call);
    Further([], sofar, Read(1_000), call, 10_000, t);
    var checked, t1 := sofar + [Read(1_000)], t.Then(Read(1_000), call, 10_000);
    Further([], checked, Token(Missing), call, 10_000, t1);
    var did, t2 := checked + [Token(Missing)], t1.Then(Token(Missing), call, 10_000);
    StandingIsProper(Patch, t.calls, t.waits, 1, false, NoToken, 2);
    assert ([Read(0)] + did)[1..] == did;
    d := Deed([Read(0)] + did, t2, Err(NoToken));
    assert MayApply(d.trail.calls[0]);
  }

  /** A PATCH answered with a 503, and the wait after it. */
  lemma AfterDoubt(call: Call) returns (sofar: seq<Event>, t: Trail)
    requires call.m == Patch
    ensures Trails(sofar, call, 10_000, t) && t == Trail(Idle, [Response(503, None)], [Some(500)], 1)
    ensures Standing(Patch, t.calls, t.waits, 1, false)
  {
    var o, told := Response(503, None), Trail(Told(Response(503, None)), [Response(503, None)], [], 1);
    NothingTrails(call, 10_000);
    ThroughTrails([], 0, 0, call, o, 10_000, Retry.START);
    var through := Through(0, 0, call, o, 10_000);
    assert [] + through == through && [] + [o] == [o];
    assert Standing(Patch, [], [], 0, false);
    assert Pow2(0) == 1;
    sofar := through + [Read(0), Slept(500)];
    t := NapStands([], through, call, told, [], 0, false, o, 0, 500, 10_000);
  }

  // -------------------------------------------------------------------------
  // Placing ids in lists

  datatype Wanted = Wanted(id: string, list: Option<string>)

  /** `seen` is never stale; `title` is only for reports. */
  datatype Target = Target(list: TaskList, seen: Option<Task>, title: Option<string>)

  type Resolved = Result<Target, ErrorCode>

  function FindList(lists: seq<TaskList>, id: string): (l: Option<TaskList>)
    ensures l.Some? ==> l.value in lists && l.value.id == id
    ensures l.None? ==> forall x | x in lists :: x.id != id
  {
    if lists == [] then None
    else if lists[0].id == id then Some(lists[0])
    else FindList(lists[1..], id)
  }

  function FindTask(tasks: seq<Task>, id: string): (t: Option<Task>)
    ensures t.Some? ==> t.value in tasks && t.value.id == id
    ensures t.None? ==> forall x | x in tasks :: x.id != id
  {
    if tasks == [] then None
    else if tasks[0].id == id then Some(tasks[0])
    else FindTask(tasks[1..], id)
  }

  /** The first snapshot that has an id. */
  function FindIn(snapshots: seq<Snapshot>, id: string): (found: Option<(Snapshot, Task)>)
    ensures found.Some? ==>
              found.value.0 in snapshots && found.value.1 in found.value.0.tasks && found.value.1.id == id
    ensures found.None? ==> forall s, t | s in snapshots && t in s.tasks :: t.id != id
  {
    if snapshots == [] then None
    else
      match FindTask(snapshots[0].tasks, id)
      case Some(t) => Some((snapshots[0], t))
      case None => FindIn(snapshots[1..], id)
  }

  /** What a sync says about an id that no argument and no cached entry placed. */
  function Fill(id: string, synced: Result<SyncOutcome, AppError>): Resolved {
    match synced
    case Err(e) => Err(SyncFailed(e))
    case Ok(o) =>
      match FindIn(o.snapshots, id)
      case Some((s, t)) => Ok(Target(s.list, Some(t), Some(t.title)))
      case None => Err(if o.coverage.IsComplete() then ListNotFound else SyncIncomplete)
  }

  /** One sync, what it made of the lists, and what it was based on. */
  datatype Synced = Synced(r: Result<SyncOutcome, AppError>, p: SyncAccount.Progress, acc: SyncAccount.Account)

  /** "Not found" is claimed exactly after a sync in which every list was at hand or
      walked to its end, and nothing it shows has the id. */
  lemma NotFoundMeansEverywhere(id: string, lists: seq<TaskList>, s: Synced)
    requires Sync.Concluded(lists, s.r, s.p, s.acc)
    ensures Fill(id, s.r) == Err(ListNotFound) <==>
              && s.r.Ok? && s.acc.Done() == Sync.IdSet(lists)
              && (forall x, t | x in s.r.value.snapshots && t in x.tasks :: t.id != id)
  {
    if s.r.Ok? {
      Sync.DoneIsShown(lists, s.r.value, s.p, s.acc) by {
        SyncAccount.AccountedMeans(s.p, [], s.acc);
      }
    }
  }

  // -------------------------------------------------------------------------
  // Against the cache as it was looked at

  predicate Holds(look: SyncAccount.Look, list: string, id: string) {
    list in look.tasks && exists i | 0 <= i < |look.tasks[list].tasks| :: look.tasks[list].tasks[i].id == id
  }

  /** What is known of a task in a list: its fresh self if the list's entry is fresh,
      and its title if any entry of the list has it. */
  ghost predicate TargetFor(t: Target, l: TaskList, id: string, look: SyncAccount.Look, ttl: nat) {
    && t.list == l
    && (t.seen.Some? <==> look.Fresh(l.id, ttl) && Holds(look, l.id, id))
    && (t.title.Some? <==> Holds(look, l.id, id))
    && (Holds(look, l.id, id) ==>
          exists x | x in look.tasks[l.id].tasks :: x.id == id && t.title == Some(x.title) && t.seen.GetOr(x) == x)
  }

  /** An entry of some other list than these has the id. */
  ghost predicate HeldElsewhere(look: SyncAccount.Look, lists: seq<TaskList>, id: string) {
    exists k | k in look.tasks :: Holds(look, k, id) && forall l | l in lists :: l.id != k
  }

  /** What the write phase makes of an item whose list is known, with no request. */
  predicate AlreadySo(t: Target, completed: bool) {
    t.seen.Some? && t.seen.value.IsCompleted() == completed
  }

  /** An item is attempted or late exactly if its list is known and it needs a request. */
  ghost predicate Fits(target: Resolved, notNeeded: bool, p: Place) {
    match target
    case Err(code) => p == Unresolved(code)
    case Ok(_) => if notNeeded then p.NotNeeded? else p.Late? || Attempted(p)
  }

  /** Once an item was late, no later one is sent. */
  ghost predicate NoneAfterLate(places: seq<Place>) {
    forall i, j | 0 <= i < j < |places| :: places[i].Late? ==> !Attempted(places[j])
  }

  /** The write phase so far. `skip` is what needs no request, `overdue` whether the
      deadline has passed, `granted` and `left` the requests at its start and now. */
  ghost predicate Phase(
    ids: seq<string>, targets: seq<Resolved>, skip: Target -> bool, report: Report, places: seq<Place>,
    overdue: bool, granted: nat, left: nat, maxAttempts: nat)
  {
    && |places| <= |ids| == |targets|
    && Reports(report, ids, places)
    && NoneAfterLate(places)
    && (forall j | 0 <= j < |places| :: Fits(targets[j], targets[j].Ok? && skip(targets[j].value), places[j]))
    && (forall j | 0 <= j < |places| :: places[j].Late? ==> overdue)
    && (granted >= Needed(|ids|, maxAttempts) ==>
          && left >= Needed(|ids| - |places|, maxAttempts)
          && forall j | 0 <= j < |places| :: places[j] != Rejected(Exhausted))
  }

  lemma PhaseAdvances(
      ids: seq<string>, targets: seq<Resolved>, skip: Target -> bool, report: Report, places: seq<Place>,
      overdue: bool, granted: nat, left: nat, maxAttempts: nat, place: Place, overdue': bool, left': nat)
    requires Phase(ids, targets, skip, report, places, overdue, granted, left, maxAttempts) && |places| < |ids|
    requires Fits(targets[|places|], targets[|places|].Ok? && skip(targets[|places|].value), place)
    requires (overdue ==> overdue' && !Attempted(place)) && (place.Late? ==> overdue')
    requires place == Rejected(Exhausted) ==> left <= maxAttempts
    requires left' >= left - (maxAttempts + 1)
    ensures Phase(
              ids, targets, skip, report.Push(Entry(|places|, ids[|places|], place)), places + [place],
              overdue', granted, left', maxAttempts)
  {
    PushReports(report, ids, places, place);
    assert Needed(|ids| - |places|, maxAttempts) == Needed(|ids| - |places| - 1, maxAttempts) + maxAttempts + 1;
  }

  const BATCH_CAP := 50
  const UPDATE_CAP := 25

  /** `config.rs` admits no more attempts than this. */
  const MAX_ATTEMPTS_CAP := 8

  datatype Refusal = EmptyBatch | OverCap | Unconfirmed

  function CheckBatch(ids: seq<string>, cap: nat): Option<Refusal> {
    if ids == [] then Some(EmptyBatch) else if |ids| > cap then Some(OverCap) else None
  }

  predicate IsFlagged(t: Target) {
    t.list.wellknown == Some("flaggedEmails")
  }

  /** What each tool leaves alone. */
  function SkipsDone(completed: bool): Target -> bool {
    (t: Target) => AlreadySo(t, completed)
  }

  function SkipsFlagged(): Target -> bool {
    (t: Target) => IsFlagged(t)
  }

  function SkipsNothing(): Target -> bool {
    (_: Target) => false
  }

  function WantedIn(ids: seq<string>, list: Option<string>): (w: seq<Wanted>)
    ensures |w| == |ids| && forall i | 0 <= i < |ids| :: w[i] == Wanted(ids[i], list)
  {
    seq(|ids|, i requires 0 <= i < |ids| => Wanted(ids[i], list))
  }

  function IdsWanted(wanted: seq<Wanted>): (ids: seq<string>)
    ensures |ids| == |wanted| && forall i | 0 <= i < |ids| :: ids[i] == wanted[i].id
  {
    seq(|wanted|, i requires 0 <= i < |wanted| => wanted[i].id)
  }

  /** What one tool call did: its look at the cache, where each id is, the one sync if
      there was one, where each item ended, and what was done for it. */
  datatype ToolRun = ToolRun(
    look: SyncAccount.Look, targets: seq<Resolved>, sync: Option<Synced>, places: seq<Place>, deeds: seq<Deed>)

  const NO_LOOK := SyncAccount.Look(0, map[])
  const NO_RUN := ToolRun(NO_LOOK, [], None, [], [])

  /** All the client did, item after item. */
  function Strung(deeds: seq<Deed>): seq<Event> {
    if deeds == [] then [] else Strung(deeds[..|deeds| - 1]) + deeds[|deeds| - 1].did
  }

  /** For each item, its own call and no other. */
  ghost predicate AllHandled(
    calls: seq<Call>, places: seq<Place>, deeds: seq<Deed>, deadline: int, maxAttempts: nat)
  {
    |deeds| == |places| <= |calls|
    && forall i | 0 <= i < |deeds| :: Handled(calls[i], places[i], deeds[i], deadline, maxAttempts)
  }

  lemma HandledIsPrompt(call: Call, p: Place, d: Deed, deadline: int, maxAttempts: nat)
    requires Handled(call, p, d, deadline, maxAttempts)
    ensures Prompt(d.did, deadline)
  {
    if d.did != [] {
      assert d.did == [d.did[0]] + d.did[1..] && [d.did[0]][..0] == [];
      if Attempted(p) {
        SendsIsPrompt(d.did[1..], call, d.trail, d.sent, deadline, maxAttempts);
        PromptJoined([d.did[0]], d.did[1..], deadline);
      } else {
        assert d.did == [d.did[0]];
      }
    }
  }

  lemma {:induction false} StrungIsPrompt(
      calls: seq<Call>, places: seq<Place>, deeds: seq<Deed>, deadline: int, maxAttempts: nat)
    requires AllHandled(calls, places, deeds, deadline, maxAttempts)
    ensures Prompt(Strung(deeds), deadline)
  {
    if deeds != [] {
      var k := |deeds| - 1;
      StrungIsPrompt(calls, places[..k], deeds[..k], deadline, maxAttempts);
      HandledIsPrompt(calls[k], places[k], deeds[k], deadline, maxAttempts);
      PromptJoined(Strung(deeds[..k]), deeds[k].did, deadline);
    }
  }

  /** The call of each item: to the task of its id, in the list it was placed in. */
  function Addressed(m: Method, ids: seq<string>, targets: seq<Resolved>, bodies: seq<Payload>): (calls: seq<Call>)
    requires |ids| == |targets| == |bodies|
    ensures |calls| == |ids| && forall i | 0 <= i < |ids| :: calls[i] == CallTo(m, ids[i], targets[i], bodies[i])
  {
    seq(|ids|, i requires 0 <= i < |ids| => CallTo(m, ids[i], targets[i], bodies[i]))
  }

  function CallTo(m: Method, id: string, target: Resolved, body: Payload): Call {
    Call(m, TaskUrl(if target.Ok? then target.value.list.id else "", id), body)
  }

  function Same(body: Payload, n: nat): (bodies: seq<Payload>)
    ensures |bodies| == n && forall i | 0 <= i < n :: bodies[i] == body
  {
    seq(n, _ => body)
  }

  function FieldsOf(fields: seq<string>): (bodies: seq<Payload>)
    ensures |bodies| == |fields| && forall i | 0 <= i < |fields| :: bodies[i] == Fields(fields[i])
  {
    seq(|fields|, i requires 0 <= i < |fields| => Fields(fields[i]))
  }

  /** An invalidation of a list, made when the client had done so much. */
  datatype Drop = Drop(list: string, after: nat)

  /** What the items so far had to invalidate: each its own list, right after its send. */
  function DropsOf(targets: seq<Resolved>, places: seq<Place>, deeds: seq<Deed>, begun: nat): seq<Drop>
    requires |places| == |deeds| <= |targets|
  {
    if places == [] then []
    else
      var k := |places| - 1;
      DropsOf(targets, places[..k], deeds[..k], begun)
      + (if Drops(places[k]) && targets[k].Ok? then [Drop(targets[k].value.list.id, begun + |Strung(deeds)|)] else [])
  }

  ghost predicate SoFarAt(
    k: int, calls: seq<Call>, ids: seq<string>, targets: seq<Resolved>, skip: Target -> bool, report: Report,
    places: seq<Place>, deeds: seq<Deed>, overdue: bool, granted: nat, left: nat, deadline: int, maxAttempts: nat)
  {
    && Phase(ids, targets, skip, report, places, overdue, granted, left, maxAttempts)
    && AllHandled(calls, places, deeds, deadline, maxAttempts)
  }

  /** A write phase so far, with what was done for each item. The quantifier only keeps
      the definition folded. */
  ghost predicate SoFar(
    calls: seq<Call>, ids: seq<string>, targets: seq<Resolved>, skip: Target -> bool, report: Report,
    places: seq<Place>, deeds: seq<Deed>, overdue: bool, granted: nat, left: nat, deadline: int, maxAttempts: nat)
  {
    forall k :: SoFarAt(k, calls, ids, targets, skip, report, places, deeds, overdue, granted, left, deadline, maxAttempts)
  }

  lemma SoFarMeans(
      calls: seq<Call>, ids: seq<string>, targets: seq<Resolved>, skip: Target -> bool, report: Report,
      places: seq<Place>, deeds: seq<Deed>, overdue: bool, granted: nat, left: nat, deadline: int, maxAttempts: nat)
    requires SoFar(calls, ids, targets, skip, report, places, deeds, overdue, granted, left, deadline, maxAttempts)
    ensures Phase(ids, targets, skip, report, places, overdue, granted, left, maxAttempts)
    ensures AllHandled(calls, places, deeds, deadline, maxAttempts)
  {
    assert SoFarAt(0, calls, ids, targets, skip, report, places, deeds, overdue, granted, left, deadline, maxAttempts);
  }

  lemma NothingSoFar(
      calls: seq<Call>, ids: seq<string>, targets: seq<Resolved>, skip: Target -> bool, overdue: bool, granted: nat,
      deadline: int, maxAttempts: nat)
    requires |ids| == |targets|
    ensures SoFar(calls, ids, targets, skip, EMPTY_REPORT, [], [], overdue, granted, granted, deadline, maxAttempts)
  {
  }

  /** One item more, wherever it landed. */
  lemma ItemDone(
      calls: seq<Call>, ids: seq<string>, targets: seq<Resolved>, skip: Target -> bool, report: Report,
      places: seq<Place>, deeds: seq<Deed>, overdue: bool, granted: nat, left: nat, deadline: int, maxAttempts: nat,
      place: Place, deed: Deed, overdue': bool, left': nat)
    requires SoFar(calls, ids, targets, skip, report, places, deeds, overdue, granted, left, deadline, maxAttempts)
    requires |places| < |ids| == |targets| == |calls| && Handled(calls[|places|], place, deed, deadline, maxAttempts)
    requires Fits(targets[|places|], targets[|places|].Ok? && skip(targets[|places|].value), place)
    requires (overdue ==> overdue' && !Attempted(place)) && (place.Late? ==> overdue')
    requires place == Rejected(Exhausted) ==> left <= maxAttempts
    requires left' >= left - (maxAttempts + 1)
    ensures SoFar(
              calls, ids, targets, skip, report.Push(Entry(|places|, ids[|places|], place)), places + [place],
              deeds + [deed], overdue', granted, left', deadline, maxAttempts)
  {
    SoFarMeans(calls, ids, targets, skip, report, places, deeds, overdue, granted, left, deadline, maxAttempts);
    PhaseAdvances(
      ids, targets, skip, report, places, overdue, granted, left, maxAttempts, place, overdue', left');
  }

  /** The client's history and the invalidations, together. */
  datatype Book = Book(trace: seq<Event>, drops: seq<Drop>)

  ghost predicate BookedAt(
    k: int, begun: Book, now: Book, targets: seq<Resolved>, places: seq<Place>, deeds: seq<Deed>)
    requires |places| == |deeds| <= |targets|
  {
    && now.trace == begun.trace + Strung(deeds)
    && now.drops == begun.drops + DropsOf(targets, places, deeds, |begun.trace|)
  }

  /** These items were done since, and nothing else. The quantifier only keeps the
      definition folded. */
  ghost predicate Booked(begun: Book, now: Book, targets: seq<Resolved>, places: seq<Place>, deeds: seq<Deed>)
    requires |places| == |deeds| <= |targets|
  {
    forall k :: BookedAt(k, begun, now, targets, places, deeds)
  }

  lemma NothingBooked(begun: Book, targets: seq<Resolved>)
    ensures Booked(begun, begun, targets, [], [])
  {
    assert begun.trace + [] == begun.trace && begun.drops + [] == begun.drops;
  }

  lemma BookedMeans(begun: Book, now: Book, targets: seq<Resolved>, places: seq<Place>, deeds: seq<Deed>)
    requires |places| == |deeds| <= |targets| && Booked(begun, now, targets, places, deeds)
    ensures now.trace == begun.trace + Strung(deeds)
    ensures now.drops == begun.drops + DropsOf(targets, places, deeds, |begun.trace|)
  {
    assert BookedAt(0, begun, now, targets, places, deeds);
  }

  lemma OneMoreBooked(
      begun: Book, now: Book, targets: seq<Resolved>, places: seq<Place>, deeds: seq<Deed>, p: Place, d: Deed, later: Book)
    requires |places| == |deeds| < |targets| && Booked(begun, now, targets, places, deeds)
    requires later.trace == now.trace + d.did
    requires later.drops == now.drops + if Drops(p) && targets[|places|].Ok?
                                        then [Drop(targets[|places|].value.list.id, |later.trace|)] else []
    ensures Booked(begun, later, targets, places + [p], deeds + [d])
  {
    BookedMeans(begun, now, targets, places, deeds);
    assert (deeds + [d])[..|deeds|] == deeds && (places + [p])[..|places|] == places;
    Associates(begun.trace, Strung(deeds), d.did);
  }

  /** The promise of a write tool, item by item; and across the items, no transport
      call but the very last begins at the deadline or after it. */
  ghost predicate AllSettled(
    calls: seq<Call>, ids: seq<string>, skip: Target -> bool, report: Report, run: ToolRun, deadline: int,
    maxAttempts: nat)
  {
    && |run.targets| == |run.places| == |ids|
    && Reports(report, ids, run.places)
    && NoneAfterLate(run.places)
    && AllHandled(calls, run.places, run.deeds, deadline, maxAttempts)
    && LateOnlyLast(Strung(run.deeds), deadline)
    && (forall i | 0 <= i < |ids| ::
          && Fits(run.targets[i], run.targets[i].Ok? && skip(run.targets[i].value), run.places[i])
          && run.places[i] != Rejected(Exhausted) && run.places[i] != Unresolved(Internal))
  }

  lemma PhaseSettles(
      calls: seq<Call>, ids: seq<string>, run: ToolRun, skip: Target -> bool, report: Report, overdue: bool,
      granted: nat, left: nat, maxAttempts: nat, before: seq<Event>, now: int, deadline: int)
    requires SoFar(
               calls, ids, run.targets, skip, report, run.places, run.deeds, overdue, granted, left, deadline, maxAttempts)
    requires |run.places| == |ids| == |run.targets| && granted >= Needed(|ids|, maxAttempts)
    requires forall i | 0 <= i < |ids| :: run.targets[i] != Err(Internal)
    requires Timed(before + Strung(run.deeds), now)
    ensures AllSettled(calls, ids, skip, report, run, deadline, maxAttempts)
  {
    SoFarMeans(
      calls, ids, run.targets, skip, report, run.places, run.deeds, overdue, granted, left, deadline, maxAttempts);
    StrungIsPrompt(calls, run.places, run.deeds, deadline, maxAttempts);
    PromptIsLateOnlyLast(before, Strung(run.deeds), now, deadline);
  }

  /** The write budget of a batch is what its items may need: nothing saturates. */
  lemma BudgetIsEnough(n: nat, maxAttempts: nat)
    requires n <= BATCH_CAP && 1 <= maxAttempts <= MAX_ATTEMPTS_CAP
    ensures SaturatingMul(Min(n, U32_MAX), Max(maxAttempts, 1) + 1) == Needed(n, maxAttempts)
  {
    NeededIs(n, maxAttempts);
    assert n * (maxAttempts + 1) <= BATCH_CAP * 9 by {
      Grows(n, BATCH_CAP, maxAttempts + 1);
    }
  }

  lemma Grows(a: nat, b: nat, c: nat)
    requires a <= b && c <= 9
    ensures a * c <= b * 9
  {
    assert a * c <= a * 9;
  }

  /** A target found by a sync over `lists` is in one of them. */
  lemma FilledIsListed(id: string, lists: seq<TaskList>, s: Synced)
    requires Sync.Concluded(lists, s.r, s.p, s.acc)
    ensures Fill(id, s.r).Ok? ==> Fill(id, s.r).value.list in lists
  {
    if s.r.Ok? {
      assert forall x | x in s.r.value.snapshots :: x.list in lists;
    }
  }

  lemma FoundIsHeld(id: string, list: string, t: Task, look: SyncAccount.Look)
    requires list in look.tasks && t in look.tasks[list].tasks && t.id == id
    ensures Holds(look, list, id)
  {
    var i :| 0 <= i < |look.tasks[list].tasks| && look.tasks[list].tasks[i] == t;
  }

  class Tools {
    const server: Sync.Server
    const client: Client
    /** Name resolution, for arguments that are no exact list id. */
    const resolver: (string, seq<TaskList>) -> Option<string>
    /** Every invalidation these tools made, in order. */
    ghost var drops: seq<Drop>

    constructor (server: Sync.Server, client: Client, resolver: (string, seq<TaskList>) -> Option<string>)
      ensures this.server == server && this.client == client && this.resolver == resolver && drops == []
    {
      this.server, this.client, this.resolver := server, client, resolver;
      drops := [];
    }

    function ResolveList(name: string, lists: seq<TaskList>): (l: Option<TaskList>)
      ensures l.Some? ==> l.value in lists
    {
      match FindList(lists, name)
      case Some(l) => Some(l)
      case None =>
        match resolver(name, lists)
        case Some(id) => FindList(lists, id)
        case None => None
    }

    /** A slot filled before the sync: by the list argument or by an entry that has the
        id; or left for the sync, if no entry of these lists has it. */
    ghost predicate Placed(w: Wanted, lists: seq<TaskList>, look: SyncAccount.Look, ttl: nat, slot: Option<Resolved>) {
      match w.list
      case Some(name) =>
        (match ResolveList(name, lists)
         case Some(l) => slot.Some? && slot.value.Ok? && TargetFor(slot.value.value, l, w.id, look, ttl)
         case None => slot == Some(Err(ListNotFound)))
      case None =>
        match slot
        case Some(r) =>
          && r.Ok? && r.value.list in lists && Holds(look, r.value.list.id, w.id)
          && TargetFor(r.value, r.value.list, w.id, look, ttl)
        case None =>
          (exists l | l in lists :: Holds(look, l.id, w.id)) ==> HeldElsewhere(look, lists, w.id)
    }

    method TargetIn(l: TaskList, id: string, now: int) returns (t: Target)
      requires server.cache.Tracked()
      // Seen only in a fresh entry.
      ensures TargetFor(t, l, id, SyncAccount.Look(now, server.cache.tasks), server.cache.ttl)
    {
      var seen: Option<Task> := None;
      var title: Option<string> := None;
      if l.id in server.cache.tasks {
        var task := server.cache.Get(l.id, id);
        if server.cache.List(l.id, now).Some? {
          seen := task;
        }
        if task.Some? {
          title := Some(task.value.title);
        }
      }
      return Target(l, seen, title);
    }

    method PlaceOne(w: Wanted, lists: seq<TaskList>, now: int) returns (slot: Option<Resolved>)
      requires server.cache.Tracked()
      ensures Placed(w, lists, SyncAccount.Look(now, server.cache.tasks), server.cache.ttl, slot)
    {
      match w.list {
        case Some(name) =>
          var l := ResolveList(name, lists);
          if l.None? {
            return Some(Err(ListNotFound));
          }
          var t := TargetIn(l.value, w.id, now);
          return Some(Ok(t));
        case None =>
          var found := server.cache.FindTask(w.id);
          if found.None? {
            return None;
          }
          FoundIsHeld(w.id, found.value.0, found.value.1, SyncAccount.Look(now, server.cache.tasks));
          var l := FindList(lists, found.value.0);
          if l.None? {
            return None;
          }
          var t := TargetIn(l.value, w.id, now);
          return Some(Ok(t));
      }
    }

    /** The first pass, under one read lock. */
    method PlaceAll(wanted: seq<Wanted>, lists: seq<TaskList>, now: int) returns (slots: seq<Option<Resolved>>)
      requires server.cache.Tracked()
      ensures |slots| == |wanted|
      ensures forall i | 0 <= i < |wanted| ::
                Placed(wanted[i], lists, SyncAccount.Look(now, server.cache.tasks), server.cache.ttl, slots[i])
    {
      slots := [];
      for i := 0 to |wanted|
        invariant |slots| == i
        invariant forall j | 0 <= j < i ::
                    Placed(wanted[j], lists, SyncAccount.Look(now, server.cache.tasks), server.cache.ttl, slots[j])
      {
        var slot := PlaceOne(wanted[i], lists, now);
        slots := slots + [slot];
      }
    }

    /** The last word on one id: what placed it, or what the one sync says. */
    ghost predicate Resolves(
      w: Wanted, lists: seq<TaskList>, look: SyncAccount.Look, ttl: nat, r: Resolved, sync: Option<Synced>)
    {
      && (|| Placed(w, lists, look, ttl, Some(r))
          || (Placed(w, lists, look, ttl, None) && sync.Some? && r == Fill(w.id, sync.value.r)))
      && (r.Ok? ==> r.value.list in lists)
    }

    ghost predicate AllPlaced(
      wanted: seq<Wanted>, lists: seq<TaskList>, look: SyncAccount.Look, ttl: nat, slots: seq<Option<Resolved>>)
    {
      |slots| == |wanted| && forall i | 0 <= i < |wanted| :: Placed(wanted[i], lists, look, ttl, slots[i])
    }

    ghost predicate AllResolved(
      wanted: seq<Wanted>, lists: seq<TaskList>, look: SyncAccount.Look, ttl: nat, targets: seq<Resolved>,
      sync: Option<Synced>)
    {
      |targets| == |wanted|
      && forall i | 0 <= i < |wanted| ::
           Resolves(wanted[i], lists, look, ttl, targets[i], sync) && targets[i] != Err(Internal)
    }

    /** The second pass, after the one sync. */
    method FillAll(
        wanted: seq<Wanted>, lists: seq<TaskList>, slots: seq<Option<Resolved>>, synced: Result<SyncOutcome, AppError>,
        ghost look: SyncAccount.Look, ghost ttl: nat, ghost s: Synced)
      returns (filled: seq<Option<Resolved>>)
      requires AllPlaced(wanted, lists, look, ttl, slots)
      requires s.r == synced && Sync.Concluded(lists, synced, s.p, s.acc)
      ensures |filled| == |wanted|
      ensures forall i | 0 <= i < |wanted| ::
                filled[i].Some? && Resolves(wanted[i], lists, look, ttl, filled[i].value, Some(s))
    {
      filled := slots;
      for i := 0 to |wanted|
        invariant |filled| == |wanted|
        invariant forall j | i <= j < |wanted| :: filled[j] == slots[j]
        invariant forall j | 0 <= j < i ::
                    filled[j].Some? && Resolves(wanted[j], lists, look, ttl, filled[j].value, Some(s))
      {
        assert Placed(wanted[i], lists, look, ttl, slots[i]);
        if filled[i].None? {
          FilledIsListed(wanted[i].id, lists, s);
          filled := filled[i := Some(Fill(wanted[i].id, synced))];
        }
      }
    }

    /** Every slot is full, so the fallback is never used. */
    method Unwrap(
        slots: seq<Option<Resolved>>, ghost wanted: seq<Wanted>, ghost lists: seq<TaskList>,
        ghost look: SyncAccount.Look, ghost ttl: nat, ghost sync: Option<Synced>)
      returns (out: seq<Resolved>)
      requires |slots| == |wanted|
      requires forall i | 0 <= i < |wanted| ::
                 slots[i].Some? && Resolves(wanted[i], lists, look, ttl, slots[i].value, sync)
      ensures AllResolved(wanted, lists, look, ttl, out, sync)
    {
      out := seq(|slots|, i requires 0 <= i < |slots| => slots[i].GetOr(Err(Internal)));
      assert forall i | 0 <= i < |wanted| :: out[i] == slots[i].value;
    }

    /** Every id once, before the first mutation; one sync for all that are left, and
        none if none is. */
    method ResolveTargets(wanted: seq<Wanted>, lists: seq<TaskList>, budget: Budget)
      returns (out: seq<Resolved>, ghost look: SyncAccount.Look, ghost sync: Option<Synced>)
      requires server.cache.Tracked() && budget.Valid() && Distinct(IdsOf(lists))
      modifies server`looks, server`warmed, server.cache, server.graph, budget
      ensures server.cache.Tracked() && budget.Valid() && budget.deadline == old(budget.deadline)
      ensures old(server.looks) + [look] <= server.looks
      // No slot is left over, and each is filled by what was looked at or by the sync.
      ensures AllResolved(wanted, lists, look, server.cache.ttl, out, sync)
      ensures match sync
              case None =>
                && server.graph.log == old(server.graph.log)
                && forall i | 0 <= i < |wanted| ::
                     Placed(wanted[i], lists, look, server.cache.ttl, Some(out[i]))
              case Some(s) =>
                && server.graph.log == old(server.graph.log).Then(s.acc.said)
                && Sync.Concluded(lists, s.r, s.p, s.acc)
    {
      sync := None;
      var now;
      now, look := server.ClockThenLook();
      var slots := PlaceAll(wanted, lists, now);
      if exists slot | slot in slots :: slot.None? {
        var r;
        ghost var p, acc, seen;
        r, p, acc, seen := server.SyncLists(lists, budget);
        sync := Some(Synced(r, p, acc));
        slots := FillAll(wanted, lists, slots, r, look, server.cache.ttl, sync.value);
      } else {
        NoneLeft(wanted, lists, look, server.cache.ttl, slots);
      }
      out := Unwrap(slots, wanted, lists, look, server.cache.ttl, sync);
    }

    lemma NoneLeft(
        wanted: seq<Wanted>, lists: seq<TaskList>, look: SyncAccount.Look, ttl: nat, slots: seq<Option<Resolved>>)
      requires AllPlaced(wanted, lists, look, ttl, slots) && forall slot | slot in slots :: slot.Some?
      ensures forall i | 0 <= i < |wanted| ::
                slots[i].Some? && Resolves(wanted[i], lists, look, ttl, slots[i].value, None)
    {
      forall i | 0 <= i < |wanted|
        ensures slots[i].Some? && Resolves(wanted[i], lists, look, ttl, slots[i].value, None)
      {
        assert slots[i] in slots && Placed(wanted[i], lists, look, ttl, slots[i]);
      }
    }

    ghost predicate Ready(writes: Budget)
      reads server.cache, client, writes
    {
      server.cache.Tracked() && writes.Valid() && client.Valid() && !client.held
    }

    method InvalidateAfter(list: string, error: Option<AppError>)
      requires server.cache.Tracked()
      modifies this`drops, server.cache, server.graph`time, server.graph`calm
      ensures server.cache.Tracked()
      ensures Invalidates(error) ==>
                list !in server.cache.tasks && server.cache.acts != []
                && server.cache.acts[|server.cache.acts| - 1] == Coherence.Invalidate(list)
      ensures drops == old(drops) + if Invalidates(error) then [Drop(list, |client.trace|)] else []
    {
      server.Others();
      if Invalidates(error) {
        server.cache.InvalidateList(list);
        drops := drops + [Drop(list, |client.trace|)];
      }
    }

    /** PATCH a task, and read the task that comes back. */
    method PatchTask(call: Call, writes: Budget) returns (r: Result<Task, AppError>, ghost d: Deed)
      requires client.Valid() && writes.Valid() && !client.held
      modifies client`time, client`held, client`trace, writes`requestsLeft, writes`requestsUsed
      ensures client.Valid() && writes.Valid() && !client.held && client.time >= old(client.time)
      ensures client.trace == old(client.trace) + d.did
      ensures Sends(d.did, call, d.trail, d.sent, writes.deadline, client.maxAttempts)
      ensures if r.Ok? then d.sent.Ok? else if d.sent.Ok? then r.error.BadBody? else d.sent == Err(r.error)
      ensures r == Err(Exhausted) ==> old(writes.requestsLeft) <= client.maxAttempts
      ensures writes.requestsLeft >= old(writes.requestsLeft) - (client.maxAttempts + 1)
    {
      var sent;
      ghost var did, t;
      sent, did, t := client.Send(call, writes);
      d := Deed(did, t, sent);
      match sent {
        case Err(e) => r := Err(e);
        case Ok(_) =>
          var parsed: Option<Task> := *;
          r := if parsed.Some? then Ok(parsed.value) else Err(BadBody);
      }
    }

    method Expired(writes: Budget) returns (expired: bool, ghost at: int)
      requires client.Valid()
      modifies client`time, client`trace
      ensures client.Valid() && client.time >= at >= old(client.time) && expired == (at >= writes.deadline)
      ensures client.trace == old(client.trace) + [Read(at)]
    {
      var now := client.Now();
      return now >= writes.deadline, now;
    }

    /** One PATCH, unless it is too late, and what it means for the cache. */
    method PatchOne(list: string, id: string, body: Payload, writes: Budget) returns (p: Place, ghost d: Deed)
      requires Ready(writes)
      modifies client`time, client`held, client`trace, this`drops, server.cache, server.graph`time, server.graph`calm
      modifies writes`requestsLeft, writes`requestsUsed
      ensures Ready(writes) && client.time >= old(client.time)
      ensures Handled(Call(Patch, TaskUrl(list, id), body), p, d, writes.deadline, client.maxAttempts)
      ensures client.trace == old(client.trace) + d.did
      ensures p.Late? || p.Sent? || p.Rejected?
      ensures p.Late? ==> client.time >= writes.deadline
      ensures old(client.time) >= writes.deadline ==> p.Late?
      ensures drops == old(drops) + if Drops(p) then [Drop(list, |client.trace|)] else []
      ensures Drops(p) ==> list !in server.cache.tasks
      ensures p == Rejected(Exhausted) ==> old(writes.requestsLeft) <= client.maxAttempts
      ensures writes.requestsLeft >= old(writes.requestsLeft) - (client.maxAttempts + 1)
    {
      var expired;
      ghost var at;
      expired, at := Expired(writes);
      if expired {
        return Late, Deed([Read(at)], Retry.START, Err(Exhausted));
      }
      var r;
      r, d := PatchTask(Call(Patch, TaskUrl(list, id), body), writes);
      Associates(old(client.trace), [Read(at)], d.did);
      assert ([Read(at)] + d.did)[1..] == d.did;
      d := d.(did := [Read(at)] + d.did);
      InvalidateAfter(list, ErrorOf(r));
      p := match r case Ok(_) => Place.Sent case Err(e) => Rejected(e);
    }

    /** The same for a DELETE, where a task that is gone already is a success. */
    method DeleteOne(list: string, id: string, writes: Budget) returns (p: Place, ghost d: Deed)
      requires Ready(writes)
      modifies client`time, client`held, client`trace, this`drops, server.cache, server.graph`time, server.graph`calm
      modifies writes`requestsLeft, writes`requestsUsed
      ensures Ready(writes) && client.time >= old(client.time)
      ensures Handled(Call(Delete, TaskUrl(list, id), NoBody), p, d, writes.deadline, client.maxAttempts)
      ensures client.trace == old(client.trace) + d.did
      ensures p.Late? || Attempted(p)
      ensures p.Late? ==> client.time >= writes.deadline
      ensures old(client.time) >= writes.deadline ==> p.Late?
      ensures drops == old(drops) + if Drops(p) then [Drop(list, |client.trace|)] else []
      ensures Drops(p) ==> list !in server.cache.tasks
      ensures p == Rejected(Exhausted) ==> old(writes.requestsLeft) <= client.maxAttempts
      ensures writes.requestsLeft >= old(writes.requestsLeft) - (client.maxAttempts + 1)
    {
      var expired;
      ghost var at;
      expired, at := Expired(writes);
      if expired {
        return Late, Deed([Read(at)], Retry.START, Err(Exhausted));
      }
      var r;
      ghost var sent, did, t;
      r, sent, did, t := client.DeleteIt(TaskUrl(list, id), writes);
      Associates(old(client.trace), [Read(at)], did);
      assert ([Read(at)] + did)[1..] == did;
      d := Deed([Read(at)] + did, t, sent);
      InvalidateAfter(list, ErrorOf(r));
      p := match r case Ok(true) => Place.Sent case Ok(false) => Absent case Err(e) => Rejected(e);
    }

    /** One item of the complete tool; whether it is needed is decided from a fresh
        view, with no request, so it is reported even after the deadline. */
    method CompleteOne(target: Resolved, id: string, completed: bool, writes: Budget) returns (p: Place, ghost d: Deed)
      requires Ready(writes)
      modifies client`time, client`held, client`trace, this`drops, server.cache, server.graph`time, server.graph`calm
      modifies writes`requestsLeft, writes`requestsUsed
      ensures Ready(writes) && client.time >= old(client.time)
      ensures Handled(CallTo(Patch, id, target, StatusIs(completed)), p, d, writes.deadline, client.maxAttempts)
      ensures client.trace == old(client.trace) + d.did
      ensures Fits(target, target.Ok? && AlreadySo(target.value, completed), p)
      ensures p.Late? ==> client.time >= writes.deadline
      ensures old(client.time) >= writes.deadline ==> !Attempted(p)
      ensures target.Ok? && Drops(p) ==> target.value.list.id !in server.cache.tasks
      ensures drops == old(drops) + if Drops(p) && target.Ok? then [Drop(target.value.list.id, |client.trace|)] else []
      ensures p == Rejected(Exhausted) ==> old(writes.requestsLeft) <= client.maxAttempts
      ensures writes.requestsLeft >= old(writes.requestsLeft) - (client.maxAttempts + 1)
    {
      d := NO_DEED;
      assert client.trace == client.trace + [] && drops == drops + [];
      match target {
        case Err(code) => p := Unresolved(code);
        case Ok(t) =>
          if AlreadySo(t, completed) {
            p := NotNeeded;
          } else {
            p, d := PatchOne(t.list.id, id, StatusIs(completed), writes);
          }
      }
    }

    /** One item of the delete tool; flagged mail is refused, with no request. */
    method RemoveOne(target: Resolved, id: string, writes: Budget) returns (p: Place, ghost d: Deed)
      requires Ready(writes)
      modifies client`time, client`held, client`trace, this`drops, server.cache, server.graph`time, server.graph`calm
      modifies writes`requestsLeft, writes`requestsUsed
      ensures Ready(writes) && client.time >= old(client.time)
      ensures Handled(CallTo(Delete, id, target, NoBody), p, d, writes.deadline, client.maxAttempts)
      ensures client.trace == old(client.trace) + d.did
      ensures Fits(target, target.Ok? && IsFlagged(target.value), p)
      ensures p.Late? ==> client.time >= writes.deadline
      ensures old(client.time) >= writes.deadline ==> !Attempted(p)
      ensures target.Ok? && Drops(p) ==> target.value.list.id !in server.cache.tasks
      ensures drops == old(drops) + if Drops(p) && target.Ok? then [Drop(target.value.list.id, |client.trace|)] else []
      ensures p == Rejected(Exhausted) ==> old(writes.requestsLeft) <= client.maxAttempts
      ensures writes.requestsLeft >= old(writes.requestsLeft) - (client.maxAttempts + 1)
    {
      d := NO_DEED;
      assert client.trace == client.trace + [] && drops == drops + [];
      match target {
        case Err(code) => p := Unresolved(code);
        case Ok(t) =>
          if IsFlagged(t) {
            p := NotNeeded;
          } else {
            p, d := DeleteOne(t.list.id, id, writes);
          }
      }
    }

    /** One item of the update tool. */
    method UpdateOne(target: Resolved, id: string, fields: string, writes: Budget) returns (p: Place, ghost d: Deed)
      requires Ready(writes)
      modifies client`time, client`held, client`trace, this`drops, server.cache, server.graph`time, server.graph`calm
      modifies writes`requestsLeft, writes`requestsUsed
      ensures Ready(writes) && client.time >= old(client.time)
      ensures Handled(CallTo(Patch, id, target, Fields(fields)), p, d, writes.deadline, client.maxAttempts)
      ensures client.trace == old(client.trace) + d.did
      ensures Fits(target, false, p) && !p.NotNeeded? && !p.Absent?
      ensures p.Late? ==> client.time >= writes.deadline
      ensures old(client.time) >= writes.deadline ==> !Attempted(p)
      ensures target.Ok? && Drops(p) ==> target.value.list.id !in server.cache.tasks
      ensures drops == old(drops) + if Drops(p) && target.Ok? then [Drop(target.value.list.id, |client.trace|)] else []
      ensures p == Rejected(Exhausted) ==> old(writes.requestsLeft) <= client.maxAttempts
      ensures writes.requestsLeft >= old(writes.requestsLeft) - (client.maxAttempts + 1)
    {
      d := NO_DEED;
      assert client.trace == client.trace + [] && drops == drops + [];
      match target {
        case Err(code) => p := Unresolved(code);
        case Ok(t) =>
          p, d := PatchOne(t.list.id, id, Fields(fields), writes);
      }
    }

    /** The write phase of the complete tool. */
    method CompleteAll(ids: seq<string>, targets: seq<Resolved>, completed: bool, writes: Budget)
      returns (report: Report, ghost places: seq<Place>, ghost deeds: seq<Deed>)
      requires Ready(writes) && |targets| == |ids|
      modifies client`time, client`held, client`trace, this`drops, server.cache, server.graph`time, server.graph`calm
      modifies writes`requestsLeft, writes`requestsUsed
      ensures Ready(writes) && |places| == |ids|
      ensures SoFar(
                Addressed(Patch, ids, targets, Same(StatusIs(completed), |ids|)),
                ids, targets, SkipsDone(completed), report, places, deeds,
                client.time >= writes.deadline, old(writes.requestsLeft), writes.requestsLeft, writes.deadline,
                client.maxAttempts)
      ensures |deeds| == |ids|
      ensures Booked(old(Book(client.trace, drops)), Book(client.trace, drops), targets, places, deeds)
    {
      report, places, deeds := EMPTY_REPORT, [], [];
      NothingBooked(Book(client.trace, drops), targets);
      ghost var calls := Addressed(Patch, ids, targets, Same(StatusIs(completed), |ids|));
      ghost var skip := SkipsDone(completed);
      NothingSoFar(
        calls, ids, targets, skip, client.time >= writes.deadline, writes.requestsLeft, writes.deadline,
        client.maxAttempts);
      for i := 0 to |ids|
        invariant Ready(writes) && |places| == i
        invariant |deeds| == i
        invariant SoFar(
                    calls, ids, targets, skip, report, places, deeds, client.time >= writes.deadline,
                    old(writes.requestsLeft), writes.requestsLeft, writes.deadline, client.maxAttempts)
        invariant Booked(old(Book(client.trace, drops)), Book(client.trace, drops), targets, places, deeds)
      {
        ghost var overdue, left := client.time >= writes.deadline, writes.requestsLeft;
        ghost var before := Book(client.trace, drops);
        var place;
        ghost var deed;
        place, deed := CompleteOne(targets[i], ids[i], completed, writes);
        ItemDone(
          calls, ids, targets, skip, report, places, deeds, overdue, old(writes.requestsLeft), left, writes.deadline,
          client.maxAttempts, place, deed, client.time >= writes.deadline, writes.requestsLeft);
        OneMoreBooked(
          old(Book(client.trace, drops)), before, targets, places, deeds, place, deed, Book(client.trace, drops));
        report := report.Push(Entry(i, ids[i], place));
        places, deeds := places + [place], deeds + [deed];
      }
    }

    /** The write phase of the delete tool. */
    method DeleteAll(ids: seq<string>, targets: seq<Resolved>, writes: Budget)
      returns (report: Report, ghost places: seq<Place>, ghost deeds: seq<Deed>)
      requires Ready(writes) && |targets| == |ids|
      modifies client`time, client`held, client`trace, this`drops, server.cache, server.graph`time, server.graph`calm
      modifies writes`requestsLeft, writes`requestsUsed
      ensures Ready(writes) && |places| == |ids|
      ensures SoFar(
                Addressed(Delete, ids, targets, Same(NoBody, |ids|)), ids, targets, SkipsFlagged(), report, places, deeds,
                client.time >= writes.deadline, old(writes.requestsLeft), writes.requestsLeft, writes.deadline,
                client.maxAttempts)
      ensures |deeds| == |ids|
      ensures Booked(old(Book(client.trace, drops)), Book(client.trace, drops), targets, places, deeds)
    {
      report, places, deeds := EMPTY_REPORT, [], [];
      NothingBooked(Book(client.trace, drops), targets);
      ghost var calls := Addressed(Delete, ids, targets, Same(NoBody, |ids|));
      ghost var skip := SkipsFlagged();
      NothingSoFar(
        calls, ids, targets, skip, client.time >= writes.deadline, writes.requestsLeft, writes.deadline,
        client.maxAttempts);
      for i := 0 to |ids|
        invariant Ready(writes) && |places| == i
        invariant |deeds| == i
        invariant SoFar(
                    calls, ids, targets, skip, report, places, deeds, client.time >= writes.deadline,
                    old(writes.requestsLeft), writes.requestsLeft, writes.deadline, client.maxAttempts)
        invariant Booked(old(Book(client.trace, drops)), Book(client.trace, drops), targets, places, deeds)
      {
        ghost var overdue, left := client.time >= writes.deadline, writes.requestsLeft;
        ghost var before := Book(client.trace, drops);
        var place;
        ghost var deed;
        place, deed := RemoveOne(targets[i], ids[i], writes);
        ItemDone(
          calls, ids, targets, skip, report, places, deeds, overdue, old(writes.requestsLeft), left, writes.deadline,
          client.maxAttempts, place, deed, client.time >= writes.deadline, writes.requestsLeft);
        OneMoreBooked(
          old(Book(client.trace, drops)), before, targets, places, deeds, place, deed, Book(client.trace, drops));
        report := report.Push(Entry(i, ids[i], place));
        places, deeds := places + [place], deeds + [deed];
      }
    }

    /** The write phase of the update tool. */
    method UpdateAll(ids: seq<string>, targets: seq<Resolved>, fields: seq<string>, writes: Budget)
      returns (report: Report, ghost places: seq<Place>, ghost deeds: seq<Deed>)
      requires Ready(writes) && |targets| == |ids| == |fields|
      modifies client`time, client`held, client`trace, this`drops, server.cache, server.graph`time, server.graph`calm
      modifies writes`requestsLeft, writes`requestsUsed
      ensures Ready(writes) && |places| == |ids|
      ensures SoFar(
                Addressed(Patch, ids, targets, FieldsOf(fields)), ids, targets, SkipsNothing(), report, places, deeds,
                client.time >= writes.deadline, old(writes.requestsLeft), writes.requestsLeft, writes.deadline,
                client.maxAttempts)
      ensures |deeds| == |ids|
      ensures Booked(old(Book(client.trace, drops)), Book(client.trace, drops), targets, places, deeds)
    {
      report, places, deeds := EMPTY_REPORT, [], [];
      NothingBooked(Book(client.trace, drops), targets);
      ghost var calls := Addressed(Patch, ids, targets, FieldsOf(fields));
      ghost var skip := SkipsNothing();
      NothingSoFar(
        calls, ids, targets, skip, client.time >= writes.deadline, writes.requestsLeft, writes.deadline,
        client.maxAttempts);
      for i := 0 to |ids|
        invariant Ready(writes) && |places| == i
        invariant |deeds| == i
        invariant SoFar(
                    calls, ids, targets, skip, report, places, deeds, client.time >= writes.deadline,
                    old(writes.requestsLeft), writes.requestsLeft, writes.deadline, client.maxAttempts)
        invariant Booked(old(Book(client.trace, drops)), Book(client.trace, drops), targets, places, deeds)
      {
        ghost var overdue, left := client.time >= writes.deadline, writes.requestsLeft;
        ghost var before := Book(client.trace, drops);
        var place;
        ghost var deed;
        place, deed := UpdateOne(targets[i], ids[i], fields[i], writes);
        ItemDone(
          calls, ids, targets, skip, report, places, deeds, overdue, old(writes.requestsLeft), left, writes.deadline,
          client.maxAttempts, place, deed, client.time >= writes.deadline, writes.requestsLeft);
        OneMoreBooked(
          old(Book(client.trace, drops)), before, targets, places, deeds, place, deed, Book(client.trace, drops));
        report := report.Push(Entry(i, ids[i], place));
        places, deeds := places + [place], deeds + [deed];
      }
    }

    /** Nothing was sent, looked at or changed. */
    twostate predicate Untouched()
      reads this, server, server.cache, server.graph, client
    {
      && drops == old(drops) && client.trace == old(client.trace)
      && client.time == old(client.time) && server.looks == old(server.looks)
      && server.graph.log == old(server.graph.log) && server.cache.tasks == old(server.cache.tasks)
      && server.cache.generation == old(server.cache.generation)
    }

    /** Graph was read by the one sync, if there was one, and by nothing else. */
    twostate predicate SyncedOnce(sync: Option<Synced>, lists: seq<TaskList>)
      reads server.graph
    {
      match sync
      case None => server.graph.log == old(server.graph.log)
      case Some(s) =>
        server.graph.log == old(server.graph.log).Then(s.acc.said) && Sync.Concluded(lists, s.r, s.p, s.acc)
    }

    /** `write_budget`: all that so many items may need. */
    method WriteBudget(deadline: int, n: nat) returns (writes: Budget)
      requires n <= BATCH_CAP && 1 <= client.maxAttempts <= MAX_ATTEMPTS_CAP
      ensures fresh(writes) && writes.Valid() && writes.deadline == deadline
      ensures writes.requestsLeft == Needed(n, client.maxAttempts)
    {
      BudgetIsEnough(n, client.maxAttempts);
      writes := new Budget.ForWrites(deadline, n, client.maxAttempts);
    }

    /** Complete or reopen what was resolved, under a write budget of its own. */
    method WriteCompletions(
        ids: seq<string>, targets: seq<Resolved>, completed: bool, deadline: int,
        ghost look: SyncAccount.Look, ghost sync: Option<Synced>)
      returns (report: Report, ghost run: ToolRun)
      requires server.cache.Tracked() && client.Valid() && client.maxAttempts <= MAX_ATTEMPTS_CAP && !client.held
      requires |targets| == |ids| <= BATCH_CAP && forall i | 0 <= i < |ids| :: targets[i] != Err(Internal)
      modifies client`time, client`held, client`trace, this`drops, server.cache, server.graph`time, server.graph`calm
      ensures server.cache.Tracked() && client.Valid() && !client.held
      ensures AllSettled(
                Addressed(Patch, ids, targets, Same(StatusIs(completed), |ids|)),
                ids, SkipsDone(completed), report, run, deadline, client.maxAttempts)
      ensures run == ToolRun(look, targets, sync, run.places, run.deeds)
      ensures client.trace == old(client.trace) + Strung(run.deeds)
      ensures drops == old(drops) + DropsOf(targets, run.places, run.deeds, |old(client.trace)|)
    {
      var writes := WriteBudget(deadline, |ids|);
      ghost var granted := writes.requestsLeft;
      ghost var places, deeds;
      report, places, deeds := CompleteAll(ids, targets, completed, writes);
      run := ToolRun(look, targets, sync, places, deeds);
      BookedMeans(old(Book(client.trace, drops)), Book(client.trace, drops), targets, places, deeds);
      PhaseSettles(
        Addressed(Patch, ids, targets, Same(StatusIs(completed), |ids|)),
        ids, run, SkipsDone(completed), report, client.time >= writes.deadline,
        granted, writes.requestsLeft, client.maxAttempts, old(client.trace), client.time, writes.deadline);
    }

    /** `todo_complete_tasks`. */
    method CompleteTasks(ids: seq<string>, completed: bool, list: Option<string>, lists: seq<TaskList>, budget: Budget)
      returns (r: Result<Report, Refusal>, ghost run: ToolRun)
      requires server.cache.Tracked() && budget.Valid() && Distinct(IdsOf(lists))
      requires client.Valid() && client.maxAttempts <= MAX_ATTEMPTS_CAP && !client.held
      modifies client`time, client`held, client`trace, this`drops
      modifies server`looks, server`warmed, server.cache, server.graph, budget
      ensures server.cache.Tracked() && budget.Valid() && client.Valid() && !client.held
      // Refused: nothing at all was done.
      ensures r.Err? <==> CheckBatch(ids, BATCH_CAP).Some?
      ensures r.Err? ==> Untouched()
      ensures r.Ok? ==>
                && |run.targets| == |ids|
                && AllSettled(
                     Addressed(Patch, ids, run.targets, Same(StatusIs(completed), |ids|)),
                     ids, SkipsDone(completed), r.value, run, budget.deadline, client.maxAttempts)
                && AllResolved(WantedIn(ids, list), lists, run.look, server.cache.ttl, run.targets, run.sync)
                && old(server.looks) + [run.look] <= server.looks
                && client.trace == old(client.trace) + Strung(run.deeds) && SyncedOnce(run.sync, lists)
                && |run.deeds| == |run.places| == |run.targets|
                && drops == old(drops) + DropsOf(run.targets, run.places, run.deeds, |old(client.trace)|)
    {
      run := NO_RUN;
      var refusal := CheckBatch(ids, BATCH_CAP);
      if refusal.Some? {
        return Err(refusal.value), run;
      }
      var targets;
      ghost var look, sync;
      targets, look, sync := ResolveTargets(WantedIn(ids, list), lists, budget);
      var report;
      report, run := WriteCompletions(ids, targets, completed, budget.deadline, look, sync);
      r := Ok(report);
    }

    /** Delete what was resolved, under a write budget of its own. */
    method WriteDeletions(
        ids: seq<string>, targets: seq<Resolved>, deadline: int, ghost look: SyncAccount.Look, ghost sync: Option<Synced>)
      returns (report: Report, ghost run: ToolRun)
      requires server.cache.Tracked() && client.Valid() && client.maxAttempts <= MAX_ATTEMPTS_CAP && !client.held
      requires |targets| == |ids| <= BATCH_CAP && forall i | 0 <= i < |ids| :: targets[i] != Err(Internal)
      modifies client`time, client`held, client`trace, this`drops, server.cache, server.graph`time, server.graph`calm
      ensures server.cache.Tracked() && client.Valid() && !client.held
      ensures AllSettled(
                Addressed(Delete, ids, targets, Same(NoBody, |ids|)),
                ids, SkipsFlagged(), report, run, deadline, client.maxAttempts)
      ensures run == ToolRun(look, targets, sync, run.places, run.deeds)
      ensures client.trace == old(client.trace) + Strung(run.deeds)
      ensures drops == old(drops) + DropsOf(targets, run.places, run.deeds, |old(client.trace)|)
    {
      var writes := WriteBudget(deadline, |ids|);
      ghost var granted := writes.requestsLeft;
      ghost var places, deeds;
      report, places, deeds := DeleteAll(ids, targets, writes);
      run := ToolRun(look, targets, sync, places, deeds);
      BookedMeans(old(Book(client.trace, drops)), Book(client.trace, drops), targets, places, deeds);
      PhaseSettles(
        Addressed(Delete, ids, targets, Same(NoBody, |ids|)),
        ids, run, SkipsFlagged(), report, client.time >= writes.deadline,
        granted, writes.requestsLeft, client.maxAttempts, old(client.trace), client.time, writes.deadline);
    }

    /** `todo_delete_tasks`. */
    method DeleteTasks(ids: seq<string>, confirm: Option<bool>, list: Option<string>, lists: seq<TaskList>, budget: Budget)
      returns (r: Result<Report, Refusal>, ghost run: ToolRun)
      requires server.cache.Tracked() && budget.Valid() && Distinct(IdsOf(lists))
      requires client.Valid() && client.maxAttempts <= MAX_ATTEMPTS_CAP && !client.held
      modifies client`time, client`held, client`trace, this`drops
      modifies server`looks, server`warmed, server.cache, server.graph, budget
      ensures server.cache.Tracked() && budget.Valid() && client.Valid() && !client.held
      // Refused: nothing at all was done.
      ensures r.Err? <==> confirm != Some(true) || CheckBatch(ids, BATCH_CAP).Some?
      ensures r.Err? ==> Untouched()
      ensures r.Ok? ==>
                && |run.targets| == |ids|
                && AllSettled(
                     Addressed(Delete, ids, run.targets, Same(NoBody, |ids|)),
                     ids, SkipsFlagged(), r.value, run, budget.deadline, client.maxAttempts)
                && AllResolved(WantedIn(ids, list), lists, run.look, server.cache.ttl, run.targets, run.sync)
                && old(server.looks) + [run.look] <= server.looks
                && client.trace == old(client.trace) + Strung(run.deeds) && SyncedOnce(run.sync, lists)
                && |run.deeds| == |run.places| == |run.targets|
                && drops == old(drops) + DropsOf(run.targets, run.places, run.deeds, |old(client.trace)|)
    {
      run := NO_RUN;
      if confirm != Some(true) {
        return Err(Unconfirmed), run;
      }
      var refusal := CheckBatch(ids, BATCH_CAP);
      if refusal.Some? {
        return Err(refusal.value), run;
      }
      var targets;
      ghost var look, sync;
      targets, look, sync := ResolveTargets(WantedIn(ids, list), lists, budget);
      var report;
      report, run := WriteDeletions(ids, targets, budget.deadline, look, sync);
      r := Ok(report);
    }

    /** Update what was resolved, under a write budget of its own. */
    method WriteUpdates(
        ids: seq<string>, targets: seq<Resolved>, fields: seq<string>, deadline: int, ghost look: SyncAccount.Look,
        ghost sync: Option<Synced>)
      returns (report: Report, ghost run: ToolRun)
      requires server.cache.Tracked() && client.Valid() && client.maxAttempts <= MAX_ATTEMPTS_CAP && !client.held
      requires |fields| == |targets| == |ids| <= UPDATE_CAP && forall i | 0 <= i < |ids| :: targets[i] != Err(Internal)
      modifies client`time, client`held, client`trace, this`drops, server.cache, server.graph`time, server.graph`calm
      ensures server.cache.Tracked() && client.Valid() && !client.held
      ensures AllSettled(
                Addressed(Patch, ids, targets, FieldsOf(fields)),
                ids, SkipsNothing(), report, run, deadline, client.maxAttempts)
      ensures run == ToolRun(look, targets, sync, run.places, run.deeds)
      ensures client.trace == old(client.trace) + Strung(run.deeds)
      ensures drops == old(drops) + DropsOf(targets, run.places, run.deeds, |old(client.trace)|)
    {
      var writes := WriteBudget(deadline, |ids|);
      ghost var granted := writes.requestsLeft;
      ghost var places, deeds;
      report, places, deeds := UpdateAll(ids, targets, fields, writes);
      run := ToolRun(look, targets, sync, places, deeds);
      BookedMeans(old(Book(client.trace, drops)), Book(client.trace, drops), targets, places, deeds);
      PhaseSettles(
        Addressed(Patch, ids, targets, FieldsOf(fields)),
        ids, run, SkipsNothing(), report, client.time >= writes.deadline,
        granted, writes.requestsLeft, client.maxAttempts, old(client.trace), client.time, writes.deadline);
    }

    /** `todo_update_tasks`. */
    method UpdateTasks(wanted: seq<Wanted>, fields: seq<string>, lists: seq<TaskList>, budget: Budget)
      returns (r: Result<Report, Refusal>, ghost run: ToolRun)
      requires server.cache.Tracked() && budget.Valid() && Distinct(IdsOf(lists)) && |fields| == |wanted|
      requires client.Valid() && client.maxAttempts <= MAX_ATTEMPTS_CAP && !client.held
      modifies client`time, client`held, client`trace, this`drops
      modifies server`looks, server`warmed, server.cache, server.graph, budget
      ensures server.cache.Tracked() && budget.Valid() && client.Valid() && !client.held
      // Refused: nothing at all was done.
      ensures r.Err? <==> CheckBatch(IdsWanted(wanted), UPDATE_CAP).Some?
      ensures r.Err? ==> Untouched()
      ensures r.Ok? ==>
                && |run.targets| == |IdsWanted(wanted)|
                && AllSettled(
                     Addressed(Patch, IdsWanted(wanted), run.targets, FieldsOf(fields)),
                     IdsWanted(wanted), SkipsNothing(), r.value, run, budget.deadline, client.maxAttempts)
                && AllResolved(wanted, lists, run.look, server.cache.ttl, run.targets, run.sync)
                && old(server.looks) + [run.look] <= server.looks
                && client.trace == old(client.trace) + Strung(run.deeds) && SyncedOnce(run.sync, lists)
                && |run.deeds| == |run.places| == |run.targets|
                && drops == old(drops) + DropsOf(run.targets, run.places, run.deeds, |old(client.trace)|)
    {
      run := NO_RUN;
      var ids := IdsWanted(wanted);
      var refusal := CheckBatch(ids, UPDATE_CAP);
      if refusal.Some? {
        return Err(refusal.value), run;
      }
      var targets;
      ghost var look, sync;
      targets, look, sync := ResolveTargets(wanted, lists, budget);
      var report;
      report, run := WriteUpdates(ids, targets, fields, budget.deadline, look, sync);
      r := Ok(report);
    }
  }
}
