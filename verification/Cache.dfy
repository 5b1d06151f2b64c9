/**
 * The task cache: per-list entries with a time to live, a total that follows
 * them, and a least-recently-fetched order that decides who is evicted.
 */
module Cache {
  import opened Wrappers
  import opened Models
  import opened Truncation
  import opened Exchanges
  import opened Coherence

  /** A cache label: a hash of the default list's id, once a catalogue is known. */
  datatype Mailbox = MailboxPending | MailboxUnknown | MailboxOf(hash: nat)

  datatype Catalogue = Catalogue(fetchedAt: int, lists: seq<TaskList>)

  datatype ListTasks = ListTasks(fetchedAt: int, complete: bool, tasks: seq<Task>, index: map<string, nat>)

  // -------------------------------------------------------------------------
  // The specification: sizes, order, victims

  /** The number of tasks an entry holds; nothing for a list that is not cached. */
  function Size(m: map<string, ListTasks>, id: string): nat {
    if id in m then |m[id].tasks| else 0
  }

  /** The number of tasks under the keys of an order. */
  function Sum(order: seq<string>, m: map<string, ListTasks>): nat {
    if order == [] then 0 else Size(m, order[0]) + Sum(order[1..], m)
  }

  function Without(order: seq<string>, id: string): seq<string> {
    if order == [] then []
    else (if order[0] == id then [] else [order[0]]) + Without(order[1..], id)
  }

  /** Keys in order of their last fetch, the first no earlier than `floor`. */
  predicate Ordered(order: seq<string>, stamps: map<string, nat>, floor: nat) {
    order != [] ==>
      && order[0] in stamps && floor <= stamps[order[0]]
      && Ordered(order[1..], stamps, stamps[order[0]] + 1)
  }

  /** What `Ordered` says: later in the order, later fetched; so no key twice. */
  lemma {:induction false} OrderedByFetch(order: seq<string>, stamps: map<string, nat>, floor: nat)
    requires Ordered(order, stamps, floor)
    ensures forall i | 0 <= i < |order| :: order[i] in stamps && floor <= stamps[order[i]]
    ensures forall i, j | 0 <= i < j < |order| :: stamps[order[i]] < stamps[order[j]]
  {
    if order != [] {
      var rest := order[1..];
      OrderedByFetch(rest, stamps, stamps[order[0]] + 1);
      assert forall i | 0 < i < |order| :: order[i] == rest[i - 1];
    }
  }

  lemma LowerFloor(order: seq<string>, stamps: map<string, nat>, floor: nat, lower: nat)
    requires Ordered(order, stamps, floor) && lower <= floor
    ensures Ordered(order, stamps, lower)
  {
  }

  lemma {:induction false} WithoutKeeps(order: seq<string>, id: string, stamps: map<string, nat>, floor: nat)
    requires Ordered(order, stamps, floor)
    ensures Ordered(Without(order, id), stamps, floor)
  {
    if order != [] {
      WithoutKeeps(order[1..], id, stamps, stamps[order[0]] + 1);
      var w := Without(order[1..], id);
      if order[0] == id {
        assert Without(order, id) == w;
        LowerFloor(w, stamps, stamps[order[0]] + 1, floor);
      } else {
        assert Without(order, id) == [order[0]] + w;
        assert ([order[0]] + w)[1..] == w;
      }
    }
  }

  lemma {:induction false} WithoutMembers(order: seq<string>, id: string)
    ensures forall x :: x in Without(order, id) <==> x in order && x != id
    ensures id !in order ==> Without(order, id) == order
  {
    if order != [] {
      WithoutMembers(order[1..], id);
      assert forall x :: x in order <==> x == order[0] || x in order[1..];
    }
  }

  lemma {:induction false} AppendKeeps(order: seq<string>, id: string, stamps: map<string, nat>, floor: nat, next: nat)
    requires Ordered(order, stamps, floor) && id !in order && floor <= next
    requires forall x | x in order :: x in stamps && stamps[x] < next
    ensures Ordered(order + [id], stamps[id := next], floor)
  {
    if order == [] {
      assert (order + [id])[1..] == [];
    } else {
      assert order[0] in order && id !in order[1..];
      AppendKeeps(order[1..], id, stamps, stamps[order[0]] + 1, next);
      assert (order + [id])[1..] == order[1..] + [id];
    }
  }

  /** Only the entries under an order's keys matter to its sum. */
  lemma {:induction false} SumSame(order: seq<string>, m: map<string, ListTasks>, m': map<string, ListTasks>)
    requires forall x | x in order :: Size(m, x) == Size(m', x)
    ensures Sum(order, m) == Sum(order, m')
  {
    if order != [] {
      assert order[0] in order;
      SumSame(order[1..], m, m');
    }
  }

  lemma {:induction false} SumWithout(order: seq<string>, m: map<string, ListTasks>, id: string, stamps: map<string, nat>, floor: nat)
    requires Ordered(order, stamps, floor)
    ensures Sum(order, m) == Sum(Without(order, id), m - {id}) + (if id in order then Size(m, id) else 0)
  {
    if order != [] {
      var rest := order[1..];
      SumWithout(rest, m, id, stamps, stamps[order[0]] + 1);
      OrderedByFetch(order, stamps, floor);
      if order[0] == id {
        assert id !in rest;
        assert Without(order, id) == Without(rest, id);
      } else {
        assert Without(order, id)[0] == order[0] && Without(order, id)[1..] == Without(rest, id);
      }
    }
  }

  lemma {:induction false} SumAppend(a: seq<string>, b: seq<string>, m: map<string, ListTasks>)
    ensures Sum(a + b, m) == Sum(a, m) + Sum(b, m)
  {
    if a == [] {
      assert a + b == b;
    } else {
      assert (a + b)[1..] == a[1..] + b;
      SumAppend(a[1..], b, m);
    }
  }

  /** The number of tasks in all the entries of a map, in no order. */
  ghost function Total(m: map<string, ListTasks>): nat {
    if m == map[] then 0 else
    var k :| k in m;
    |m[k].tasks| + Total(m - {k})
  }

  lemma {:induction false} SumOfNothing(order: seq<string>)
    ensures Sum(order, map[]) == 0
  {
    if order != [] {
      SumOfNothing(order[1..]);
    }
  }

  /** An order that lists each key once sums to the whole map. */
  lemma {:induction false} SumIsTotal(order: seq<string>, m: map<string, ListTasks>, stamps: map<string, nat>, floor: nat)
    requires Ordered(order, stamps, floor) && forall id :: id in order <==> id in m
    ensures Sum(order, m) == Total(m)
    decreases |m|
  {
    if m == map[] {
      SumOfNothing(order);
    } else {
      var k :| k in m && Total(m) == |m[k].tasks| + Total(m - {k});
      SumWithout(order, m, k, stamps, floor);
      WithoutKeeps(order, k, stamps, floor);
      WithoutMembers(order, k);
      SumIsTotal(Without(order, k), m - {k}, stamps, floor);
    }
  }

  function Prefix(order: seq<string>, n: nat): set<string>
    requires n <= |order|
  {
    set x | x in order[..n]
  }

  /** Evicting the oldest candidate while the total does not fit: the entries and
      candidates left. */
  function Evicted(candidates: seq<string>, m: map<string, ListTasks>, total: int, max: nat): (map<string, ListTasks>, seq<string>) {
    if total <= max || candidates == [] then (m, candidates)
    else Evicted(candidates[1..], m - {candidates[0]}, total - Size(m, candidates[0]), max)
  }

  /** The victims are the shortest prefix that is enough: what is left fits, or
      nothing evictable is left; and after any shorter prefix it does not fit. */
  lemma {:induction false} VictimsAreTheShortestPrefix(candidates: seq<string>, m: map<string, ListTasks>, total: int, max: nat)
    returns (n: nat)
    requires forall i, j | 0 <= i < j < |candidates| :: candidates[i] != candidates[j]
    ensures n <= |candidates|
    ensures Evicted(candidates, m, total, max) == (m - Prefix(candidates, n), candidates[n..])
    ensures total - Sum(candidates[..n], m) <= max || n == |candidates|
    ensures forall j | 0 <= j < n :: total - Sum(candidates[..j], m) > max
  {
    assert candidates[..0] == [];
    if total <= max || candidates == [] {
      n := 0;
      assert m - Prefix(candidates, 0) == m;
    } else {
      var first, rest := candidates[0], candidates[1..];
      var m' := m - {first};
      var k := VictimsAreTheShortestPrefix(rest, m', total - Size(m, first), max);
      n := k + 1;
      PrefixGrows(candidates, k, m);
      assert candidates[n..] == rest[k..];
      SumOfPrefix(candidates, m, n);
      forall j | 0 <= j < n
        ensures total - Sum(candidates[..j], m) > max
      {
        if j > 0 {
          SumOfPrefix(candidates, m, j);
        }
      }
    }
  }

  lemma PrefixGrows(candidates: seq<string>, k: nat, m: map<string, ListTasks>)
    requires k < |candidates|
    ensures m - {candidates[0]} - Prefix(candidates[1..], k) == m - Prefix(candidates, k + 1)
  {
    var first, rest := candidates[0], candidates[1..];
    assert candidates[..k + 1] == [first] + rest[..k];
    assert Prefix(candidates, k + 1) == {first} + Prefix(rest, k);
  }

  lemma SumOfPrefix(candidates: seq<string>, m: map<string, ListTasks>, j: nat)
    requires 0 < j <= |candidates| && candidates[0] !in candidates[1..]
    ensures Sum(candidates[..j], m) == Size(m, candidates[0]) + Sum(candidates[1..][..j - 1], m - {candidates[0]})
  {
    assert candidates[..j][1..] == candidates[1..][..j - 1];
    SumSame(candidates[1..][..j - 1], m, m - {candidates[0]});
  }

  /** Dropping the oldest leaves the rest as it was. */
  lemma WithoutFirst(order: seq<string>)
    requires order != [] && order[0] !in order[1..]
    ensures Without(order, order[0]) == order[1..]
  {
    WithoutMembers(order[1..], order[0]);
  }

  /** `enumerate().map(|(i, t)| (t.id, i)).collect()`: a later duplicate wins. */
  function IndexOf(tasks: seq<Task>): map<string, nat> {
    if tasks == [] then map[]
    else IndexOf(tasks[..|tasks| - 1])[tasks[|tasks| - 1].id := |tasks| - 1]
  }

  /** An entry's age is less than the time to live; at 0 nothing is fresh. */
  predicate FreshFor(ttl: nat, fetchedAt: int, now: int) {
    ttl != 0 && Max(now - fetchedAt, 0) < ttl
  }

  /** An entry as it is stored, with its index. */
  function Entry(now: int, complete: bool, tasks: seq<Task>): (e: ListTasks)
    ensures e.tasks == tasks && e.index == IndexOf(e.tasks)
  {
    ListTasks(now, complete, tasks, IndexOf(tasks))
  }

  lemma {:induction false} IndexCoversOne(tasks: seq<Task>, id: string)
    ensures id in IndexOf(tasks) <==> exists i :: 0 <= i < |tasks| && tasks[i].id == id
    ensures id in IndexOf(tasks) ==>
              && IndexOf(tasks)[id] < |tasks| && tasks[IndexOf(tasks)[id]].id == id
              && forall j | IndexOf(tasks)[id] < j < |tasks| :: tasks[j].id != id
  {
    if tasks != [] {
      var last := |tasks| - 1;
      var rest := tasks[..last];
      IndexCoversOne(rest, id);
      if tasks[last].id == id {
        assert IndexOf(tasks)[id] == last;
      } else if id in IndexOf(rest) {
        assert rest[IndexOf(rest)[id]] == tasks[IndexOf(rest)[id]];
        assert forall j | 0 <= j < last :: rest[j] == tasks[j];
      } else {
        assert forall j | 0 <= j < last :: tasks[j] == rest[j];
      }
    }
  }

  /** An index covers exactly its list's ids, each at the last task that has it. */
  lemma IndexCovers(tasks: seq<Task>)
    ensures forall id :: id in IndexOf(tasks) <==> exists i :: 0 <= i < |tasks| && tasks[i].id == id
    ensures forall id | id in IndexOf(tasks) ::
              && IndexOf(tasks)[id] < |tasks| && tasks[IndexOf(tasks)[id]].id == id
              && forall j | IndexOf(tasks)[id] < j < |tasks| :: tasks[j].id != id
  {
    forall id
      ensures id in IndexOf(tasks) <==> exists i :: 0 <= i < |tasks| && tasks[i].id == id
      ensures id in IndexOf(tasks) ==>
                && IndexOf(tasks)[id] < |tasks| && tasks[IndexOf(tasks)[id]].id == id
                && forall j | IndexOf(tasks)[id] < j < |tasks| :: tasks[j].id != id
    {
      IndexCoversOne(tasks, id);
    }
  }

  predicate Listed(order: seq<string>, m: map<string, ListTasks>, id: string) {
    id in order <==> id in m
  }

  predicate Stamped(stamps: map<string, nat>, fetches: nat, id: string) {
    id in stamps ==> stamps[id] < fetches
  }

  predicate Indexed(m: map<string, ListTasks>, id: string) {
    id in m ==> m[id].index == IndexOf(m[id].tasks)
  }

  /** The cross-field invariants, for one id. */
  ghost predicate SoundAt(
    m: map<string, ListTasks>, total: nat, order: seq<string>, stamps: map<string, nat>, fetches: nat, id: string)
  {
    && total == Sum(order, m) && Ordered(order, stamps, 0)
    && Listed(order, m, id) && Stamped(stamps, fetches, id) && Indexed(m, id)
  }

  /** The cross-field invariants. */
  ghost predicate Sound(m: map<string, ListTasks>, total: nat, order: seq<string>, stamps: map<string, nat>, fetches: nat) {
    forall id :: SoundAt(m, total, order, stamps, fetches, id)
  }

  /** And what they say. */
  lemma Opened(m: map<string, ListTasks>, total: nat, order: seq<string>, stamps: map<string, nat>, fetches: nat)
    requires Sound(m, total, order, stamps, fetches)
    ensures total == Sum(order, m) && Ordered(order, stamps, 0)
    ensures forall id :: id in order <==> id in m
    ensures forall id | id in stamps :: stamps[id] < fetches
    ensures forall id | id in m :: m[id].index == IndexOf(m[id].tasks)
  {
    assert SoundAt(m, total, order, stamps, fetches, "");
    forall id
      ensures Listed(order, m, id) && Stamped(stamps, fetches, id) && Indexed(m, id)
    {
      assert SoundAt(m, total, order, stamps, fetches, id);
    }
    assert forall id :: Listed(order, m, id) ==> (id in order <==> id in m);
    assert forall id | id in stamps :: Stamped(stamps, fetches, id);
    assert forall id | id in m :: Indexed(m, id);
  }

  lemma RemoveSound(m: map<string, ListTasks>, total: nat, order: seq<string>, stamps: map<string, nat>, fetches: nat, id: string)
    requires Sound(m, total, order, stamps, fetches)
    ensures Size(m, id) <= total
    ensures Sound(m - {id}, total - Size(m, id), Without(order, id), stamps, fetches)
  {
    Opened(m, total, order, stamps, fetches);
    WithoutKeeps(order, id, stamps, 0);
    WithoutMembers(order, id);
    SumWithout(order, m, id, stamps, 0);
  }

  lemma PutSound(m: map<string, ListTasks>, total: nat, order: seq<string>, stamps: map<string, nat>, fetches: nat, id: string, e: ListTasks)
    requires Sound(m, total, order, stamps, fetches) && id !in m && e.index == IndexOf(e.tasks)
    ensures Sound(m[id := e], total + |e.tasks|, order + [id], stamps[id := fetches], fetches + 1)
  {
    Opened(m, total, order, stamps, fetches);
    OrderedByFetch(order, stamps, 0);
    AppendKeeps(order, id, stamps, 0, fetches);
    SumAppend(order, [id], m[id := e]);
    SumSame(order, m, m[id := e]);
    assert Sum([id], m[id := e]) == |e.tasks| + Sum([id][1..], m[id := e]);
  }

  /** The reading of `Sound`: the running total counts the map's tasks, and the
      order lists each key once, by last fetch. */
  lemma SoundMeans(m: map<string, ListTasks>, total: nat, order: seq<string>, stamps: map<string, nat>, fetches: nat)
    requires Sound(m, total, order, stamps, fetches)
    ensures total == Total(m)
    ensures forall i | 0 <= i < |order| :: order[i] in stamps
    ensures forall i, j | 0 <= i < j < |order| :: order[i] != order[j] && stamps[order[i]] < stamps[order[j]]
    ensures forall id | id in m, i | 0 <= i < |m[id].tasks| ::
              && m[id].tasks[i].id in m[id].index
              && m[id].index[m[id].tasks[i].id] < |m[id].tasks|
              && m[id].tasks[m[id].index[m[id].tasks[i].id]].id == m[id].tasks[i].id
  {
    Opened(m, total, order, stamps, fetches);
    SumIsTotal(order, m, stamps, 0);
    OrderedByFetch(order, stamps, 0);
    forall id | id in m, i | 0 <= i < |m[id].tasks|
      ensures m[id].tasks[i].id in m[id].index && m[id].index[m[id].tasks[i].id] < |m[id].tasks|
      ensures m[id].tasks[m[id].index[m[id].tasks[i].id]].id == m[id].tasks[i].id
    {
      IndexCovers(m[id].tasks);
    }
  }

  lemma {:induction false} EvictedIsASubmap(candidates: seq<string>, m: map<string, ListTasks>, total: int, max: nat)
    ensures var left := Evicted(candidates, m, total, max).0;
            && (forall x | x in left :: x in m && left[x] == m[x])
            && (forall x | x in m && x !in candidates :: x in left)
  {
    if total > max && candidates != [] {
      EvictedIsASubmap(candidates[1..], m - {candidates[0]}, total - Size(m, candidates[0]), max);
    }
  }

  /** What `PutList` leaves: the new entry, and no entry that was not there. */
  lemma PutLeaves(before: map<string, ListTasks>, lru: seq<string>, id: string, e: ListTasks, total: int, max: nat)
    ensures var after := Evicted(Without(lru, id), (before - {id})[id := e], total, max).0;
            && id in after && after[id] == e
            && (forall x | x in after && x != id :: x in before && after[x] == before[x])
  {
    WithoutMembers(lru, id);
    EvictedIsASubmap(Without(lru, id), (before - {id})[id := e], total, max);
  }

  // -------------------------------------------------------------------------
  // Where entries come from

  /** An entry that this server stored holds the first of what Graph answered for its
      list, once the generation it was stored under had been read. */
  ghost predicate SourcedAt(tasks: map<string, ListTasks>, brought: map<string, Log>, id: string) {
    id in tasks && id in brought ==> tasks[id].tasks <= Truncated(Gathered(brought[id], id))
  }

  ghost predicate Sourced(tasks: map<string, ListTasks>, brought: map<string, Log>) {
    forall id {:trigger SourcedAt(tasks, brought, id)} :: SourcedAt(tasks, brought, id)
  }

  lemma SourcedStays(
      tasks: map<string, ListTasks>, brought: map<string, Log>, tasks': map<string, ListTasks>, brought': map<string, Log>)
    requires Sourced(tasks, brought)
    requires forall id | id in tasks' && id in brought' ::
               (id in tasks && id in brought && tasks'[id] == tasks[id] && brought'[id] == brought[id])
               || SourcedAt(tasks', brought', id)
    ensures Sourced(tasks', brought')
  {
    forall id
      ensures SourcedAt(tasks', brought', id)
    {
      assert SourcedAt(tasks, brought, id);
    }
  }

  /** A fill may store a list: it has begun to fetch it, and the generation it goes by is
      the current one. */
  predicate MayStore(w: World, fill: Pid, id: string) {
    CanKeep(w, fill, id) && KeepUnder(w.fills[fill], id) == w.gen
  }

  lemma KeysAfterKeep(w: World, fill: Pid, id: string, evicted: set<string>, keys: set<string>)
    requires MayStore(w, fill, id)
    requires keys == (w.entries.Keys - evicted) + {id}
    ensures Step(w, Keep(fill, id, evicted)).entries.Keys == keys && Step(w, Keep(fill, id, evicted)).gen == w.gen
  {
  }

  lemma StoredIsTracked(
      acts: seq<Action>, w: World, gen: nat, tasks: map<string, ListTasks>, brought: map<string, Log>,
      id: string, kept: seq<Task>, fill: Pid, evicted: set<string>, heard: Option<Log>, tasks': map<string, ListTasks>)
    requires Tracks(acts, w, gen, tasks.Keys) && Sourced(tasks, brought) && MayStore(w, fill, id)
    requires id in tasks' && tasks'[id].tasks == kept && evicted == tasks.Keys - tasks'.Keys
    requires forall x | x in tasks' && x != id :: x in tasks && tasks'[x] == tasks[x]
    requires heard.Some? ==> kept <= Truncated(Gathered(heard.value, id))
    ensures Tracks(acts + [Keep(fill, id, evicted)], Step(w, Keep(fill, id, evicted)), gen, tasks'.Keys)
    ensures Sourced(tasks', if heard.Some? then brought[id := heard.value] else brought - {id})
  {
    TracksMeans(acts, w, gen, tasks.Keys);
    StepTracks(acts, w, gen, tasks.Keys, Keep(fill, id, evicted));
    assert tasks'.Keys == (tasks.Keys - evicted) + {id};
    KeysAfterKeep(w, fill, id, evicted, tasks'.Keys);
    SourcedStays(tasks, brought, tasks', if heard.Some? then brought[id := heard.value] else brought - {id});
  }

  lemma DroppedIsTracked(
      acts: seq<Action>, w: World, gen: nat, tasks: map<string, ListTasks>, brought: map<string, Log>, gone: set<string>)
    requires Tracks(acts, w, gen, tasks.Keys) && Sourced(tasks, brought)
    ensures Sourced(tasks - gone, brought)
    ensures Tracks(acts + [Vanish(gone)], Step(w, Vanish(gone)), gen, (tasks - gone).Keys)
  {
    TracksMeans(acts, w, gen, tasks.Keys);
    StepTracks(acts, w, gen, tasks.Keys, Vanish(gone));
    SourcedStays(tasks, brought, tasks - gone, brought);
    assert (tasks - gone).Keys == tasks.Keys - gone;
  }

  lemma InvalidatedIsTracked(
      acts: seq<Action>, w: World, gen: nat, tasks: map<string, ListTasks>, brought: map<string, Log>, id: string)
    requires Tracks(acts, w, gen, tasks.Keys) && Sourced(tasks, brought)
    ensures Sourced(tasks - {id}, brought)
    ensures Tracks(acts + [Invalidate(id)], Step(w, Invalidate(id)), gen + 1, (tasks - {id}).Keys)
  {
    TracksMeans(acts, w, gen, tasks.Keys);
    StepTracks(acts, w, gen, tasks.Keys, Invalidate(id));
    SourcedStays(tasks, brought, tasks - {id}, brought);
    assert (tasks - {id}).Keys == tasks.Keys - {id};
  }

  lemma NothingIsSourced(brought: map<string, Log>)
    ensures Sourced(map[], brought)
  {
    forall id
      ensures SourcedAt(map[], brought, id)
    {
      var none: map<string, ListTasks> := map[];
      assert id !in none;
    }
  }

  lemma ResetIsTracked(acts: seq<Action>, w: World, gen: nat, keys: set<string>)
    requires Tracks(acts, w, gen, keys)
    ensures Tracks(acts + [Reset], Step(w, Reset), gen + 1, {})
    ensures Tracks(acts + [MoveOn], Step(w, MoveOn), gen + 1, keys)
  {
    TracksMeans(acts, w, gen, keys);
    assert Step(w, Reset).gen == gen + 1 && Step(w, Reset).entries == map[];
    assert Step(w, Reset).entries.Keys == {};
    StepTracks(acts, w, gen, keys, Reset);
    StepTracks(acts, w, gen, keys, MoveOn);
  }

  // -------------------------------------------------------------------------
  // The cache

  class Cache {
    const ttl: nat
    const maxTasks: nat
    /** The label's hash, of which only determinism is used. */
    const hash: string -> nat

    var mailbox: Mailbox
    var generation: nat
    var catalogue: Option<Catalogue>
    var tasks: map<string, ListTasks>
    var totalTasks: nat
    var lru: seq<string>

    /** When each entry was last fetched, counting fetches. */
    ghost var stamps: map<string, nat>
    ghost var fetches: nat

    /** Every step of fills and mutations so far, and what they come to. */
    ghost var acts: seq<Action>
    ghost var world: World
    /** What had been heard from Graph when the generation was last read for a list; and,
        for an entry this server stored, what was heard from then until it was stored. */
    ghost var readAt: map<string, Log>
    ghost var brought: map<string, Log>

    ghost predicate Valid()
      reads this
    {
      && Sound(tasks, totalTasks, lru, stamps, fetches)
      && (ttl == 0 ==> tasks == map[] && catalogue.None?)
    }

    /** The history is a run of fills and mutations that leaves exactly these entries under
        this generation, and what this server stored was answered by Graph. */
    ghost predicate Tracked()
      reads this
    {
      Valid() && Tracks(acts, world, generation, tasks.Keys) && Sourced(tasks, brought)
    }

    constructor (ttl: nat, maxTasks: nat, hash: string -> nat)
      ensures Tracked() && tasks == map[] && generation == 1 && catalogue.None? && mailbox == MailboxPending
      ensures this.ttl == ttl && this.maxTasks == maxTasks && this.hash == hash
    {
      this.ttl, this.maxTasks, this.hash := ttl, maxTasks, hash;
      mailbox, generation, catalogue := MailboxPending, 1, None;
      tasks, totalTasks, lru := map[], 0, [];
      stamps, fetches := map[], 0;
      acts, world, readAt, brought := [], START, map[], map[];
      new;
      NothingTracks();
    }

    /** A step that changes no entry. */
    ghost method Note(a: Action)
      requires Tracked() && (a.Capture? || a.BeginFetch? || a.Reread? || a.Abandon?)
      modifies this`acts, this`world
      ensures Tracked() && acts == old(acts) + [a] && world == Step(old(world), a)
    {
      TracksMeans(acts, world, generation, tasks.Keys);
      StepTracks(acts, world, generation, tasks.Keys, a);
      acts, world := acts + [a], Step(world, a);
    }

    predicate Fresh(fetchedAt: int, now: int) {
      FreshFor(ttl, fetchedAt, now)
    }

    function DeriveMailbox(lists: seq<TaskList>): Mailbox {
      if lists == [] then MailboxUnknown
      else if lists[0].wellknown == Some("defaultList") then MailboxOf(hash(lists[0].id))
      else DeriveMailbox(lists[1..])
    }

    /** `list`: a list's entry if fresh, complete or not. */
    function List(id: string, now: int): Option<ListTasks>
      reads this
    {
      if id in tasks && Fresh(tasks[id].fetchedAt, now) then Some(tasks[id]) else None
    }

    /** `ListTasks::get`, safe because the index is sound. */
    function Get(id: string, taskId: string): Option<Task>
      requires Valid() && id in tasks
      reads this
      ensures Get(id, taskId).Some? <==> exists i :: 0 <= i < |tasks[id].tasks| && tasks[id].tasks[i].id == taskId
      ensures Get(id, taskId).Some? ==> Get(id, taskId).value in tasks[id].tasks && Get(id, taskId).value.id == taskId
    {
      Opened(tasks, totalTasks, lru, stamps, fetches);
      IndexCovers(tasks[id].tasks);
      if taskId in tasks[id].index then Some(tasks[id].tasks[tasks[id].index[taskId]]) else None
    }

    method ResetPreservingMailbox()
      modifies this
      ensures Valid() && tasks == map[] && lru == [] && totalTasks == 0 && catalogue.None?
      ensures generation == old(generation) + 1 && mailbox == old(mailbox)
      ensures acts == old(acts) + [Reset] && world == Step(old(world), Reset) && (old(Tracked()) ==> Tracked())
      ensures readAt == old(readAt)
    {
      if Tracked() {
        ResetIsTracked(acts, world, generation, tasks.Keys);
      }
      acts, world := acts + [Reset], Step(world, Reset);
      catalogue, tasks, totalTasks, lru := None, map[], 0, [];
      generation := generation + 1;
      stamps, fetches := map[], 0;
      assert tasks.Keys == {};
    }

    method ResetForNewAccount()
      modifies this
      ensures Valid() && tasks == map[] && catalogue.None?
      ensures generation == old(generation) + 1 && mailbox == MailboxPending
      ensures acts == old(acts) + [Reset] && world == Step(old(world), Reset) && (old(Tracked()) ==> Tracked())
      ensures readAt == old(readAt)
    {
      ResetPreservingMailbox();
      mailbox := MailboxPending;
    }

    /** Drop one entry. The subtraction saturates in the source; here it is proved
        never to. */
    method RemoveList(id: string)
      requires Valid()
      modifies this`tasks, this`totalTasks, this`lru
      ensures Valid() && tasks == old(tasks) - {id} && lru == Without(old(lru), id)
      ensures totalTasks == old(totalTasks) - Size(old(tasks), id)
    {
      RemoveSound(tasks, totalTasks, lru, stamps, fetches, id);
      if id in tasks {
        totalTasks := totalTasks - |tasks[id].tasks|;
      }
      tasks, lru := tasks - {id}, Without(lru, id);
    }

    /** Store a list. `fill` is the one it belongs to, and `heard` what was heard for it, if
        this server asked. */
    method PutList(id: string, fetched: seq<Task>, complete: bool, now: int, ghost fill: Pid, ghost heard: Option<Log>)
      returns (ghost evicted: set<string>)
      requires Valid()
      modifies this`tasks, this`totalTasks, this`lru, this`stamps, this`fetches, this`acts, this`world, this`brought
      ensures Valid()
      ensures ttl == 0 ==> acts == old(acts) && world == old(world)
      ensures ttl != 0 ==>
                acts == old(acts) + [Keep(fill, id, evicted)] && world == Step(old(world), Keep(fill, id, evicted))
      ensures old(Tracked()) && MayStore(old(world), fill, id)
              && (heard.Some? ==> Truncated(fetched) <= Truncated(Gathered(heard.value, id))) ==>
                Tracked()
      ensures ttl == 0 ==> tasks == old(tasks) && lru == old(lru)
      ensures ttl != 0 ==>
                var all := (old(tasks) - {id})[id := Entry(now, complete, Truncated(fetched))];
                var older := Without(old(lru), id);
                var left := Evicted(older, all, old(totalTasks) - Size(old(tasks), id) + |fetched|, maxTasks);
                lru == left.1 + [id] && tasks == left.0
      ensures ttl != 0 ==> (totalTasks <= maxTasks || lru == [id])
    {
      evicted := {};
      if ttl == 0 {
        return;
      }
      var kept := TruncateBodies(fetched);
      Insert(id, Entry(now, complete, kept));
      evicted := old(tasks).Keys - tasks.Keys;
      Record(id, kept, fill, evicted, heard, old(tasks));
    }

    /** A list was stored: what that adds to the history. */
    ghost method Record(
        id: string, kept: seq<Task>, fill: Pid, evicted: set<string>, heard: Option<Log>, before: map<string, ListTasks>)
      requires id in tasks && tasks[id].tasks == kept && evicted == before.Keys - tasks.Keys
      requires forall x | x in tasks && x != id :: x in before && tasks[x] == before[x]
      modifies this`acts, this`world, this`brought
      ensures acts == old(acts) + [Keep(fill, id, evicted)] && world == Step(old(world), Keep(fill, id, evicted))
      ensures old(Tracks(acts, world, generation, before.Keys) && Sourced(before, brought) && MayStore(world, fill, id))
              && (heard.Some? ==> kept <= Truncated(Gathered(heard.value, id))) ==>
                Tracks(acts, world, generation, tasks.Keys) && Sourced(tasks, brought)
    {
      if Tracks(acts, world, generation, before.Keys) && Sourced(before, brought) && MayStore(world, fill, id)
         && (heard.Some? ==> kept <= Truncated(Gathered(heard.value, id))) {
        StoredIsTracked(acts, world, generation, before, brought, id, kept, fill, evicted, heard, tasks);
      }
      brought := if heard.Some? then brought[id := heard.value] else brought - {id};
      acts, world := acts + [Keep(fill, id, evicted)], Step(world, Keep(fill, id, evicted));
    }

    /** The entry goes in, and the oldest go out until it fits. */
    method Insert(id: string, entry: ListTasks)
      requires Valid() && ttl != 0 && entry.index == IndexOf(entry.tasks)
      modifies this`tasks, this`totalTasks, this`lru, this`stamps, this`fetches
      ensures Valid()
      ensures var left := Evicted(
                Without(old(lru), id), (old(tasks) - {id})[id := entry],
                old(totalTasks) - Size(old(tasks), id) + |entry.tasks|, maxTasks);
              lru == left.1 + [id] && tasks == left.0
      ensures totalTasks <= maxTasks || lru == [id]
      ensures id in tasks && tasks[id] == entry
      ensures forall x | x in tasks && x != id :: x in old(tasks) && tasks[x] == old(tasks)[x]
    {
      Replace(id, entry);
      Evict(id, Without(old(lru), id));
      PutLeaves(
        old(tasks), old(lru), id, entry, old(totalTasks) - Size(old(tasks), id) + |entry.tasks|, maxTasks);
    }

    /** Whatever was there goes; the entry goes in at the back of the order. */
    method Replace(id: string, entry: ListTasks)
      requires Valid() && ttl != 0 && entry.index == IndexOf(entry.tasks)
      modifies this`tasks, this`totalTasks, this`lru, this`stamps, this`fetches
      ensures Valid() && tasks == (old(tasks) - {id})[id := entry]
      ensures lru == Without(old(lru), id) + [id]
      ensures totalTasks == old(totalTasks) - Size(old(tasks), id) + |entry.tasks|
    {
      RemoveList(id);
      PutSound(tasks, totalTasks, lru, stamps, fetches, id, entry);
      totalTasks := totalTasks + |entry.tasks|;
      tasks := tasks[id := entry];
      lru := lru + [id];
      stamps, fetches := stamps[id := fetches], fetches + 1;
    }

    /** Evict whole lists, oldest first, until the total fits; never `id`. */
    method Evict(id: string, ghost older: seq<string>)
      requires Valid() && lru == older + [id]
      modifies this`tasks, this`totalTasks, this`lru
      ensures Valid()
      ensures var left := Evicted(older, old(tasks), old(totalTasks), maxTasks);
              lru == left.1 + [id] && tasks == left.0
      ensures totalTasks <= maxTasks || lru == [id]
    {
      ghost var left := older;
      // The first key that is not `id` is the first key, unless `id` is alone.
      while totalTasks > maxTasks && lru[0] != id
        invariant Valid() && lru == left + [id]
        invariant Evicted(left, tasks, totalTasks, maxTasks) == Evicted(older, old(tasks), old(totalTasks), maxTasks)
        decreases |lru|
      {
        Opened(tasks, totalTasks, lru, stamps, fetches);
        OrderedByFetch(lru, stamps, 0);
        WithoutFirst(lru);
        left := left[1..];
        assert lru[1..] == left + [id];
        RemoveList(lru[0]);
      }
      Opened(tasks, totalTasks, lru, stamps, fetches);
      OrderedByFetch(lru, stamps, 0);
      assert lru[|lru| - 1] == id;
      assert lru[0] == id ==> left == [];
    }

    /** Any mutation, successful or of unknown outcome, drops its list. */
    method InvalidateList(id: string)
      requires Valid()
      modifies this`tasks, this`totalTasks, this`lru, this`generation, this`acts, this`world
      ensures Valid() && tasks == old(tasks) - {id} && lru == Without(old(lru), id)
      ensures generation == old(generation) + 1
      ensures acts == old(acts) + [Invalidate(id)] && world == Step(old(world), Invalidate(id))
      ensures old(Tracked()) ==> Tracked()
    {
      if Tracked() {
        InvalidatedIsTracked(acts, world, generation, tasks, brought, id);
      }
      acts, world := acts + [Invalidate(id)], Step(world, Invalidate(id));
      RemoveList(id);
      generation := generation + 1;
    }

    method InvalidateCatalogue()
      requires Valid()
      modifies this`catalogue, this`generation, this`acts, this`world
      ensures Valid() && catalogue.None? && generation == old(generation) + 1
      ensures acts == old(acts) + [MoveOn] && world == Step(old(world), MoveOn) && (old(Tracked()) ==> Tracked())
    {
      if Tracked() {
        ResetIsTracked(acts, world, generation, tasks.Keys);
      }
      acts, world := acts + [MoveOn], Step(world, MoveOn);
      catalogue := None;
      generation := generation + 1;
    }

    /** A new catalogue: another mailbox resets everything; the same one only drops
        the lists that vanished, without moving the generation. */
    method PutCatalogue(lists: seq<TaskList>, now: int)
      requires Valid()
      modifies this
      ensures Valid() && mailbox == DeriveMailbox(lists)
      ensures generation == old(generation) + (if DeriveMailbox(lists) != old(mailbox) then 1 else 0)
      ensures catalogue == if ttl == 0 then None else Some(Catalogue(now, lists))
      ensures DeriveMailbox(lists) != old(mailbox) ==> tasks == map[]
      ensures DeriveMailbox(lists) == old(mailbox) ==>
                tasks == if ttl == 0 then old(tasks)
                         else old(tasks) - (old(tasks).Keys - (set l | l in lists :: l.id))
      ensures readAt == old(readAt) && Mine(world) == Mine(old(world)) && (old(Tracked()) ==> Tracked())
    {
      var known := DeriveMailbox(lists);
      if known != mailbox {
        OthersLeaveMine(world, Reset);
        ResetPreservingMailbox();
        mailbox := known;
      }
      if ttl == 0 {
        return;
      }
      Vanish(lists);
      catalogue := Some(Catalogue(now, lists));
    }

    /** The lists that are not in the catalogue any more. */
    method Vanish(lists: seq<TaskList>)
      requires Valid()
      modifies this`tasks, this`totalTasks, this`lru, this`acts, this`world
      ensures Valid() && tasks == old(tasks) - (old(tasks).Keys - (set l | l in lists :: l.id))
      ensures Mine(world) == Mine(old(world)) && (old(Tracked()) ==> Tracked())
    {
      var live := set l | l in lists :: l.id;
      ghost var gone := tasks.Keys - live;
      if Tracked() {
        DroppedIsTracked(acts, world, generation, tasks, brought, gone);
      }
      OthersLeaveMine(world, Action.Vanish(gone));
      acts, world := acts + [Action.Vanish(gone)], Step(world, Action.Vanish(gone));
      DropAll(tasks.Keys - live);
    }

    /** Lists that vanished take their tasks with them, in whatever order. */
    method DropAll(gone: set<string>)
      requires Valid()
      modifies this`tasks, this`totalTasks, this`lru
      ensures Valid() && tasks == old(tasks) - gone
    {
      var left := gone;
      ghost var done: set<string> := {};
      assert tasks - done == tasks;
      while left != {}
        invariant Valid() && done + left == gone && tasks == old(tasks) - done
        decreases |left|
      {
        var id :| id in left;
        RemoveList(id);
        left, done := left - {id}, done + {id};
      }
    }

    /** Find a task by id in any entry, fresh or not. */
    method FindTask(taskId: string) returns (found: Option<(string, Task)>)
      requires Valid()
      ensures found.Some? ==>
                found.value.0 in tasks && found.value.1.id == taskId && found.value.1 in tasks[found.value.0].tasks
      ensures found.None? ==> forall id, t | id in tasks && t in tasks[id].tasks :: t.id != taskId
    {
      var left := tasks.Keys;
      while left != {}
        invariant left <= tasks.Keys
        invariant forall id, t | id in tasks && id !in left && t in tasks[id].tasks :: t.id != taskId
        decreases |left|
      {
        var id :| id in left;
        var t := Get(id, taskId);
        if t.Some? {
          return Some((id, t.value));
        }
        left := left - {id};
      }
      found := None;
    }
  }

  /** What the history says of an entry: the run of fills and mutations that the cache has
      been through left it there; unless it was stored under a generation that was read
      again and had moved by then, its fetch began after everything that dropped its list;
      and if this server stored it, it is the first of what Graph answered since the
      generation was read for it. */
  lemma EntryIsCoherent(c: Cache, id: string)
    requires c.Tracked() && id in c.tasks
    ensures c.world == Run(START, c.acts) && c.generation == c.world.gen && id in c.world.entries
    ensures !c.world.entries[id].movedUnder ==> c.world.entries[id].began > LastDrop(c.world, id)
    ensures id in c.brought ==> c.tasks[id].tasks <= Truncated(Gathered(c.brought[id], id))
  {
    TracksMeans(c.acts, c.world, c.generation, c.tasks.Keys);
    EntriesAreCoherent(c.acts);
    assert SourcedAt(c.tasks, c.brought, id);
  }
}
