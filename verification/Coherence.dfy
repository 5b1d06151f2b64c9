/**
 * Slow readers fill the cache while writers invalidate it. Every fill reads the
 * generation before it fetches and stores only if it is unchanged afterwards.
 * Any number of fills and mutations interleave here, step by step.
 */
module Coherence {
  import opened Wrappers

  /** Whose fill it is: this server's of a list, or one of some other caller's. */
  datatype Pid = Own(list: string) | Other(n: nat)

  /** A stored entry: when the read of its first page began, and whether it was
      stored under a generation re-read later, which had moved by then. */
  datatype Stored = Stored(began: nat, movedUnder: bool)

  /** A fill in flight: the lists still to store, the generation it captured and
      when, when its fetch began, and, for a list whose further pages are walked
      after the batch, the generation re-read for it. */
  datatype Fill = Fill(lists: set<string>, gen: nat, capturedAt: nat, began: Option<nat>, reread: map<string, nat>)

  datatype World = World(
    time: nat,
    gen: nat,
    entries: map<string, Stored>,
    dropped: map<string, nat>,
    resetAt: nat,
    fills: map<Pid, Fill>)

  datatype Action =
    | Capture(pid: Pid, lists: set<string>)
    | BeginFetch(pid: Pid)
    | Reread(pid: Pid, list: string)
    | Keep(pid: Pid, list: string, evicted: set<string>)
    | Abandon(pid: Pid)
    | Invalidate(list: string)
    | Reset
    | MoveOn
    | Vanish(lists: set<string>)

  /** The last time a list's entry was invalidated, or everything was. */
  function LastDrop(w: World, list: string): nat {
    if list in w.dropped && w.dropped[list] > w.resetAt then w.dropped[list] else w.resetAt
  }

  function KeepUnder(f: Fill, list: string): nat {
    if list in f.reread then f.reread[list] else f.gen
  }

  predicate CanKeep(w: World, p: Pid, list: string) {
    p in w.fills && list in w.fills[p].lists && w.fills[p].began.Some?
  }

  function Step(w: World, a: Action): World {
    var w' := w.(time := w.time + 1);
    match a
    case Capture(p, lists) => w'.(fills := w.fills[p := Fill(lists, w.gen, w.time, None, map[])])
    case BeginFetch(p) =>
      if p in w.fills && w.fills[p].began.None? then
        w'.(fills := w.fills[p := w.fills[p].(began := Some(w.time))])
      else w'
    case Reread(p, list) =>
      if CanKeep(w, p, list) then
        w'.(fills := w.fills[p := w.fills[p].(reread := w.fills[p].reread[list := w.gen])])
      else w'
    case Keep(p, list, evicted) =>
      if !CanKeep(w, p, list) then w' else
      var f := w.fills[p];
      var settled := w'.(fills := w.fills[p := f.(lists := f.lists - {list})]);
      if KeepUnder(f, list) != w.gen then settled
      else settled.(entries := (w.entries - evicted)[list := Stored(f.began.value, f.gen != w.gen)])
    case Abandon(p) => w'.(fills := w.fills - {p})
    case Invalidate(list) =>
      w'.(gen := w.gen + 1, entries := w.entries - {list}, dropped := w.dropped[list := w.time])
    case Reset => w'.(gen := w.gen + 1, entries := map[], resetAt := w.time)
    // The catalogue is forgotten: the generation moves, and no entry goes.
    case MoveOn => w'.(gen := w.gen + 1)
    // A new catalogue of the same mailbox drops vanished lists; no generation moves.
    case Vanish(lists) => w'.(entries := w.entries - lists)
  }

  const START: World := World(1, 1, map[], map[], 0, map[])

  function Run(w: World, acts: seq<Action>): World
    decreases |acts|
  {
    if acts == [] then w else Run(Step(w, acts[0]), acts[1..])
  }

  /** Fetched by a read that began after every invalidation of the list so far. */
  predicate Coherent(w: World, list: string) {
    list in w.entries ==> w.entries[list].began > LastDrop(w, list)
  }

  ghost predicate FillSound(w: World, f: Fill) {
    && f.gen <= w.gen && f.capturedAt < w.time
    && (f.began.Some? ==> f.capturedAt <= f.began.value < w.time)
    && (forall l | l in f.reread :: f.gen <= f.reread[l] <= w.gen)
    // An unmoved generation means nothing was invalidated since the capture.
    && (f.gen == w.gen ==> forall l: string :: LastDrop(w, l) < f.capturedAt)
  }

  ghost predicate Inv(w: World) {
    && (forall l: string :: LastDrop(w, l) < w.time)
    && (forall p | p in w.fills :: FillSound(w, w.fills[p]))
    && (forall l | l in w.entries && !w.entries[l].movedUnder :: Coherent(w, l))
  }

  /** A list's last drop is moved only by a step that moves the generation. */
  lemma StepMovesDrop(w: World, a: Action, list: string)
    requires LastDrop(w, list) < w.time
    ensures LastDrop(w, list) <= LastDrop(Step(w, a), list) < Step(w, a).time
    ensures w.gen <= Step(w, a).gen
    ensures Step(w, a).gen == w.gen ==> LastDrop(Step(w, a), list) == LastDrop(w, list)
  {
  }

  lemma StepMovesDrops(w: World, a: Action)
    requires forall l: string :: LastDrop(w, l) < w.time
    ensures forall l: string :: LastDrop(Step(w, a), l) < Step(w, a).time
    ensures Step(w, a).gen == w.gen ==> forall l: string :: LastDrop(Step(w, a), l) == LastDrop(w, l)
  {
    forall l: string
      ensures LastDrop(Step(w, a), l) < Step(w, a).time
      ensures Step(w, a).gen == w.gen ==> LastDrop(Step(w, a), l) == LastDrop(w, l)
    {
      StepMovesDrop(w, a, l);
    }
  }

  /** A fill stays sound while others act. */
  lemma FillStays(w: World, w': World, f: Fill)
    requires FillSound(w, f) && w.time <= w'.time && w.gen <= w'.gen
    requires w'.gen == w.gen ==> forall l: string :: LastDrop(w', l) == LastDrop(w, l)
    ensures FillSound(w', f)
  {
  }

  lemma StepKeepsFill(w: World, a: Action, p: Pid)
    requires Inv(w) && p in Step(w, a).fills
    ensures FillSound(Step(w, a), Step(w, a).fills[p])
  {
    StepMovesDrops(w, a);
    if p in w.fills {
      var f := w.fills[p];
      assert FillSound(w, f);
      FillStays(w, Step(w, a), f);
    }
  }

  lemma StepKeepsEntry(w: World, a: Action, list: string)
    requires Inv(w) && list in Step(w, a).entries && !Step(w, a).entries[list].movedUnder
    ensures Coherent(Step(w, a), list)
  {
    StepMovesDrops(w, a);
    if a.Keep? && a.list == list && CanKeep(w, a.pid, list) && KeepUnder(w.fills[a.pid], list) == w.gen {
      assert FillSound(w, w.fills[a.pid]);
    } else {
      assert Coherent(w, list);
    }
  }

  lemma StepInv(w: World, a: Action)
    requires Inv(w)
    ensures Inv(Step(w, a))
  {
    StepMovesDrops(w, a);
    forall p | p in Step(w, a).fills
      ensures FillSound(Step(w, a), Step(w, a).fills[p])
    {
      StepKeepsFill(w, a, p);
    }
    forall l | l in Step(w, a).entries && !Step(w, a).entries[l].movedUnder
      ensures Coherent(Step(w, a), l)
    {
      StepKeepsEntry(w, a, l);
    }
  }

  lemma {:induction false} RunInv(w: World, acts: seq<Action>)
    requires Inv(w)
    ensures Inv(Run(w, acts))
    decreases |acts|
  {
    if acts != [] {
      StepInv(w, acts[0]);
      RunInv(Step(w, acts[0]), acts[1..]);
    }
  }

  /** The coherence theorem: in every interleaving, every entry was fetched by a
      read that began after the last invalidation of its list, unless it was
      stored under a re-read generation that had moved since its batch. */
  lemma EntriesAreCoherent(acts: seq<Action>)
    ensures forall l | l in Run(START, acts).entries && !Run(START, acts).entries[l].movedUnder ::
              Coherent(Run(START, acts), l)
  {
    RunInv(START, acts);
  }

  predicate Rereads(a: Action) { a.Reread? }

  ghost predicate NeverMoved(w: World) {
    && (forall p | p in w.fills :: w.fills[p].reread == map[])
    && (forall l | l in w.entries :: !w.entries[l].movedUnder)
  }

  lemma {:induction false} RunNeverMoved(w: World, acts: seq<Action>)
    requires NeverMoved(w) && forall a | a in acts :: !a.Reread?
    ensures NeverMoved(Run(w, acts))
    decreases |acts|
  {
    if acts != [] {
      assert acts[0] in acts;
      assert forall a | a in acts[1..] :: a in acts;
      RunNeverMoved(Step(w, acts[0]), acts[1..]);
    }
  }

  /** So single-list reads, single-page batches and the sequential fallback, none
      of which re-reads a generation, are coherent outright. */
  lemma FillsWithoutRereadAreCoherent(acts: seq<Action>, list: string)
    requires forall a | a in acts :: !a.Reread?
    ensures Coherent(Run(START, acts), list)
  {
    EntriesAreCoherent(acts);
    RunNeverMoved(START, acts);
  }

  // -------------------------------------------------------------------------
  // A cache that keeps its history

  lemma {:induction false} RunAppended(w: World, acts: seq<Action>, a: Action)
    ensures Run(w, acts + [a]) == Step(Run(w, acts), a)
    decreases |acts|
  {
    if acts == [] {
      assert [a][1..] == [];
    } else {
      assert (acts + [a])[1..] == acts[1..] + [a];
      RunAppended(Step(w, acts[0]), acts[1..], a);
    }
  }

  ghost predicate TracksAt(k: int, acts: seq<Action>, w: World, gen: nat, keys: set<string>) {
    w == Run(START, acts) && w.gen == gen && w.entries.Keys == keys
  }

  /** The history of a cache of this generation and these entries is a run that leaves
      `w`. The quantifier only keeps the definition folded. */
  ghost predicate Tracks(acts: seq<Action>, w: World, gen: nat, keys: set<string>) {
    forall k :: TracksAt(k, acts, w, gen, keys)
  }

  lemma NothingTracks()
    ensures Tracks([], START, 1, {})
  {
  }

  lemma TracksMeans(acts: seq<Action>, w: World, gen: nat, keys: set<string>)
    requires Tracks(acts, w, gen, keys)
    ensures w == Run(START, acts) && w.gen == gen && w.entries.Keys == keys
  {
    assert TracksAt(0, acts, w, gen, keys);
  }

  lemma StepTracks(acts: seq<Action>, w: World, gen: nat, keys: set<string>, a: Action)
    requires Tracks(acts, w, gen, keys)
    ensures Tracks(acts + [a], Step(w, a), Step(w, a).gen, Step(w, a).entries.Keys)
  {
    TracksMeans(acts, w, gen, keys);
    RunAppended(START, acts, a);
  }

  /** This server's fills. */
  function Mine(w: World): map<Pid, Fill> {
    map p | p in w.fills && p.Own? :: w.fills[p]
  }

  /** A step of somebody else. */
  predicate OfOthers(a: Action) {
    match a
    case Capture(q, _) => q.Other?
    case BeginFetch(q) => q.Other?
    case Reread(q, _) => q.Other?
    case Keep(q, _, _) => q.Other?
    case Abandon(q) => q.Other?
    case _ => true
  }

  lemma OthersLeaveMine(w: World, a: Action)
    requires OfOthers(a)
    ensures Mine(Step(w, a)) == Mine(w)
  {
  }

  // -------------------------------------------------------------------------
  // Continuations

  /** Whether a step invalidates the list. */
  predicate Drops(a: Action, list: string) {
    a.Reset? || a == Invalidate(list)
  }

  /** Whether a step belongs to the filling process. */
  predicate Concerns(a: Action, p: Pid) {
    match a
    case Capture(q, _) => q == p
    case BeginFetch(q) => q == p
    case Reread(q, _) => q == p
    case Keep(q, _, _) => q == p
    case Abandon(q) => q == p
    case _ => false
  }

  /** Some step of the window invalidates the list. */
  predicate DropsIn(mid: seq<Action>, list: string) {
    mid != [] && (Drops(mid[0], list) || DropsIn(mid[1..], list))
  }

  lemma {:induction false} WindowDrops(w: World, mid: seq<Action>, p: Pid, list: string)
    requires p in w.fills && forall a | a in mid :: !Concerns(a, p)
    ensures p in Run(w, mid).fills && Run(w, mid).fills[p] == w.fills[p] && w.time <= Run(w, mid).time
    ensures if DropsIn(mid, list) then LastDrop(Run(w, mid), list) >= w.time
            else LastDrop(Run(w, mid), list) == LastDrop(w, list)
    decreases |mid|
  {
    if mid != [] {
      assert mid[0] in mid;
      assert forall a | a in mid[1..] :: a in mid;
      var w1 := Step(w, mid[0]);
      WindowDrops(w1, mid[1..], p, list);
      StepDrops(w, mid[0], p, list);
    }
  }

  lemma StepDrops(w: World, a: Action, p: Pid, list: string)
    requires p in w.fills && !Concerns(a, p)
    ensures p in Step(w, a).fills && Step(w, a).fills[p] == w.fills[p]
    ensures if Drops(a, list) then LastDrop(Step(w, a), list) >= w.time
            else LastDrop(Step(w, a), list) == LastDrop(w, list)
  {
  }

  lemma BatchBegins(w: World, p: Pid, list: string)
    requires Inv(w)
    ensures var w2 := Step(Step(w, Capture(p, {list})), BeginFetch(p));
            && p in w2.fills && w2.fills[p].lists == {list} && w2.fills[p].began.Some? && w2.fills[p].reread == map[]
            && LastDrop(w2, list) < w2.fills[p].began.value < w2.time
  {
    assert LastDrop(w, list) < w.time;
    var w1 := Step(w, Capture(p, {list}));
    assert w1.fills[p] == Fill({list}, w.gen, w.time, None, map[]) && w1.time == w.time + 1;
    var w2 := Step(w1, BeginFetch(p));
    assert w2.fills[p].began == Some(w1.time);
  }

  /** Whether a step moves the generation. */
  predicate Moves(a: Action) {
    a.Reset? || a.Invalidate? || a.MoveOn?
  }

  predicate MovedIn(mid: seq<Action>) {
    mid != [] && (Moves(mid[0]) || MovedIn(mid[1..]))
  }

  /** The generation stays exactly while nobody mutates anything, and then nothing is
      dropped. */
  lemma {:induction false} WindowMoves(w: World, mid: seq<Action>, p: Pid, list: string)
    requires p in w.fills && forall a | a in mid :: !Concerns(a, p)
    ensures p in Run(w, mid).fills && Run(w, mid).fills[p] == w.fills[p] && w.gen <= Run(w, mid).gen
    ensures Run(w, mid).gen == w.gen <==> !MovedIn(mid)
    ensures !MovedIn(mid) ==> LastDrop(Run(w, mid), list) == LastDrop(w, list)
    decreases |mid|
  {
    if mid != [] {
      assert mid[0] in mid;
      assert forall a | a in mid[1..] :: a in mid;
      StepDrops(w, mid[0], p, list);
      WindowMoves(Step(w, mid[0]), mid[1..], p, list);
    }
  }

  lemma KeepStores(w: World, p: Pid, list: string, evicted: set<string>)
    requires CanKeep(w, p, list)
    ensures var stored := Step(w, Keep(p, list, evicted));
            && LastDrop(stored, list) == LastDrop(w, list)
            && if KeepUnder(w.fills[p], list) == w.gen
               then list in stored.entries && stored.entries[list].began == w.fills[p].began.value
               else stored.entries == w.entries
  {
  }

  /** The states of a continuation: its first page is fetched with the batch, others
      take steps, the generation is re-read, and others take steps while the further
      pages are walked. */
  function Batched(w: World, p: Pid, list: string): World {
    Step(Step(w, Capture(p, {list})), BeginFetch(p))
  }

  function Walked(w: World, p: Pid, list: string, mid: seq<Action>, walk: seq<Action>): World {
    Run(Step(Run(Batched(w, p, list), mid), Reread(p, list)), walk)
  }

  /** A multi-page list, with any steps of other processes between its batch and the
      generation re-read for its walk, and during the walk. The walk is stored if and
      only if no mutation of any list fell into it; and what is stored is coherent if
      and only if nothing invalidated the list before: the generation the batch
      captured does not protect it any more. */
  lemma ContinuationIsCoherentIff(
      acts: seq<Action>, p: Pid, list: string, mid: seq<Action>, walk: seq<Action>, evicted: set<string>)
    requires forall a | a in mid + walk :: !Concerns(a, p)
    ensures var w := Walked(Run(START, acts), p, list, mid, walk);
            var stored := Step(w, Keep(p, list, evicted));
            && (MovedIn(walk) ==> stored.entries == w.entries)
            && (!MovedIn(walk) ==>
                  && list in stored.entries
                  && stored.entries[list].began == Batched(Run(START, acts), p, list).fills[p].began.value
                  && (Coherent(stored, list) <==> !DropsIn(mid, list)))
  {
    assert forall a | a in mid :: a in mid + walk;
    assert forall a | a in walk :: a in mid + walk;
    RunInv(START, acts);
    BatchBegins(Run(START, acts), p, list);
    var w2 := Batched(Run(START, acts), p, list);
    WindowDrops(w2, mid, p, list);
    var w3 := Step(Run(w2, mid), Reread(p, list));
    WindowMoves(w3, walk, p, list);
    KeepStores(Run(w3, walk), p, list, evicted);
  }

  /** The guard a caller could check: if the generation re-read is the one the
      batch captured, the continuation is as coherent as any other fill. */
  lemma ContinuationUnderSameGeneration(acts: seq<Action>, p: Pid, list: string, evicted: set<string>)
    requires var w := Run(START, acts);
             CanKeep(w, p, list) && KeepUnder(w.fills[p], list) == w.fills[p].gen
    ensures var w := Run(START, acts);
            var stored := Step(w, Keep(p, list, evicted));
            w.fills[p].gen == w.gen ==> list in stored.entries && Coherent(stored, list)
    ensures var w := Run(START, acts);
            var stored := Step(w, Keep(p, list, evicted));
            w.fills[p].gen != w.gen ==> stored.entries == w.entries
  {
    RunInv(START, acts);
    StepInv(Run(START, acts), Keep(p, list, evicted));
  }

  /** A concrete run that stores a stale entry: the batch reads the first page, a
      mutation invalidates the list, then the continuation re-reads and stores. */
  lemma StaleContinuation()
    ensures var p := Own("L");
            var acts := [Capture(p, {"L"}), BeginFetch(p), Invalidate("L"), Reread(p, "L"), Keep(p, "L", {})];
            "L" in Run(START, acts).entries && !Coherent(Run(START, acts), "L")
  {
    var p := Own("L");
    var a0, a1, a2, a3, a4: Action := Capture(p, {"L"}), BeginFetch(p), Invalidate("L"), Reread(p, "L"), Keep(p, "L", {});
    var acts := [a0, a1, a2, a3, a4];
    assert acts[1..] == [a1, a2, a3, a4] && [a1, a2, a3, a4][1..] == [a2, a3, a4];
    assert [a2, a3, a4][1..] == [a3, a4] && [a3, a4][1..] == [a4] && [a4][1..] == [];
    var w1 := Step(START, a0);
    var w2 := Step(w1, a1);
    var w3 := Step(w2, a2);
    var w4 := Step(w3, a3);
    var w5 := Step(w4, a4);
    assert w2.fills[p] == Fill({"L"}, 1, 1, Some(2), map[]);
    assert w4.fills[p].reread["L"] == 2 == w4.gen;
    assert w5.entries["L"] == Stored(2, true) && LastDrop(w5, "L") == 3;
    assert Run(w4, [a4]) == Run(w5, []);
    assert Run(w3, [a3, a4]) == Run(w4, [a4]);
    assert Run(w2, [a2, a3, a4]) == Run(w3, [a3, a4]);
    assert Run(w1, [a1, a2, a3, a4]) == Run(w2, [a2, a3, a4]);
  }
}
