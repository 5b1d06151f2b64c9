/** What a sync reports: a snapshot of every list, and how far it got. */
module SyncCoverage {
  import opened Wrappers
  import opened Models

  /** What one call holds for a list: its tasks, and whether the walk finished. */
  datatype Held = Held(tasks: seq<Task>, complete: bool)

  type Known = map<string, Held>

  datatype Stopped = Complete | SyncTimeout | RequestBudget | PageCap | Throttling | GraphError

  datatype Snapshot = Snapshot(list: TaskList, tasks: seq<Task>, complete: bool, present: bool)

  datatype Coverage = Coverage(
    total: nat, complete: nat, partial: seq<string>, missing: seq<string>, tasksSeen: nat, stopped: Stopped)
  {
    predicate IsComplete() { stopped.Complete? }

    /** The closing rule: complete exactly when nothing is partial or missing. */
    function Finish(): (c: Coverage)
      ensures c.IsComplete() <==> partial == [] && missing == []
      ensures c == this.(stopped := c.stopped)
    {
      if partial == [] && missing == [] then this.(stopped := Complete)
      else if stopped.Complete? then this.(stopped := RequestBudget)
      else this
    }
  }

  datatype SyncOutcome = SyncOutcome(snapshots: seq<Snapshot>, coverage: Coverage)

  function IdsOf(lists: seq<TaskList>): (ids: seq<string>)
    ensures |ids| == |lists|
    ensures forall i | 0 <= i < |lists| :: ids[i] == lists[i].id
  {
    seq(|lists|, i requires 0 <= i < |lists| => lists[i].id)
  }

  predicate Distinct(ids: seq<string>) {
    forall i, j | 0 <= i < j < |ids| :: ids[i] != ids[j]
  }

  function TasksIn(snapshots: seq<Snapshot>): nat {
    if snapshots == [] then 0 else TasksIn(snapshots[..|snapshots| - 1]) + |snapshots[|snapshots| - 1].tasks|
  }

  function Named(snapshots: seq<Snapshot>, complete: bool, present: bool): seq<string> {
    if snapshots == [] then []
    else
      var last := snapshots[|snapshots| - 1];
      Named(snapshots[..|snapshots| - 1], complete, present)
      + (if last.complete == complete && last.present == present then [last.list.displayName] else [])
  }

  /** The counts are those of the snapshots. */
  ghost predicate Counts(c: Coverage, snapshots: seq<Snapshot>) {
    && c.complete == |Named(snapshots, true, true)|
    && c.partial == Named(snapshots, false, true)
    && c.missing == Named(snapshots, false, false)
    && c.tasksSeen == TasksIn(snapshots)
    && (forall s | s in snapshots :: s.complete ==> s.present)
  }

  lemma SnapshotAdded(snapshots: seq<Snapshot>, s: Snapshot)
    ensures TasksIn(snapshots + [s]) == TasksIn(snapshots) + |s.tasks|
    ensures forall c, p {:trigger Named(snapshots + [s], c, p)} ::
              Named(snapshots + [s], c, p)
              == Named(snapshots, c, p) + if s.complete == c && s.present == p then [s.list.displayName] else []
  {
    assert (snapshots + [s])[..|snapshots|] == snapshots;
  }

  /** Every list is complete, partial or missing, and only one of them; nothing is
      left over exactly when each is complete. */
  lemma {:induction false} EveryListIsCounted(c: Coverage, snapshots: seq<Snapshot>)
    requires Counts(c, snapshots)
    ensures c.complete + |c.partial| + |c.missing| == |snapshots|
    ensures c.partial == [] && c.missing == [] <==> forall i | 0 <= i < |snapshots| :: snapshots[i].complete
    ensures c.missing == [] <==> forall i | 0 <= i < |snapshots| :: snapshots[i].present
    decreases |snapshots|
  {
    if snapshots != [] {
      var rest, last := snapshots[..|snapshots| - 1], snapshots[|snapshots| - 1];
      var c' := Coverage(
        0, |Named(rest, true, true)|, Named(rest, false, true), Named(rest, false, false), TasksIn(rest), c.stopped);
      EveryListIsCounted(c', rest);
      assert snapshots == rest + [last];
      assert last in snapshots;
      SnapshotAdded(rest, last);
    }
  }

  /** What a list shows, given what is held when its turn comes. */
  function Shown(l: TaskList, known: Known): Snapshot {
    if l.id in known then Snapshot(l, known[l.id].tasks, known[l.id].complete, true)
    else Snapshot(l, [], false, false)
  }

  /** The coverage with one more snapshot. */
  function Counted(c: Coverage, s: Snapshot): Coverage {
    if s.complete then c.(tasksSeen := c.tasksSeen + |s.tasks|, complete := c.complete + 1)
    else if s.present then c.(tasksSeen := c.tasksSeen + |s.tasks|, partial := c.partial + [s.list.displayName])
    else c.(missing := c.missing + [s.list.displayName])
  }

  /** The lists told so far; `left` is what is held for the others. */
  ghost predicate Told(lists: seq<TaskList>, known: Known, snapshots: seq<Snapshot>, left: Known) {
    && |snapshots| <= |lists|
    && (forall j | 0 <= j < |snapshots| :: snapshots[j].list == lists[j])
    && (Distinct(IdsOf(lists)) ==>
          && (forall j | 0 <= j < |snapshots| :: snapshots[j] == Shown(lists[j], known))
          && (forall j | |snapshots| <= j < |lists| :: Shown(lists[j], left) == Shown(lists[j], known)))
  }

  lemma ToldOneMore(lists: seq<TaskList>, known: Known, snapshots: seq<Snapshot>, left: Known)
    requires Told(lists, known, snapshots, left) && |snapshots| < |lists|
    ensures var l := lists[|snapshots|];
            Told(lists, known, snapshots + [Shown(l, left)], left - {l.id})
  {
    var i := |snapshots|;
    if Distinct(IdsOf(lists)) {
      forall j | i < j < |lists|
        ensures Shown(lists[j], left - {lists[i].id}) == Shown(lists[j], left)
      {
        assert IdsOf(lists)[i] != IdsOf(lists)[j];
      }
    }
  }

  lemma CountsOneMore(c: Coverage, snapshots: seq<Snapshot>, s: Snapshot)
    requires Counts(c, snapshots) && (s.complete ==> s.present) && (!s.present ==> s.tasks == [])
    ensures Counts(Counted(c, s), snapshots + [s])
  {
    SnapshotAdded(snapshots, s);
  }

  /** Where the telling stands. */
  ghost predicate Stands(
    lists: seq<TaskList>, known: Known, stopped: Stopped, snapshots: seq<Snapshot>, left: Known, cov: Coverage)
  {
    Told(lists, known, snapshots, left) && Counts(cov, snapshots) && cov.total == |lists| && cov.stopped == stopped
  }

  lemma StandsOneMore(
      lists: seq<TaskList>, known: Known, stopped: Stopped, snapshots: seq<Snapshot>, left: Known, cov: Coverage)
    requires Stands(lists, known, stopped, snapshots, left, cov) && |snapshots| < |lists|
    ensures var s := Shown(lists[|snapshots|], left);
            Stands(lists, known, stopped, snapshots + [s], left - {s.list.id}, Counted(cov, s))
  {
    ToldOneMore(lists, known, snapshots, left);
    CountsOneMore(cov, snapshots, Shown(lists[|snapshots|], left));
  }

  /** Coverage over what the call holds, never over the cache. */
  method Report(lists: seq<TaskList>, known: Known, stopped: Stopped) returns (o: SyncOutcome)
    ensures |o.snapshots| == |lists| == o.coverage.total
    ensures forall i | 0 <= i < |lists| :: o.snapshots[i].list == lists[i]
    ensures Distinct(IdsOf(lists)) ==> forall i | 0 <= i < |lists| :: o.snapshots[i] == Shown(lists[i], known)
    ensures Counts(o.coverage, o.snapshots)
    ensures o.coverage.stopped ==
              if o.coverage.partial == [] && o.coverage.missing == [] then Complete
              else if stopped.Complete? then RequestBudget
              else stopped
  {
    var left := known;
    var snapshots: seq<Snapshot> := [];
    var cov := Coverage(|lists|, 0, [], [], 0, stopped);
    for i := 0 to |lists|
      invariant |snapshots| == i && Stands(lists, known, stopped, snapshots, left, cov)
    {
      StandsOneMore(lists, known, stopped, snapshots, left, cov);
      var s;
      s, cov := Tell(lists[i], left, cov);
      left, snapshots := left - {lists[i].id}, snapshots + [s];
    }
    return SyncOutcome(snapshots, cov.Finish());
  }

  /** One list's snapshot, counted. */
  method Tell(l: TaskList, left: Known, cov: Coverage) returns (s: Snapshot, counted: Coverage)
    ensures s == Shown(l, left) && counted == Counted(cov, s)
  {
    if l.id in left {
      var held := left[l.id];
      counted := cov.(tasksSeen := cov.tasksSeen + |held.tasks|);
      if held.complete {
        counted := counted.(complete := counted.complete + 1);
      } else {
        counted := counted.(partial := counted.partial + [l.displayName]);
      }
      s := Snapshot(l, held.tasks, held.complete, true);
    } else {
      counted := cov.(missing := cov.missing + [l.displayName]);
      s := Snapshot(l, [], false, false);
    }
  }
}
