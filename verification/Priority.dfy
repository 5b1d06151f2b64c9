/** The order in which a sync fetches stale lists: the default list, then lists with
    an expired entry, then the rest by name, flagged mail last. */
module Priority {
  import opened Wrappers
  import opened Models
  import opened SyncCoverage

  datatype Ranked = Ranked(rank: nat, name: string, list: TaskList)

  predicate NameBefore(a: string, b: string) {
    if b == [] then false
    else if a == [] then true
    else a[0] < b[0] || (a[0] == b[0] && NameBefore(a[1..], b[1..]))
  }

  predicate Before(a: Ranked, b: Ranked) {
    a.rank < b.rank || (a.rank == b.rank && NameBefore(a.name, b.name))
  }

  /** A stable insertion: behind everything that does not come after it. */
  function Insert(s: seq<Ranked>, x: Ranked): seq<Ranked> {
    if s == [] then [x]
    else if Before(x, s[0]) then [x] + s
    else [s[0]] + Insert(s[1..], x)
  }

  /** In order: nothing stands behind what it comes before. */
  predicate InOrder(s: seq<Ranked>) {
    forall i, j | 0 <= i < j < |s| :: !Before(s[j], s[i])
  }

  lemma {:induction false} NamesTransitive(a: string, b: string, c: string)
    requires NameBefore(a, b) && NameBefore(b, c)
    ensures NameBefore(a, c)
  {
    if a != [] && a[0] == b[0] == c[0] {
      NamesTransitive(a[1..], b[1..], c[1..]);
    }
  }

  lemma BeforeTransitive(a: Ranked, b: Ranked, c: Ranked)
    requires Before(a, b) && Before(b, c)
    ensures Before(a, c)
  {
    if a.rank == b.rank == c.rank {
      NamesTransitive(a.name, b.name, c.name);
    }
  }

  lemma {:induction false} NamesIrreflexive(a: string)
    ensures !NameBefore(a, a)
  {
    if a != [] {
      NamesIrreflexive(a[1..]);
    }
  }

  predicate DistinctLists(s: seq<Ranked>) {
    forall i, j | 0 <= i < j < |s| :: s[i].list.id != s[j].list.id
  }

  lemma {:induction false} InsertedOnce(s: seq<Ranked>, x: Ranked)
    ensures |Insert(s, x)| == |s| + 1
    ensures forall y :: y in Insert(s, x) <==> y == x || y in s
  {
    if s != [] && !Before(x, s[0]) {
      InsertedOnce(s[1..], x);
      assert forall y :: y in s <==> y == s[0] || y in s[1..];
    }
  }

  lemma {:induction false} InsertedInOrder(s: seq<Ranked>, x: Ranked)
    requires InOrder(s)
    ensures InOrder(Insert(s, x))
  {
    if s != [] {
      InsertedOnce(s[1..], x);
      if Before(x, s[0]) {
        NamesIrreflexive(x.name);
        forall j | 0 <= j < |s|
          ensures !Before(s[j], x)
        {
          NothingBehind(s, j, x);
        }
      } else {
        InsertedInOrder(s[1..], x);
        var rest := Insert(s[1..], x);
        assert forall i | 0 <= i < |rest| :: rest[i] in rest;
        assert forall y | y in rest :: !Before(y, s[0]);
      }
    }
  }

  lemma NothingBehind(s: seq<Ranked>, j: nat, x: Ranked)
    requires InOrder(s) && j < |s| && Before(x, s[0])
    ensures !Before(s[j], x)
  {
    if Before(s[j], x) {
      BeforeTransitive(s[j], x, s[0]);
      NamesIrreflexive(s[0].name);
      assert false;
    }
  }

  lemma {:induction false} InsertedDistinct(s: seq<Ranked>, x: Ranked)
    requires DistinctLists(s) && forall y | y in s :: y.list.id != x.list.id
    ensures DistinctLists(Insert(s, x))
  {
    if s != [] && !Before(x, s[0]) {
      InsertedDistinct(s[1..], x);
      InsertedOnce(s[1..], x);
      var rest := Insert(s[1..], x);
      assert forall i | 0 <= i < |rest| :: rest[i] in rest;
      assert forall y | y in rest :: s[0].list.id != y.list.id;
    }
  }

  predicate IsDone(known: Known, l: TaskList) {
    l.id in known && known[l.id].complete
  }

  function Rank(l: TaskList, warm: set<string>): nat {
    if l.wellknown == Some("defaultList") then 0
    else if l.wellknown == Some("flaggedEmails") then 3
    else if l.id in warm then 1
    else 2
  }

  function RankedOf(l: TaskList, warm: set<string>, lower: string -> string): Ranked {
    Ranked(Rank(l, warm), lower(l.displayName), l)
  }

  /** The stale lists, ranked; `warm` are those with an entry, however old. */
  function RankedStale(lists: seq<TaskList>, known: Known, warm: set<string>, lower: string -> string): seq<Ranked> {
    if lists == [] then []
    else
      var last := lists[|lists| - 1];
      var rest := RankedStale(lists[..|lists| - 1], known, warm, lower);
      if IsDone(known, last) then rest else Insert(rest, RankedOf(last, warm, lower))
  }

  /** Each stale list once, and by rank. */
  lemma {:induction false} StaleListsAreRanked(lists: seq<TaskList>, known: Known, warm: set<string>, lower: string -> string)
    requires Distinct(IdsOf(lists))
    ensures var s := RankedStale(lists, known, warm, lower);
            && |s| <= |lists| && InOrder(s) && DistinctLists(s)
            && (forall r | r in s :: r == RankedOf(r.list, warm, lower) && r.list in lists && !IsDone(known, r.list))
            && (forall l | l in lists && !IsDone(known, l) :: exists r :: r in s && r.list == l)
  {
    if lists != [] {
      var rest, last := lists[..|lists| - 1], lists[|lists| - 1];
      assert forall i | 0 <= i < |rest| :: IdsOf(lists)[i] == IdsOf(rest)[i] != IdsOf(lists)[|rest|];
      StaleListsAreRanked(rest, known, warm, lower);
      var s := RankedStale(rest, known, warm, lower);
      var x := RankedOf(last, warm, lower);
      InsertedOnce(s, x);
      InsertedInOrder(s, x);
      if !IsDone(known, last) {
        InsertedDistinct(s, x);
      }
      assert forall l :: l in lists <==> l in rest || l == last;
      assert x in Insert(s, x);
    }
  }

  /** The order of the fetches. */
  function Prioritise(lists: seq<TaskList>, known: Known, warm: set<string>, lower: string -> string): seq<TaskList> {
    var s := RankedStale(lists, known, warm, lower);
    seq(|s|, i requires 0 <= i < |s| => s[i].list)
  }

  /** Every stale list is fetched, each once, in order of rank and then of name. */
  lemma PrioritisedLists(lists: seq<TaskList>, known: Known, warm: set<string>, lower: string -> string)
    requires Distinct(IdsOf(lists))
    ensures var ordered := Prioritise(lists, known, warm, lower);
            && |ordered| <= |lists| && Distinct(IdsOf(ordered))
            && (forall l :: l in ordered <==> l in lists && !IsDone(known, l))
            && (forall i, j | 0 <= i < j < |ordered| ::
                  !Before(RankedOf(ordered[j], warm, lower), RankedOf(ordered[i], warm, lower)))
  {
    StaleListsAreRanked(lists, known, warm, lower);
    var s := RankedStale(lists, known, warm, lower);
    var ordered := Prioritise(lists, known, warm, lower);
    assert forall i | 0 <= i < |s| :: s[i] in s && ordered[i] == s[i].list;
    forall l | l in lists && !IsDone(known, l)
      ensures l in ordered
    {
      var r :| r in s && r.list == l;
      var i :| 0 <= i < |s| && s[i] == r;
      assert ordered[i] == l;
    }
  }

  /** The default list is asked for before any other stale list, a list with an entry before
      one without, and flagged mail after all the others. */
  lemma WhoGoesFirst(
      lists: seq<TaskList>, known: Known, warm: set<string>, lower: string -> string, i: nat, j: nat)
    requires Distinct(IdsOf(lists)) && i < j < |Prioritise(lists, known, warm, lower)|
    ensures var first, second := Prioritise(lists, known, warm, lower)[i], Prioritise(lists, known, warm, lower)[j];
            && (second.wellknown == Some("defaultList") ==> first.wellknown == Some("defaultList"))
            && (first.wellknown == Some("flaggedEmails") ==> second.wellknown == Some("flaggedEmails"))
            && (second.id in warm && second.wellknown != Some("flaggedEmails") ==>
                  first.id in warm || first.wellknown == Some("defaultList"))
  {
    PrioritisedLists(lists, known, warm, lower);
  }
}
