/**
 * The checklist tool: one checklist, edited item by item on the server and in the
 * copy the answer is built from.
 */
module Checklist {
  import opened Wrappers
  import opened Transport
  import opened Retry
  import Text

  datatype Item = Item(id: string, name: string, checked: bool)

  datatype Reason = NotFound | AmbiguousName | EmptyName

  datatype Op =
    | Remove(key: string)
    | Rename(key: string, to: string)
    | Uncheck(key: string)
    | Check(key: string)
    | Add(name: string)

  /** Where an operation lands: `error` is absent if the deadline had passed. */
  datatype Landing = Succeeded(text: string) | Refused(reason: Reason) | Failed(error: Option<AppError>)

  /** An operation, where it landed, all the client did for it and how its send ended if
      there was one, the item that was answered, and the copy before and after it. */
  datatype Logged = Logged(
    op: Op, landing: Landing, did: seq<Event>, trail: Trail, sent: Result<nat, AppError>, answer: Item,
    before: seq<Item>, after: seq<Item>)

  datatype Results = Results(
    added: seq<string>, checked: seq<string>, unchecked: seq<string>, renamed: seq<string>,
    removed: seq<string>, refused: seq<Refusal>, failed: seq<Failure>)

  datatype Refusal = Refusal(op: Op, reason: Reason)

  datatype Failure = Failure(op: Op, error: Option<AppError>)

  // -------------------------------------------------------------------------
  // Finding an item

  function TrimStart(s: string): string {
    if s != [] && Text.IsWhitespace(s[0]) then TrimStart(s[1..]) else s
  }

  function TrimEnd(s: string): string {
    if s != [] && Text.IsWhitespace(s[|s| - 1]) then TrimEnd(s[..|s| - 1]) else s
  }

  function Trim(s: string): string {
    TrimEnd(TrimStart(s))
  }

  /** Trimmed, and equal but for the case of ASCII letters. */
  predicate SameName(a: string, b: string) {
    Text.Lower(Trim(a)) == Text.Lower(Trim(b))
  }

  function Position(items: seq<Item>, id: string): (r: Option<nat>)
    ensures r.Some? ==> r.value < |items| && items[r.value].id == id
    ensures r.Some? ==> forall j | 0 <= j < r.value :: items[j].id != id
    ensures r.None? ==> forall j | 0 <= j < |items| :: items[j].id != id
  {
    if items == [] then None
    else if items[0].id == id then Some(0)
    else
      match Position(items[1..], id)
      case None => None
      case Some(k) => Some(k + 1)
  }

  /** The places whose item has a name. */
  function Matches(items: seq<Item>, key: string): (m: seq<nat>)
    ensures forall k | 0 <= k < |m| :: m[k] < |items| && SameName(items[m[k]].name, key)
    ensures forall k, l | 0 <= k < l < |m| :: m[k] < m[l]
    ensures forall j | 0 <= j < |items| && SameName(items[j].name, key) :: j in m
  {
    if items == [] then []
    else
      var last := |items| - 1;
      Matches(items[..last], key) + (if SameName(items[last].name, key) then [last] else [])
  }

  /** An id first; else a name, if it is one item's only. */
  function Find(items: seq<Item>, key: string): (r: Result<nat, Reason>)
    ensures r.Ok? ==> r.value < |items|
  {
    match Position(items, key)
    case Some(i) => Ok(i)
    case None =>
      var m := Matches(items, key);
      if |m| == 1 then Ok(m[0]) else if m == [] then Err(NotFound) else Err(AmbiguousName)
  }

  predicate HasId(items: seq<Item>, id: string) {
    exists i | 0 <= i < |items| :: items[i].id == id
  }

  /** What `Find` answers: the item of that id, or the only one of that name. */
  lemma FindMeans(items: seq<Item>, key: string)
    ensures match Find(items, key)
            case Ok(i) =>
              && i < |items|
              && (HasId(items, key) ==> items[i].id == key)
              && (!HasId(items, key) ==>
                    SameName(items[i].name, key)
                    && forall j | 0 <= j < |items| && SameName(items[j].name, key) :: j == i)
            case Err(NotFound) =>
              !HasId(items, key) && forall j | 0 <= j < |items| :: !SameName(items[j].name, key)
            case Err(AmbiguousName) =>
              && !HasId(items, key)
              && exists i, j | 0 <= i < j < |items| :: SameName(items[i].name, key) && SameName(items[j].name, key)
            case Err(EmptyName) => false
  {
    var m := Matches(items, key);
    if Position(items, key).None? && |m| > 1 {
      assert m[0] < m[1];
      assert SameName(items[m[0]].name, key) && SameName(items[m[1]].name, key);
    }
  }

  // -------------------------------------------------------------------------
  // The copy and the server

  /** The copy lists exactly what the server has, each item once. */
  ghost predicate Agree(items: seq<Item>, stored: map<string, Item>) {
    && (forall i, j | 0 <= i < j < |items| :: items[i].id != items[j].id)
    && (forall i | 0 <= i < |items| :: items[i].id in stored && stored[items[i].id] == items[i])
    && (forall id | id in stored :: HasId(items, id))
  }

  /** All but one. */
  function Dropped(items: seq<Item>, i: nat): (left: seq<Item>)
    requires i < |items|
    ensures |left| == |items| - 1
    ensures forall k | 0 <= k < |left| :: left[k] == items[if k < i then k else k + 1]
  {
    items[..i] + items[i + 1..]
  }

  lemma AgreeRemoved(items: seq<Item>, stored: map<string, Item>, i: nat)
    requires Agree(items, stored) && i < |items|
    ensures Agree(Dropped(items, i), stored - {items[i].id})
  {
    var left := Dropped(items, i);
    forall id | id in stored - {items[i].id}
      ensures HasId(left, id)
    {
      var j :| 0 <= j < |items| && items[j].id == id;
      assert left[if j < i then j else j - 1] == items[j];
    }
  }

  lemma AgreeReplaced(items: seq<Item>, stored: map<string, Item>, i: nat, item: Item)
    requires Agree(items, stored) && i < |items| && item.id == items[i].id
    ensures Agree(items[i := item], stored[item.id := item])
  {
    var after := stored[item.id := item];
    forall id | id in after
      ensures HasId(items[i := item], id)
    {
      if id != item.id {
        var j :| 0 <= j < |items| && items[j].id == id;
        assert items[i := item][j].id == id;
      } else {
        assert items[i := item][i].id == id;
      }
    }
  }

  lemma AgreeAdded(items: seq<Item>, stored: map<string, Item>, item: Item)
    requires Agree(items, stored) && item.id !in stored
    ensures Agree(items + [item], stored[item.id := item])
  {
    var after := stored[item.id := item];
    forall id | id in after
      ensures HasId(items + [item], id)
    {
      if id != item.id {
        var j :| 0 <= j < |items| && items[j].id == id;
        assert (items + [item])[j].id == id;
      } else {
        assert (items + [item])[|items|].id == id;
      }
    }
  }

  // -------------------------------------------------------------------------
  // The result arrays

  const NO_RESULTS := Results([], [], [], [], [], [], [])

  function Push(r: Results, op: Op, landing: Landing): Results {
    match landing
    case Refused(reason) => r.(refused := r.refused + [Refusal(op, reason)])
    case Failed(error) => r.(failed := r.failed + [Failure(op, error)])
    case Succeeded(text) =>
      match op
      case Remove(_) => r.(removed := r.removed + [text])
      case Rename(_, _) => r.(renamed := r.renamed + [text])
      case Uncheck(_) => r.(unchecked := r.unchecked + [text])
      case Check(_) => r.(checked := r.checked + [text])
      case Add(_) => r.(added := r.added + [text])
  }

  /** The arrays after a history of operations: each lands in one of them. */
  function Gathered(log: seq<Logged>): Results {
    if log == [] then NO_RESULTS
    else Push(Gathered(log[..|log| - 1]), log[|log| - 1].op, log[|log| - 1].landing)
  }

  function OpsOf(log: seq<Logged>): (ops: seq<Op>)
    ensures |ops| == |log| && forall i | 0 <= i < |log| :: ops[i] == log[i].op
  {
    seq(|log|, i requires 0 <= i < |log| => log[i].op)
  }

  datatype Kind = Removing | Renaming | Unchecking | Checking | Adding

  function KindOf(op: Op): Kind {
    match op
    case Remove(_) => Removing
    case Rename(_, _) => Renaming
    case Uncheck(_) => Unchecking
    case Check(_) => Checking
    case Add(_) => Adding
  }

  /** How many operations are of one kind. */
  function Count(ops: seq<Op>, kind: Kind): nat {
    if ops == [] then 0 else Count(ops[..|ops| - 1], kind) + if KindOf(ops[|ops| - 1]) == kind then 1 else 0
  }

  function RefusedOps(refused: seq<Refusal>): (ops: seq<Op>)
    ensures |ops| == |refused| && forall i | 0 <= i < |ops| :: ops[i] == refused[i].op
  {
    seq(|refused|, i requires 0 <= i < |refused| => refused[i].op)
  }

  function FailedOps(failed: seq<Failure>): (ops: seq<Op>)
    ensures |ops| == |failed| && forall i | 0 <= i < |ops| :: ops[i] == failed[i].op
  {
    seq(|failed|, i requires 0 <= i < |failed| => failed[i].op)
  }

  lemma CountAdded(ops: seq<Op>, op: Op, kind: Kind)
    ensures Count(ops + [op], kind) == Count(ops, kind) + if KindOf(op) == kind then 1 else 0
  {
    assert (ops + [op])[..|ops|] == ops;
  }

  /** The successes of one kind of operation. */
  function Successes(r: Results, kind: Kind): seq<string> {
    match kind
    case Removing => r.removed
    case Renaming => r.renamed
    case Unchecking => r.unchecked
    case Checking => r.checked
    case Adding => r.added
  }

  /** All that landed, of one kind. */
  function Landed(r: Results, kind: Kind): nat {
    |Successes(r, kind)| + Count(RefusedOps(r.refused), kind) + Count(FailedOps(r.failed), kind)
  }

  lemma LandedOnce(r: Results, op: Op, landing: Landing, kind: Kind)
    ensures Landed(Push(r, op, landing), kind) == Landed(r, kind) + if KindOf(op) == kind then 1 else 0
  {
    var after := Push(r, op, landing);
    match landing {
      case Refused(reason) =>
        assert RefusedOps(after.refused) == RefusedOps(r.refused) + [op];
        CountAdded(RefusedOps(r.refused), op, kind);
      case Failed(error) =>
        assert FailedOps(after.failed) == FailedOps(r.failed) + [op];
        CountAdded(FailedOps(r.failed), op, kind);
      case Succeeded(_) =>
        assert after.refused == r.refused && after.failed == r.failed;
    }
  }

  /** Nothing is lost: of each kind, the operations asked for are the successes, the
      refusals and the failures together. */
  lemma {:induction false} NothingIsLost(log: seq<Logged>, kind: Kind)
    ensures Count(OpsOf(log), kind) == Landed(Gathered(log), kind)
  {
    if log != [] {
      var rest, last := log[..|log| - 1], log[|log| - 1];
      NothingIsLost(rest, kind);
      LandedOnce(Gathered(rest), last.op, last.landing, kind);
      assert OpsOf(log) == OpsOf(rest) + [last.op];
      CountAdded(OpsOf(rest), last.op, kind);
    }
  }

  // -------------------------------------------------------------------------
  // What one operation does

  const ARROW: string := " \U{2192} "

  const NO_ITEM := Item("", "", false)

  /** What an operation comes to on a copy: refused, so already, or one call, about the
      item in one place or about a new one. */
  datatype Plan = Refuse(reason: Reason) | SoAlready(text: string) | Ask(call: Call, i: nat)

  function PlanOf(op: Op, items: seq<Item>, list: string, task: string): (plan: Plan)
    ensures plan.Ask? && !op.Add? ==> plan.i < |items| && plan.call.url == ItemUrl(list, task, items[plan.i].id)
  {
    match op
    case Add(name) =>
      if Trim(name) == "" then Refuse(EmptyName) else Ask(Call(Post, ItemsUrl(list, task), NameIs(name)), 0)
    case Remove(key) => PlanFor(Find(items, key), Delete, NoBody, items, list, task)
    case Rename(key, to) => PlanFor(Find(items, key), Patch, NameIs(to), items, list, task)
    case Uncheck(key) => PlanSet(Find(items, key), false, items, list, task)
    case Check(key) => PlanSet(Find(items, key), true, items, list, task)
  }

  function PlanFor(
    found: Result<nat, Reason>, m: Method, body: Payload, items: seq<Item>, list: string, task: string): Plan
    requires found.Ok? ==> found.value < |items|
  {
    match found
    case Err(reason) => Refuse(reason)
    case Ok(i) => Ask(Call(m, ItemUrl(list, task, items[i].id), body), i)
  }

  /** An item that is so already needs no call. */
  function PlanSet(found: Result<nat, Reason>, target: bool, items: seq<Item>, list: string, task: string): Plan
    requires found.Ok? ==> found.value < |items|
  {
    if found.Ok? && items[found.value].checked == target then SoAlready(items[found.value].name)
    else PlanFor(found, Patch, CheckedIs(target), items, list, task)
  }

  /** What the server was asked to make of an item. */
  function Wished(op: Op, items: seq<Item>, i: nat, id: string): Item {
    match op
    case Rename(_, to) => if i < |items| then items[i].(name := to) else NO_ITEM
    case Uncheck(_) => if i < |items| then items[i].(checked := false) else NO_ITEM
    case Check(_) => if i < |items| then items[i].(checked := true) else NO_ITEM
    case Add(name) => Item(id, name, false)
    case Remove(_) => NO_ITEM
  }

  /** The copy after a success: one item gone, replaced by what was answered, or added. */
  function CopyAfter(op: Op, items: seq<Item>, i: nat, answer: Item): seq<Item> {
    if op.Add? then items + [answer]
    else if i >= |items| then items
    else if op.Remove? then Dropped(items, i)
    else items[i := answer]
  }

  /** What a success is reported as. */
  function TextOf(op: Op, items: seq<Item>, i: nat, answer: Item): string {
    match op
    case Remove(_) => if i < |items| then items[i].name else ""
    case Rename(_, _) => (if i < |items| then items[i].name else "") + ARROW + answer.name
    case _ => answer.name
  }

  /** Where a send leads: an item that is gone already is removed; a success whose body is
      no item is an error of its own. */
  predicate Leads(op: Op, sent: Result<nat, AppError>, landing: Landing) {
    match landing
    case Succeeded(_) => sent.Ok? || (op.Remove? && sent == Err(Graph(404)))
    case Failed(Some(e)) =>
      if sent.Ok? then !op.Remove? && e.BadBody? else sent == Err(e) && !(op.Remove? && e == Graph(404))
    case _ => false
  }

  /** A request was made for it, or a token sought. */
  predicate Tried(e: Logged) {
    e.did != [] && e.landing != Failed(None)
  }

  ghost predicate RightlyAt(
    k: int, e: Logged, list: string, task: string, deadline: int, maxAttempts: nat, disobeyed: bool)
  {
    match PlanOf(e.op, e.before, list, task)
    case Refuse(reason) => e.landing == Refused(reason) && e.did == [] && e.after == e.before
    case SoAlready(text) => e.landing == Succeeded(text) && e.did == [] && e.after == e.before
    case Ask(call, i) =>
      if e.landing == Failed(None) then
        |e.did| == 1 && e.did[0].Read? && e.did[0].at >= deadline && e.after == e.before
      else
        && e.did != [] && e.did[0].Read? && e.did[0].at < deadline
        && Sends(e.did[1..], call, e.trail, e.sent, deadline, maxAttempts) && Leads(e.op, e.sent, e.landing)
        && if e.landing.Succeeded? then
             && e.after == CopyAfter(e.op, e.before, i, e.answer)
             && e.landing.text == TextOf(e.op, e.before, i, e.answer)
             && (!disobeyed && !e.op.Remove? ==> e.answer == Wished(e.op, e.before, i, e.answer.id))
           else e.after == e.before
  }

  /** An operation did what its plan is on the copy it found: a refusal only for its
      reason, and with nothing done; a call only after its own look at the clock, before
      the deadline, and only that call; and the copy changes only with a success, and only
      in the item it is about. The quantifier only keeps the definition folded. */
  ghost predicate Rightly(e: Logged, list: string, task: string, deadline: int, maxAttempts: nat, disobeyed: bool) {
    forall k :: RightlyAt(k, e, list, task, deadline, maxAttempts, disobeyed)
  }

  /** A call was made in time. */
  lemma TriedRightly(
      e: Logged, call: Call, i: nat, at: int, did: seq<Event>, list: string, task: string, deadline: int,
      maxAttempts: nat, disobeyed: bool)
    requires PlanOf(e.op, e.before, list, task) == Ask(call, i) && e.landing != Failed(None)
    requires e.did == [Read(at)] + did && at < deadline
    requires Sends(did, call, e.trail, e.sent, deadline, maxAttempts) && Leads(e.op, e.sent, e.landing)
    requires if e.landing.Succeeded? then
               && e.after == CopyAfter(e.op, e.before, i, e.answer)
               && e.landing.text == TextOf(e.op, e.before, i, e.answer)
               && (!disobeyed && !e.op.Remove? ==> e.answer == Wished(e.op, e.before, i, e.answer.id))
             else e.after == e.before
    ensures Rightly(e, list, task, deadline, maxAttempts, disobeyed)
  {
    assert ([Read(at)] + did)[1..] == did;
  }

  /** Nothing was done, or it was too late. */
  lemma QuietRightly(
      op: Op, landing: Landing, items: seq<Item>, list: string, task: string, deadline: int, maxAttempts: nat,
      disobeyed: bool)
    ensures PlanOf(op, items, list, task).Refuse? && landing == Refused(PlanOf(op, items, list, task).reason) ==>
              Rightly(Quiet(op, landing, items), list, task, deadline, maxAttempts, disobeyed)
    ensures PlanOf(op, items, list, task).SoAlready? && landing == Succeeded(PlanOf(op, items, list, task).text) ==>
              Rightly(Quiet(op, landing, items), list, task, deadline, maxAttempts, disobeyed)
    ensures forall at | PlanOf(op, items, list, task).Ask? && at >= deadline ::
              Rightly(
                Quiet(op, Failed(None), items).(did := [Read(at)]), list, task, deadline, maxAttempts, disobeyed)
  {
  }

  predicate HasKey(op: Op, key: string) {
    match op
    case Remove(k) => k == key
    case Rename(k, _) => k == key
    case Uncheck(k) => k == key
    case Check(k) => k == key
    case Add(_) => false
  }

  /** So an operation with a key is refused exactly if no item has that id, and none or
      more than one has that name. */
  lemma RefusedExactly(e: Logged, key: string, list: string, task: string, deadline: int, maxAttempts: nat, disobeyed: bool)
    requires Rightly(e, list, task, deadline, maxAttempts, disobeyed) && HasKey(e.op, key)
    ensures e.landing == Refused(NotFound) <==>
              !HasId(e.before, key) && forall j | 0 <= j < |e.before| :: !SameName(e.before[j].name, key)
    ensures e.landing == Refused(AmbiguousName) <==>
              && !HasId(e.before, key)
              && exists i, j | 0 <= i < j < |e.before| :: SameName(e.before[i].name, key) && SameName(e.before[j].name, key)
    ensures e.landing != Refused(EmptyName)
    ensures e.landing.Refused? <==> Find(e.before, key).Err?
  {
    FindMeans(e.before, key);
    assert RightlyAt(0, e, list, task, deadline, maxAttempts, disobeyed);
  }

  /** And acts on the item of that id, or the only one of that name: a call goes to that
      item's URL, and every other item stays. */
  lemma ActsOnTheNamed(e: Logged, key: string, list: string, task: string, deadline: int, maxAttempts: nat, disobeyed: bool)
    returns (i: nat)
    requires Rightly(e, list, task, deadline, maxAttempts, disobeyed) && HasKey(e.op, key) && !e.landing.Refused?
    ensures i < |e.before| && if HasId(e.before, key) then e.before[i].id == key else SameName(e.before[i].name, key)
    ensures Tried(e) ==> forall s | s in e.did && s.Sent? :: s.call.url == ItemUrl(list, task, e.before[i].id)
    ensures forall j | 0 <= j < |e.before| && j != i :: e.before[j] in e.after
  {
    FindMeans(e.before, key);
    assert RightlyAt(0, e, list, task, deadline, maxAttempts, disobeyed);
    i := Find(e.before, key).value;
    if Tried(e) {
      var call := PlanOf(e.op, e.before, list, task).call;
      SendsIsPrompt(e.did[1..], call, e.trail, e.sent, deadline, maxAttempts);
      assert e.did == [e.did[0]] + e.did[1..];
    }
    forall j | 0 <= j < |e.before| && j != i
      ensures e.before[j] in e.after
    {
      OthersStay(e, i, j);
    }
  }

  lemma OthersStay(e: Logged, i: nat, j: nat)
    requires i < |e.before| && j < |e.before| && i != j
    requires e.after == e.before || e.after == CopyAfter(e.op, e.before, i, e.answer)
    ensures e.before[j] in e.after
  {
    if e.after != e.before && !e.op.Add? {
      assert e.before[j] == e.after[if e.op.Remove? && j > i then j - 1 else j];
    } else if e.op.Add? && e.after != e.before {
      assert e.after[j] == e.before[j];
    }
  }

  lemma RightlyIsPrompt(e: Logged, list: string, task: string, deadline: int, maxAttempts: nat, disobeyed: bool)
    requires Rightly(e, list, task, deadline, maxAttempts, disobeyed)
    ensures Prompt(e.did, deadline)
  {
    assert RightlyAt(0, e, list, task, deadline, maxAttempts, disobeyed);
    if e.did != [] {
      assert e.did == [e.did[0]] + e.did[1..] && [e.did[0]][..0] == [];
      if e.landing == Failed(None) {
        assert e.did == [e.did[0]];
      } else {
        SendsIsPrompt(
          e.did[1..], PlanOf(e.op, e.before, list, task).call, e.trail, e.sent, deadline, maxAttempts);
        PromptJoined([e.did[0]], e.did[1..], deadline);
      }
    }
  }

  // -------------------------------------------------------------------------
  // What the log says

  predicate AnyTried(log: seq<Logged>) {
    log != [] && (Tried(log[|log| - 1]) || AnyTried(log[..|log| - 1]))
  }

  /** All the client did, operation after operation. */
  function Strung(log: seq<Logged>): seq<Event> {
    if log == [] then [] else Strung(log[..|log| - 1]) + log[|log| - 1].did
  }

  /** Each operation found the copy as the one before left it. */
  predicate Chained(log: seq<Logged>, first: seq<Item>, last: seq<Item>) {
    if log == [] then last == first
    else log[|log| - 1].after == last && Chained(log[..|log| - 1], first, log[|log| - 1].before)
  }

  /** An operation with nothing done for it. */
  function Quiet(op: Op, landing: Landing, items: seq<Item>): Logged {
    Logged(op, landing, [], Retry.START, Err(Exhausted), NO_ITEM, items, items)
  }

  /** Where the tool is used, and what it may spend. */
  datatype Desk = Desk(list: string, task: string, deadline: int, maxAttempts: nat)

  ghost predicate AllRightly(log: seq<Logged>, desk: Desk, disobeyed: bool) {
    forall i | 0 <= i < |log| :: Rightly(log[i], desk.list, desk.task, desk.deadline, desk.maxAttempts, disobeyed)
  }

  ghost predicate KeptAt(
    k: int, log: seq<Logged>, results: Results, touched: bool, first: seq<Item>, items: seq<Item>, begun: seq<Event>,
    trace: seq<Event>, desk: Desk, disobeyed: bool)
  {
    && results == Gathered(log) && (touched <==> AnyTried(log))
    && trace == begun + Strung(log) && Chained(log, first, items) && AllRightly(log, desk, disobeyed)
  }

  /** What `log` says is what the arrays, the flag, the copy and the client's history say.
      The quantifier only keeps the definition folded. */
  ghost predicate Kept(
    log: seq<Logged>, results: Results, touched: bool, first: seq<Item>, items: seq<Item>, begun: seq<Event>,
    trace: seq<Event>, desk: Desk, disobeyed: bool)
  {
    forall k :: KeptAt(k, log, results, touched, first, items, begun, trace, desk, disobeyed)
  }

  lemma NothingKept(items: seq<Item>, begun: seq<Event>, desk: Desk, disobeyed: bool)
    ensures Kept([], NO_RESULTS, false, items, items, begun, begun, desk, disobeyed)
  {
    assert begun + [] == begun;
  }

  lemma KeptMeans(
      log: seq<Logged>, results: Results, touched: bool, first: seq<Item>, items: seq<Item>, begun: seq<Event>,
      trace: seq<Event>, desk: Desk, disobeyed: bool)
    requires Kept(log, results, touched, first, items, begun, trace, desk, disobeyed)
    ensures results == Gathered(log) && (touched <==> AnyTried(log))
    ensures trace == begun + Strung(log) && Chained(log, first, items) && AllRightly(log, desk, disobeyed)
  {
    assert KeptAt(0, log, results, touched, first, items, begun, trace, desk, disobeyed);
  }

  lemma LogGrows(log: seq<Logged>, e: Logged, first: seq<Item>)
    ensures Gathered(log + [e]) == Push(Gathered(log), e.op, e.landing)
    ensures AnyTried(log + [e]) <==> AnyTried(log) || Tried(e)
    ensures Strung(log + [e]) == Strung(log) + e.did
    ensures Chained(log + [e], first, e.after) <==> Chained(log, first, e.before)
  {
    var all := log + [e];
    assert all[..|all| - 1] == log && all[|all| - 1] == e;
  }

  /** A server that disobeys later excuses nothing else. */
  lemma StaysRight(e: Logged, desk: Desk, before: bool, after: bool)
    requires Rightly(e, desk.list, desk.task, desk.deadline, desk.maxAttempts, before) && (before ==> after)
    ensures Rightly(e, desk.list, desk.task, desk.deadline, desk.maxAttempts, after)
  {
    assert RightlyAt(0, e, desk.list, desk.task, desk.deadline, desk.maxAttempts, before);
  }

  lemma KeptOnceMore(
      log: seq<Logged>, results: Results, touched: bool, first: seq<Item>, items: seq<Item>, begun: seq<Event>,
      trace: seq<Event>, desk: Desk, disobeyed: bool, e: Logged, later: bool)
    requires Kept(log, results, touched, first, items, begun, trace, desk, disobeyed) && (disobeyed ==> later)
    requires Rightly(e, desk.list, desk.task, desk.deadline, desk.maxAttempts, later) && e.before == items
    ensures Kept(
              log + [e], Push(results, e.op, e.landing), touched || Tried(e), first, e.after, begun, trace + e.did,
              desk, later)
  {
    KeptMeans(log, results, touched, first, items, begun, trace, desk, disobeyed);
    LogGrows(log, e, first);
    Associates(begun, Strung(log), e.did);
    var all := log + [e];
    forall i | 0 <= i < |all|
      ensures Rightly(all[i], desk.list, desk.task, desk.deadline, desk.maxAttempts, later)
    {
      if i < |log| {
        StaysRight(log[i], desk, disobeyed, later);
      }
    }
  }

  lemma OpsGrow(log: seq<Logged>, e: Logged)
    ensures OpsOf(log + [e]) == OpsOf(log) + [e.op]
  {
  }

  lemma {:induction false} StrungIsPrompt(log: seq<Logged>, desk: Desk, disobeyed: bool)
    requires AllRightly(log, desk, disobeyed)
    ensures Prompt(Strung(log), desk.deadline)
  {
    if log != [] {
      var k := |log| - 1;
      StrungIsPrompt(log[..k], desk, disobeyed);
      RightlyIsPrompt(log[k], desk.list, desk.task, desk.deadline, desk.maxAttempts, disobeyed);
      PromptJoined(Strung(log[..k]), log[k].did, desk.deadline);
    }
  }

  // -------------------------------------------------------------------------
  // The tool

  function SetOp(name: string, target: bool): Op {
    if target then Check(name) else Uncheck(name)
  }

  function Removes(names: seq<string>): seq<Op> {
    seq(|names|, i requires 0 <= i < |names| => Remove(names[i]))
  }

  function Renames(pairs: seq<(string, string)>): seq<Op> {
    seq(|pairs|, i requires 0 <= i < |pairs| => Rename(pairs[i].0, pairs[i].1))
  }

  function Sets(names: seq<string>, target: bool): seq<Op> {
    seq(|names|, i requires 0 <= i < |names| => SetOp(names[i], target))
  }

  function Adds(names: seq<string>): seq<Op> {
    seq(|names|, i requires 0 <= i < |names| => Add(names[i]))
  }

  /** The operations of one call, in the order they are made. */
  datatype Request = Request(
    add: seq<string>, check: seq<string>, uncheck: seq<string>, rename: seq<(string, string)>, remove: seq<string>,
    confirm: bool)
  {
    function Ops(): seq<Op> {
      Removes(remove) + Renames(rename) + Sets(uncheck, false) + Sets(check, true) + Adds(add)
    }
  }

  datatype Rejection = NeedsConfirm | NothingToDo

  lemma OneMore(done: seq<Op>, ops: seq<Op>, i: nat)
    requires i < |ops|
    ensures done + ops[..i] + [ops[i]] == done + ops[..i + 1]
  {
  }

  class Editor {
    const client: Client
    const writes: Budget
    const list: string
    const task: string

    var items: seq<Item>
    var results: Results
    var touched: bool

    /** The server's checklist, and whether it ever failed an operation or answered
        with anything but what it had stored. */
    ghost var stored: map<string, Item>
    ghost var trouble: bool
    /** Whether it ever stored something other than what it was asked to. */
    ghost var disobeyed: bool
    /** Every operation so far, and the copy and what the client had done before the
        first. */
    ghost var log: seq<Logged>
    ghost const first: seq<Item>
    ghost const begun: seq<Event>

    ghost predicate Ready()
      reads client, writes
    {
      client.Valid() && !client.held && writes.Valid()
    }

    /** Between a send and its place in the log. */
    ghost predicate Consistent()
      reads this, client, writes
    {
      Ready() && (!trouble ==> Agree(items, stored))
    }

    ghost function At(): Desk
      reads writes`deadline
    {
      Desk(list, task, writes.deadline, client.maxAttempts)
    }

    ghost predicate Valid()
      reads this, client, writes
    {
      Consistent() && Kept(log, results, touched, first, items, begun, client.trace, At(), disobeyed)
    }

    constructor (
        client: Client, writes: Budget, list: string, task: string, items: seq<Item>, ghost stored: map<string, Item>)
      requires client.Valid() && !client.held && writes.Valid()
      ensures Valid() && this.client == client && this.writes == writes && this.items == first == items
      ensures this.list == list && this.task == task
      ensures this.stored == stored && log == [] && begun == client.trace
      ensures trouble == !Agree(items, stored) && !disobeyed
    {
      this.client, this.writes, this.list, this.task := client, writes, list, task;
      this.items, this.stored, first := items, stored, items;
      results, touched, log, begun := NO_RESULTS, false, [], client.trace;
      trouble, disobeyed := !Agree(items, stored), false;
      new;
      NothingKept(items, client.trace, At(), false);
    }

    /** Put one operation in its array. `was` and `before` are the flags when it began. */
    method Land(ghost e: Logged, op: Op, landing: Landing, ghost trace: seq<Event>, ghost was: bool, ghost before: bool)
      requires Consistent() && e.op == op && e.landing == landing && e.after == items && (before ==> disobeyed)
      requires Rightly(e, list, task, writes.deadline, client.maxAttempts, disobeyed)
      requires Kept(log, results, was, first, e.before, begun, trace, At(), before) && client.trace == trace + e.did
      requires touched == (was || Tried(e))
      modifies this`results, this`log
      ensures Valid() && log == old(log) + [e] && OpsOf(log) == old(OpsOf(log)) + [op]
    {
      KeptOnceMore(log, results, was, first, e.before, begun, trace, At(), before, e, disobeyed);
      OpsGrow(log, e);
      results := Push(results, op, landing);
      log := log + [e];
    }

    method Expired() returns (expired: bool, ghost at: int)
      requires Ready()
      modifies client`time, client`trace
      ensures Ready() && client.time >= at >= old(client.time) && expired == (at >= writes.deadline)
      ensures client.trace == old(client.trace) + [Read(at)]
    {
      var now := client.Now();
      return now >= writes.deadline, now;
    }

    /** A POST or PATCH: Graph answers with an item, faithfully if it stores that. */
    method SendItem(call: Call, op: Op, ghost i: nat)
      returns (r: Result<Item, AppError>, ghost sent: Result<nat, AppError>, ghost did: seq<Event>, ghost t: Trail)
      requires Ready()
      modifies client`time, client`held, client`trace, writes`requestsLeft, writes`requestsUsed
      modifies this`stored, this`trouble, this`disobeyed
      ensures Ready() && client.time >= old(client.time) && client.trace == old(client.trace) + did
      ensures Sends(did, call, t, sent, writes.deadline, client.maxAttempts)
      ensures if r.Ok? then sent.Ok? else if sent.Ok? then r.error.BadBody? else sent == Err(r.error)
      ensures r.Err? ==> trouble
      ensures !trouble ==>
                && !old(trouble) && r.Ok? && stored == old(stored)[r.value.id := r.value]
                && (if op.Add? then r.value.id !in old(stored) else i < |items| && r.value.id == items[i].id)
      ensures old(disobeyed) ==> disobeyed
      ensures !disobeyed && r.Ok? ==> r.value == Wished(op, items, i, r.value.id)
    {
      var answered;
      answered, did, t := client.Send(call, writes);
      sent := answered;
      var answer: Item := *;
      var parsed: bool := *;
      ghost var after: map<string, Item> := *;
      stored := after;
      trouble := trouble || answered.Err? || !parsed || after != old(stored)[answer.id := answer]
        || (if op.Add? then answer.id in old(stored) else !(i < |items| && answer.id == items[i].id));
      disobeyed := disobeyed || answer != Wished(op, items, i, answer.id);
      r := if answered.Err? then Err(answered.error) else if parsed then Ok(answer) else Err(BadBody);
    }

    method DeleteItem(id: string)
      returns (r: Result<bool, AppError>, ghost sent: Result<nat, AppError>, ghost did: seq<Event>, ghost t: Trail)
      requires Ready()
      modifies client`time, client`held, client`trace, writes`requestsLeft, writes`requestsUsed
      modifies this`stored, this`trouble
      ensures Ready() && client.time >= old(client.time) && client.trace == old(client.trace) + did
      ensures Sends(did, Call(Delete, ItemUrl(list, task, id), NoBody), t, sent, writes.deadline, client.maxAttempts)
      ensures if r.Ok? then sent.Ok? || sent == Err(Graph(404)) else sent == Err(r.error) && r.error != Graph(404)
      ensures r.Err? ==> trouble
      ensures !trouble ==> !old(trouble) && r.Ok? && stored == old(stored) - {id}
    {
      r, sent, did, t := client.DeleteIt(ItemUrl(list, task, id), writes);
      ghost var after: map<string, Item> := *;
      stored := after;
      trouble := trouble || r.Err? || after != old(stored) - {id};
    }

    /** What every operation keeps, wherever it lands. */
    twostate predicate Lands(op: Op, landing: Landing)
      reads this, client, writes
    {
      && |log| == |old(log)| + 1 && log[..|old(log)|] == old(log)
      && OpsOf(log) == old(OpsOf(log)) + [op]
      && log[|log| - 1].op == op && log[|log| - 1].landing == landing
      && log[|log| - 1].before == old(items) && log[|log| - 1].after == items
      && Rightly(log[|log| - 1], list, task, writes.deadline, client.maxAttempts, disobeyed)
      // Nothing is tried once the deadline has passed.
      && (old(client.time) >= writes.deadline ==> !Tried(log[|log| - 1]))
      && (old(trouble) ==> trouble) && (old(disobeyed) ==> disobeyed)
      && client.time >= old(client.time)
      // Only a success changes the copy, and a failure is the server's trouble.
      && (!landing.Succeeded? ==> items == old(items))
      && (landing.Failed? && landing.error.Some? ==> trouble)
    }

    /** An operation that needs no call. */
    method Settle(op: Op, landing: Landing)
      requires Valid()
      requires match PlanOf(op, items, list, task)
               case Refuse(reason) => landing == Refused(reason)
               case SoAlready(text) => landing == Succeeded(text)
               case Ask(_, _) => false
      modifies this`results, this`log
      ensures Valid() && Lands(op, landing)
    {
      assert client.trace == client.trace + [];
      QuietRightly(op, landing, items, list, task, writes.deadline, client.maxAttempts, disobeyed);
      Land(Quiet(op, landing, items), op, landing, client.trace, touched, disobeyed);
    }

    /** An operation that came too late. */
    method SettleLate(op: Op, ghost at: int, ghost trace: seq<Event>)
      requires Consistent() && PlanOf(op, items, list, task).Ask? && at >= writes.deadline
      requires Kept(log, results, touched, first, items, begun, trace, At(), disobeyed)
      requires client.trace == trace + [Read(at)]
      modifies this`results, this`log
      ensures Valid() && Lands(op, Failed(None))
    {
      ghost var e := Quiet(op, Failed(None), items).(did := [Read(at)]);
      QuietRightly(op, Failed(None), items, list, task, writes.deadline, client.maxAttempts, disobeyed);
      Land(e, op, Failed(None), trace, touched, disobeyed);
    }

    method RemoveOne(name: string) returns (landing: Landing)
      requires Valid()
      modifies this, client`time, client`held, client`trace, writes`requestsLeft, writes`requestsUsed
      ensures Valid() && Lands(Remove(name), landing)
    {
      var found := Find(items, name);
      match found {
        case Err(reason) =>
          landing := Refused(reason);
          Settle(Remove(name), landing);
        case Ok(i) =>
          landing := RemoveAt(name, i);
      }
    }

    /** Remove one item, unless it is too late. */
    method RemoveAt(name: string, i: nat) returns (landing: Landing)
      requires Valid() && Find(items, name) == Ok(i) && i < |items|
      modifies this, client`time, client`held, client`trace, writes`requestsLeft, writes`requestsUsed
      ensures Valid() && Lands(Remove(name), landing)
    {
      ghost var trace, was, had := client.trace, touched, items;
      var expired;
      ghost var at;
      expired, at := Expired();
      if expired {
        SettleLate(Remove(name), at, trace);
        return Failed(None);
      }
      ghost var sent, did, t;
      landing, sent, did, t := SendRemove(name, i);
      Associates(trace, [Read(at)], did);
      ghost var e := Logged(Remove(name), landing, [Read(at)] + did, t, sent, NO_ITEM, had, items);
      TriedRightly(
        e, Call(Delete, ItemUrl(list, task, had[i].id), NoBody), i, at, did, list, task, writes.deadline,
        client.maxAttempts, disobeyed);
      Land(e, Remove(name), landing, trace, was, disobeyed);
    }

    /** Send the removal of one item. */
    method SendRemove(name: string, i: nat)
      returns (landing: Landing, ghost sent: Result<nat, AppError>, ghost did: seq<Event>, ghost t: Trail)
      requires Consistent() && i < |items|
      modifies client`time, client`held, client`trace, writes`requestsLeft, writes`requestsUsed
      modifies this`items, this`touched, this`stored, this`trouble
      ensures Consistent() && client.time >= old(client.time) && touched && (old(trouble) ==> trouble)
      ensures client.trace == old(client.trace) + did
      ensures Sends(
                did, Call(Delete, ItemUrl(list, task, old(items)[i].id), NoBody), t, sent, writes.deadline,
                client.maxAttempts)
      ensures Leads(Remove(name), sent, landing)
      ensures match landing
              case Succeeded(text) => items == Dropped(old(items), i) && text == old(items)[i].name
              case Failed(error) => error.Some? && items == old(items) && trouble
              case Refused(_) => false
    {
      var item := items[i];
      ghost var before := stored;
      var r;
      r, sent, did, t := DeleteItem(item.id);
      touched := true;
      match r {
        case Ok(_) =>
          if !trouble {
            AgreeRemoved(items, before, i);
          }
          items := Dropped(items, i);
          landing := Succeeded(item.name);
        case Err(e) =>
          landing := Failed(Some(e));
      }
    }

    method RenameOne(key: string, to: string) returns (landing: Landing)
      requires Valid()
      modifies this, client`time, client`held, client`trace, writes`requestsLeft, writes`requestsUsed
      ensures Valid() && Lands(Rename(key, to), landing)
    {
      var found := Find(items, key);
      match found {
        case Err(reason) =>
          landing := Refused(reason);
          Settle(Rename(key, to), landing);
        case Ok(i) =>
          landing := ChangeAt(Rename(key, to), i, NameIs(to));
      }
    }

    /** Change one item, unless it is too late. */
    method ChangeAt(op: Op, i: nat, body: Payload) returns (landing: Landing)
      requires Valid() && i < |items| && (op.Rename? || op.Check? || op.Uncheck?)
      requires PlanOf(op, items, list, task) == Ask(Call(Patch, ItemUrl(list, task, items[i].id), body), i)
      modifies this, client`time, client`held, client`trace, writes`requestsLeft, writes`requestsUsed
      ensures Valid() && Lands(op, landing)
    {
      ghost var trace, was, had, excused := client.trace, touched, items, disobeyed;
      var expired;
      ghost var at;
      expired, at := Expired();
      if expired {
        SettleLate(op, at, trace);
        return Failed(None);
      }
      ghost var answer, sent, did, t;
      landing, answer, sent, did, t := SendChange(op, i, Call(Patch, ItemUrl(list, task, items[i].id), body));
      Associates(trace, [Read(at)], did);
      ghost var e := Logged(op, landing, [Read(at)] + did, t, sent, answer, had, items);
      TriedRightly(
        e, Call(Patch, ItemUrl(list, task, had[i].id), body), i, at, did, list, task, writes.deadline,
        client.maxAttempts, disobeyed);
      Land(e, op, landing, trace, was, excused);
    }

    /** Send a change of one item, and take over what comes back. */
    method SendChange(op: Op, i: nat, call: Call)
      returns (
        landing: Landing, ghost answer: Item, ghost sent: Result<nat, AppError>, ghost did: seq<Event>, ghost t: Trail)
      requires Consistent() && i < |items| && (op.Rename? || op.Check? || op.Uncheck?)
      modifies client`time, client`held, client`trace, writes`requestsLeft, writes`requestsUsed
      modifies this`items, this`touched, this`stored, this`trouble, this`disobeyed
      ensures Consistent() && client.time >= old(client.time) && touched
      ensures (old(trouble) ==> trouble) && (old(disobeyed) ==> disobeyed)
      ensures client.trace == old(client.trace) + did
      ensures Sends(did, call, t, sent, writes.deadline, client.maxAttempts) && Leads(op, sent, landing)
      ensures match landing
              case Succeeded(text) =>
                && items == CopyAfter(op, old(items), i, answer) && text == TextOf(op, old(items), i, answer)
                && (!disobeyed ==> answer == Wished(op, old(items), i, answer.id))
              case Failed(error) => error.Some? && items == old(items) && trouble
              case Refused(_) => false
    {
      ghost var before := stored;
      var name := items[i].name;
      var r;
      r, sent, did, t := SendItem(call, op, i);
      touched, answer := true, NO_ITEM;
      match r {
        case Ok(updated) =>
          if !trouble {
            AgreeReplaced(items, before, i, updated);
          }
          items, answer := items[i := updated], updated;
          landing := Succeeded(if op.Rename? then name + ARROW + updated.name else updated.name);
        case Err(e) =>
          landing := Failed(Some(e));
      }
    }

    method SetOne(name: string, target: bool) returns (landing: Landing)
      requires Valid()
      modifies this, client`time, client`held, client`trace, writes`requestsLeft, writes`requestsUsed
      ensures Valid() && Lands(SetOp(name, target), landing)
    {
      var found := Find(items, name);
      match found {
        case Err(reason) =>
          landing := Refused(reason);
          Settle(SetOp(name, target), landing);
        case Ok(i) =>
          if items[i].checked == target {
            landing := Succeeded(items[i].name);
            Settle(SetOp(name, target), landing);
          } else {
            landing := ChangeAt(SetOp(name, target), i, CheckedIs(target));
          }
      }
    }

    method AddOne(name: string) returns (landing: Landing)
      requires Valid()
      modifies this, client`time, client`held, client`trace, writes`requestsLeft, writes`requestsUsed
      ensures Valid() && Lands(Add(name), landing)
    {
      if Trim(name) == "" {
        landing := Refused(EmptyName);
        Settle(Add(name), landing);
      } else {
        landing := AddNew(name);
      }
    }

    /** Add one item, unless it is too late. */
    method AddNew(name: string) returns (landing: Landing)
      requires Valid() && Trim(name) != ""
      modifies this, client`time, client`held, client`trace, writes`requestsLeft, writes`requestsUsed
      ensures Valid() && Lands(Add(name), landing)
    {
      ghost var trace, was, had, excused := client.trace, touched, items, disobeyed;
      var expired;
      ghost var at;
      expired, at := Expired();
      if expired {
        SettleLate(Add(name), at, trace);
        return Failed(None);
      }
      ghost var answer, sent, did, t;
      landing, answer, sent, did, t := SendNew(name);
      Associates(trace, [Read(at)], did);
      ghost var e := Logged(Add(name), landing, [Read(at)] + did, t, sent, answer, had, items);
      TriedRightly(
        e, Call(Post, ItemsUrl(list, task), NameIs(name)), 0, at, did, list, task, writes.deadline,
        client.maxAttempts, disobeyed);
      Land(e, Add(name), landing, trace, was, excused);
    }

    /** Send a new item. */
    method SendNew(name: string)
      returns (
        landing: Landing, ghost answer: Item, ghost sent: Result<nat, AppError>, ghost did: seq<Event>, ghost t: Trail)
      requires Consistent()
      modifies client`time, client`held, client`trace, writes`requestsLeft, writes`requestsUsed
      modifies this`items, this`touched, this`stored, this`trouble, this`disobeyed
      ensures Consistent() && client.time >= old(client.time) && touched
      ensures (old(trouble) ==> trouble) && (old(disobeyed) ==> disobeyed)
      ensures client.trace == old(client.trace) + did
      ensures Sends(
                did, Call(Post, ItemsUrl(list, task), NameIs(name)), t, sent, writes.deadline, client.maxAttempts)
      ensures Leads(Add(name), sent, landing)
      ensures match landing
              case Succeeded(text) =>
                && items == old(items) + [answer] && text == answer.name
                && (!disobeyed ==> answer == Item(answer.id, name, false))
              case Failed(error) => error.Some? && items == old(items) && trouble
              case Refused(_) => false
    {
      ghost var before := stored;
      var r;
      r, sent, did, t := SendItem(Call(Post, ItemsUrl(list, task), NameIs(name)), Add(name), 0);
      touched, answer := true, NO_ITEM;
      match r {
        case Ok(item) =>
          if !trouble {
            AgreeAdded(items, before, item);
          }
          items, answer := items + [item], item;
          landing := Succeeded(item.name);
        case Err(e) =>
          landing := Failed(Some(e));
      }
    }

    /** Time and trouble only grow. */
    twostate predicate Onwards()
      reads this, client, writes
    {
      && (old(trouble) ==> trouble) && (old(disobeyed) ==> disobeyed) && client.time >= old(client.time)
      && old(log) <= log
    }

    twostate predicate Ran(ops: seq<Op>)
      reads this, client, writes
    {
      Onwards() && OpsOf(log) == old(OpsOf(log)) + ops
    }

    method RemoveAll(names: seq<string>)
      requires Valid()
      modifies this, client`time, client`held, client`trace, writes`requestsLeft, writes`requestsUsed
      ensures Valid() && Ran(Removes(names))
    {
      ghost var ops, before := Removes(names), OpsOf(log);
      for i := 0 to |names|
        invariant Valid() && Onwards() && OpsOf(log) == before + ops[..i]
      {
        var landing := RemoveOne(names[i]);
        OneMore(before, ops, i);
      }
      assert ops[..|ops|] == ops;
    }

    method RenameAll(pairs: seq<(string, string)>)
      requires Valid()
      modifies this, client`time, client`held, client`trace, writes`requestsLeft, writes`requestsUsed
      ensures Valid() && Ran(Renames(pairs))
    {
      ghost var ops, before := Renames(pairs), OpsOf(log);
      for i := 0 to |pairs|
        invariant Valid() && Onwards() && OpsOf(log) == before + ops[..i]
      {
        var landing := RenameOne(pairs[i].0, pairs[i].1);
        OneMore(before, ops, i);
      }
      assert ops[..|ops|] == ops;
    }

    method SetAll(names: seq<string>, target: bool)
      requires Valid()
      modifies this, client`time, client`held, client`trace, writes`requestsLeft, writes`requestsUsed
      ensures Valid() && Ran(Sets(names, target))
    {
      ghost var ops, before := Sets(names, target), OpsOf(log);
      for i := 0 to |names|
        invariant Valid() && Onwards() && OpsOf(log) == before + ops[..i]
      {
        var landing := SetOne(names[i], target);
        OneMore(before, ops, i);
      }
      assert ops[..|ops|] == ops;
    }

    method AddAll(names: seq<string>)
      requires Valid()
      modifies this, client`time, client`held, client`trace, writes`requestsLeft, writes`requestsUsed
      ensures Valid() && Ran(Adds(names))
    {
      ghost var ops, before := Adds(names), OpsOf(log);
      for i := 0 to |names|
        invariant Valid() && Onwards() && OpsOf(log) == before + ops[..i]
      {
        var landing := AddOne(names[i]);
        OneMore(before, ops, i);
      }
      assert ops[..|ops|] == ops;
    }

    method Perform(r: Request)
      requires Valid() && log == []
      modifies this, client`time, client`held, client`trace, writes`requestsLeft, writes`requestsUsed
      ensures Valid() && OpsOf(log) == r.Ops()
    {
      ghost var none := OpsOf(log);
      RemoveAll(r.remove);
      assert none + Removes(r.remove) == Removes(r.remove);
      RenameAll(r.rename);
      SetAll(r.uncheck, false);
      SetAll(r.check, true);
      AddAll(r.add);
    }

    /** Every operation asked for, in order, each on the copy the one before left, each
        logged once where it landed, each doing what it is for. The list to invalidate is
        this one, if something was tried. Unless there was trouble, the answer's checklist
        is the server's. */
    method Manage(r: Request) returns (rejected: Option<Rejection>, stale: Option<string>)
      requires Valid() && log == []
      modifies this, client`time, client`held, client`trace, writes`requestsLeft, writes`requestsUsed
      ensures Valid()
      ensures rejected == Some(NeedsConfirm) <==> r.remove != [] && !r.confirm
      ensures rejected == Some(NothingToDo) <==> r.Ops() == []
      ensures rejected.Some? ==>
                && log == [] && stale.None? && client.trace == old(client.trace) && items == old(items)
                && stored == old(stored)
      ensures rejected.None? ==>
                && OpsOf(log) == r.Ops() && results == Gathered(log)
                && Chained(log, old(items), items) && AllRightly(log, At(), disobeyed)
                && (!trouble ==> Agree(items, stored))
                // The list is dropped exactly if something was tried.
                && stale == (if AnyTried(log) then Some(list) else None)
                // No call but the last begins at the deadline or after it.
                && client.trace == old(client.trace) + Strung(log) && LateOnlyLast(Strung(log), writes.deadline)
    {
      stale := None;
      KeptMeans(log, results, touched, first, items, begun, client.trace, At(), disobeyed);
      assert begun + [] == begun;
      if r.remove != [] && !r.confirm {
        return Some(NeedsConfirm), None;
      }
      if r.add == [] && r.check == [] && r.uncheck == [] && r.rename == [] && r.remove == [] {
        return Some(NothingToDo), None;
      }
      Perform(r);
      KeptMeans(log, results, touched, first, items, begun, client.trace, At(), disobeyed);
      StrungIsPrompt(log, At(), disobeyed);
      PromptIsLateOnlyLast(begun, Strung(log), client.time, writes.deadline);
      rejected := None;
      if touched {
        stale := Some(list);
      }
    }
  }
}
