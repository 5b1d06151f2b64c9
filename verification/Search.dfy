/** The search tool: restoring a cursor's filters, paging through the matched
    tasks, and shrinking a page until the response fits. */
module Search {
  import opened Wrappers
  import opened Cursors
  import opened Render

  /* ---- arguments ---- */

  predicate IsFilterKey(key: Key) {
    !key.LimitKey? && !key.CursorKey? && !key.UnknownKey?
  }

  const STATUSES := ["open", "completed", "any"]
  const DUES := [
    "any", "overdue", "today", "tomorrow", "this_week", "next_7_days", "no_due_date", "has_due_date"]
  const IMPORTANCES := ["low", "normal", "high"]
  const SORTS := ["due_asc", "due_desc", "created_desc", "created_asc", "modified_desc", "title_asc", "importance_desc"]

  datatype ArgError = UnknownArgument | BadValue(key: Key) | CursorWithFilters | DueTwice | DueReversed

  /** Calendar dates, time zones, case folding, sorting and hashing. */
  datatype Domain = Domain(
    date: string -> Option<int>, dateText: int -> string, zone: string -> Option<string>, zoneDefault: string,
    fold: string -> string, sorted: seq<string> -> seq<string>, fnv1a: string -> nat)

  datatype Filter = Filter(
    list: Option<string>, query: Option<string>, status: string, due: string, dueFrom: Option<int>,
    dueTo: Option<int>, importance: Option<string>, categories: seq<string>, sort: string, zone: string)

  datatype SearchArgs = SearchArgs(filter: Filter, limit: nat)

  /** `args.get`, with an absent argument read as null. */
  function Get(args: Args, key: Key): Json {
    if key in args then args[key] else Null
  }

  function ArgStr(v: Json, key: Key): Result<Option<string>, ArgError> {
    match v
    case Null => Ok(None)
    case String(s) => Ok(Some(s))
    case _ => Err(BadValue(key))
  }

  function ArgStrMax(v: Json, key: Key, max: nat): Result<Option<string>, ArgError> {
    var text := ArgStr(v, key);
    if text.Ok? && text.value.Some? && |text.value.value| > max then Err(BadValue(key)) else text
  }

  function ArgEnum(v: Json, key: Key, allowed: seq<string>): Result<Option<string>, ArgError> {
    var text := ArgStr(v, key);
    if text.Ok? && text.value.Some? && text.value.value !in allowed then Err(BadValue(key)) else text
  }

  function ArgDate(d: Domain, v: Json, key: Key): Result<Option<int>, ArgError> {
    match ArgStr(v, key)
    case Err(e) => Err(e)
    case Ok(None) => Ok(None)
    case Ok(Some(s)) => if d.date(s).Some? then Ok(d.date(s)) else Err(BadValue(key))
  }

  function ArgLimit(v: Json): (r: Result<nat, ArgError>)
    ensures r.Ok? ==> 1 <= r.value <= 200
  {
    match v
    case Null => Ok(50)
    case Number(n) => if 1 <= n <= 200 then Ok(n) else Err(BadValue(LimitKey))
    case _ => Err(BadValue(LimitKey))
  }

  function Strings(items: seq<Json>): Option<seq<string>> {
    if items == [] then Some([])
    else if !items[0].String? || Strings(items[1..]).None? then None
    else Some([items[0].s] + Strings(items[1..]).value)
  }

  function ArgStrings(v: Json, key: Key, max: nat): Result<seq<string>, ArgError> {
    match v
    case Null => Ok([])
    case Array(items) =>
      if |items| > max || Strings(items).None? then Err(BadValue(key)) else Ok(Strings(items).value)
    case _ => Err(BadValue(key))
  }

  function ArgZone(d: Domain, v: Json): Result<string, ArgError> {
    match ArgStr(v, TimezoneKey)
    case Err(e) => Err(e)
    case Ok(None) => Ok(d.zoneDefault)
    case Ok(Some(s)) => if d.zone(s).Some? then Ok(d.zone(s).value) else Err(BadValue(TimezoneKey))
  }

  predicate HasFilter(args: Args) {
    exists k | k in args :: IsFilterKey(k) && args[k] != Null
  }

  predicate OnlyKnownKeys(args: Args) {
    forall k | k in args :: !k.UnknownKey?
  }

  /** The filter arguments, by name. */
  datatype Given = Given(
    list: Json, query: Json, status: Json, due: Json, dueFrom: Json, dueTo: Json, importance: Json,
    categories: Json, sort: Json, timezone: Json)

  function GivenIn(args: Args): Given {
    Given(Get(args, ListKey), Get(args, QueryKey), Get(args, StatusKey), Get(args, DueKey), Get(args, DueFromKey),
          Get(args, DueToKey), Get(args, ImportanceKey), Get(args, CategoriesKey), Get(args, SortKey),
          Get(args, TimezoneKey))
  }

  /** The checks on `due` and its bounds. */
  function ParseDue(d: Domain, g: Given): Result<(Option<string>, Option<int>, Option<int>), ArgError> {
    var due := ArgEnum(g.due, DueKey, DUES);
    var dueFrom := ArgDate(d, g.dueFrom, DueFromKey);
    var dueTo := ArgDate(d, g.dueTo, DueToKey);
    if due.Err? then Err(due.error)
    else if dueFrom.Err? then Err(dueFrom.error)
    else if dueTo.Err? then Err(dueTo.error)
    else if due.value.Some? && (dueFrom.value.Some? || dueTo.value.Some?) then Err(DueTwice)
    else if dueFrom.value.Some? && dueTo.value.Some? && dueFrom.value.value > dueTo.value.value then Err(DueReversed)
    else Ok((due.value, dueFrom.value, dueTo.value))
  }

  function ParseFilter(d: Domain, g: Given, zone: string): Result<Filter, ArgError> {
    var due := ParseDue(d, g);
    var list := ArgStr(g.list, ListKey);
    var query := ArgStrMax(g.query, QueryKey, 200);
    var status := ArgEnum(g.status, StatusKey, STATUSES);
    var importance := ArgEnum(g.importance, ImportanceKey, IMPORTANCES);
    var categories := ArgStrings(g.categories, CategoriesKey, 20);
    var sort := ArgEnum(g.sort, SortKey, SORTS);
    if due.Err? then Err(due.error)
    else if list.Err? then Err(list.error)
    else if query.Err? then Err(query.error)
    else if status.Err? then Err(status.error)
    else if importance.Err? then Err(importance.error)
    else if categories.Err? then Err(categories.error)
    else if sort.Err? then Err(sort.error)
    else
      Ok(Filter(
           list.value, query.value, status.value.GetOr("open"), due.value.0.GetOr("any"), due.value.1, due.value.2,
           importance.value, categories.value, sort.value.GetOr("due_asc"), zone))
  }

  function ParseSearchArgs(d: Domain, args: Args): (r: Result<SearchArgs, ArgError>)
    ensures r.Ok? ==> 1 <= r.value.limit <= 200
  {
    var cursor := ArgStr(Get(args, CursorKey), CursorKey);
    var zone := ArgZone(d, Get(args, TimezoneKey));
    var filter := ParseFilter(d, GivenIn(args), if zone.Ok? then zone.value else "");
    var limit := ArgLimit(Get(args, LimitKey));
    if !OnlyKnownKeys(args) then Err(UnknownArgument)
    else if cursor.Err? then Err(cursor.error)
    else if cursor.value.Some? && HasFilter(args) then Err(CursorWithFilters)
    else if filter.Err? then Err(filter.error)
    else if limit.Err? then Err(limit.error)
    else if zone.Err? then Err(zone.error)
    else Ok(SearchArgs(filter.value, limit.value))
  }

  function Join(parts: seq<string>, glue: string): string {
    if parts == [] then ""
    else if |parts| == 1 then parts[0]
    else parts[0] + glue + Join(parts[1..], glue)
  }

  function DateText(d: Domain, day: Option<int>): string {
    if day.Some? then d.dateText(day.value) else ""
  }

  /** The canonical form a cursor's hash covers; the limit is not in it. */
  function Canonical(d: Domain, f: Filter): string {
    var categories := d.sorted(seq(|f.categories|, i requires 0 <= i < |f.categories| => d.fold(f.categories[i])));
    "list=" + f.list.GetOr("") + "|query=" + f.query.GetOr("") + "|status=" + f.status + "|due=" + f.due
    + "|due_from=" + DateText(d, f.dueFrom) + "|due_to=" + DateText(d, f.dueTo)
    + "|importance=" + f.importance.GetOr("") + "|categories=" + Join(categories, ",")
    + "|sort=" + f.sort + "|timezone=" + f.zone
  }

  /** The filters a continuation restores: everything but limit, cursor and nulls. */
  function Filters(args: Args): Args {
    map k | k in args && IsFilterKey(k) && args[k] != Null :: args[k]
  }

  /* ---- one call ---- */

  datatype Summary = Summary(id: string, preview: Option<string>, omitted: bool)

  datatype Page = Page(total: nat, returned: nat, next: Option<string>, tasks: seq<Summary>, omitted: bool)

  /** What a call sees: the settled cache, and how results are rendered and measured. */
  datatype Server = Server(
    codec: Codec, domain: Domain, mailbox: string, generation: nat, matched: Filter -> seq<Summary>,
    size: Page -> nat, cap: nat)

  datatype Reply =
    | Answer(result: Finished<Page>)
    | TooLarge
    | Refused(refusal: Refusal)
    | BadArgs(error: ArgError)

  /** A page request: what is fixed while the ladder shrinks the page. */
  datatype Request = Request(filter: Filter, limit: nat, offset: nat, filters: Args, q: nat, now: int)

  function CursorAt(s: Server, r: Request, n: nat): Cursor {
    Cursor(1, r.offset + n, s.mailbox, n, r.q, r.now, s.generation, Object(r.filters))
  }

  function NextCursor(s: Server, r: Request, n: nat, total: nat): Option<string> {
    if r.offset + n >= total then None
    else Some(Encode(s.codec, CursorAt(s, r, n)))
  }

  /** A cursor alone brings its own filters; filters beside it are refused. */
  function Restore(s: Server, args: Args): Result<(Args, Option<Cursor>), Reply> {
    match Get(args, CursorKey)
    case String(raw) =>
      if !OnlyKnownKeys(args) then Err(BadArgs(UnknownArgument))
      else if HasFilter(args) then Err(Refused(Mixed))
      else
        (match Decode(s.codec, raw)
         case None => Err(Refused(Invalid))
         case Some(c) =>
           if !c.f.Object? then Err(Refused(Invalid))
           else Ok((if LimitKey in args then c.f.fields[LimitKey := args[LimitKey]] else c.f.fields, Some(c))))
    case _ => Ok((args, None))
  }

  /** Everything up to the page itself. */
  function Prepare(s: Server, now: int, args: Args): (r: Result<Request, Reply>)
    ensures r.Ok? ==> 1 <= r.value.limit <= 200
  {
    match Restore(s, args)
    case Err(e) => Err(e)
    case Ok((restored, continuing)) =>
      match ParseSearchArgs(s.domain, restored)
      case Err(e) => Err(BadArgs(e))
      case Ok(a) =>
        var q := s.domain.fnv1a(Canonical(s.domain, a.filter));
        var filters := Filters(restored);
        match continuing
        case None => Ok(Request(a.filter, a.limit, 0, filters, q, now))
        case Some(c) =>
          match Validate(s.codec, Encode(s.codec, c), s.mailbox, now, s.generation, q)
          case Err(refusal) => Err(Refused(refusal))
          case Ok(valid) => Ok(Request(a.filter, a.limit, valid.o, filters, q, now))
  }

  /** `skip(offset).take(limit)`. */
  function Window(matched: seq<Summary>, offset: nat, limit: nat): (w: seq<Summary>)
    ensures |w| <= limit
  {
    var from := Min(offset, |matched|);
    matched[from..Min(from + limit, |matched|)]
  }

  function FirstPage(s: Server, r: Request): Page {
    var matched := s.matched(r.filter);
    var tasks := Window(matched, r.offset, r.limit);
    Page(|matched|, |tasks|, NextCursor(s, r, |tasks|, |matched|), tasks, false)
  }

  function DropPreviews(tasks: seq<Summary>): (r: seq<Summary>)
    ensures |r| == |tasks|
  {
    seq(|tasks|, i requires 0 <= i < |tasks| => tasks[i].(preview := None, omitted := true))
  }

  /** One rung: first the previews go, then half of the page. */
  function Shrink(s: Server, r: Request, step: nat, page: Page): Option<Page> {
    if step == 0 then Some(page.(tasks := DropPreviews(page.tasks), omitted := true))
    else if |page.tasks| <= 1 then None
    else
      var keep := |page.tasks| / 2;
      Some(page.(tasks := page.tasks[..keep], returned := keep, next := NextCursor(s, r, keep, page.total)))
  }

  /** The ladder's rungs for one request. */
  function Rungs(s: Server, r: Request): (nat, Page) -> Option<Page> {
    (step: nat, page: Page) => Shrink(s, r, step, page)
  }

  function Searched(s: Server, now: int, args: Args): Reply {
    match Prepare(s, now, args)
    case Err(e) => e
    case Ok(r) => Delivered(s, r)
  }

  function Delivered(s: Server, r: Request): Reply {
    match Ladder(s.cap, s.size, Rungs(s, r), FirstPage(s, r), 0)
    case Err(_) => TooLarge
    case Ok((page, step)) => Answer(Finished(page, StepNames(step), s.size(page)))
  }

  method TodoSearchTasks(s: Server, now: int, args: Args) returns (reply: Reply)
    ensures reply == Searched(s, now, args)
  {
    var prepared := Prepare(s, now, args);
    match prepared {
      case Err(e) => return e;
      case Ok(r) =>
        var finished := Finish(s.cap, s.size, Rungs(s, r), FirstPage(s, r));
        match finished {
          case Err(_) => return TooLarge;
          case Ok(result) => return Answer(result);
        }
    }
  }

  /** What is searched for when nothing is said: open tasks, whenever due, the earliest
      due first, fifty at a time. */
  lemma DefaultSearch(d: Domain, args: Args)
    requires forall k | k in args :: !k.UnknownKey? && args[k] == Null
    ensures ParseSearchArgs(d, args) ==
              Ok(SearchArgs(Filter(None, None, "open", "any", None, None, None, [], "due_asc", d.zoneDefault), 50))
  {
    forall key: Key
      ensures Get(args, key) == Null
    {
    }
  }

  /** A page that fits is delivered as it is: the matched tasks from the offset on, as many
      as the limit, none without its preview. */
  lemma FittingPageIsDelivered(s: Server, now: int, args: Args, r: Request)
    requires Prepare(s, now, args) == Ok(r) && s.size(FirstPage(s, r)) <= s.cap
    ensures Searched(s, now, args) == Answer(Finished(FirstPage(s, r), [], s.size(FirstPage(s, r))))
    ensures var page, matched := FirstPage(s, r), s.matched(r.filter);
            && page.total == |matched| && !page.omitted
            && page.returned == |page.tasks| == Min(r.limit, Max(|matched| - r.offset, 0))
            && forall i | 0 <= i < |page.tasks| :: page.tasks[i] == matched[r.offset + i]
  {
    FitsAsItIs(s, r);
    WindowIs(s.matched(r.filter), r.offset, r.limit);
  }

  lemma FitsAsItIs(s: Server, r: Request)
    requires s.size(FirstPage(s, r)) <= s.cap
    ensures Delivered(s, r) == Answer(Finished(FirstPage(s, r), [], s.size(FirstPage(s, r))))
  {
    FirstThatFits(s.cap, s.size, Rungs(s, r), FirstPage(s, r), 0);
    assert StepNames(0) == [];
  }

  lemma WindowIs(matched: seq<Summary>, offset: nat, limit: nat)
    ensures |Window(matched, offset, limit)| == Min(limit, Max(|matched| - offset, 0))
    ensures forall i | 0 <= i < |Window(matched, offset, limit)| :: Window(matched, offset, limit)[i] == matched[offset + i]
  {
  }

  /* ---- a cursor restores its own filters ---- */

  function UnderLimit(filters: Args, limit: Option<Json>): Args {
    if limit.Some? then filters[LimitKey := limit.value] else filters
  }

  lemma SameFilters(args: Args, limit: Option<Json>)
    ensures var again := UnderLimit(Filters(args), limit);
            && Filters(again) == Filters(args) && GivenIn(again) == GivenIn(args)
            && OnlyKnownKeys(again) && CursorKey !in again && !HasFilter(map k | k in args && !IsFilterKey(k) :: args[k])
  {
  }

  /** The same filters under any limit parse to the same search, whose filters they are. */
  lemma FiltersReproduce(d: Domain, args: Args, limit: Option<Json>)
    requires ParseSearchArgs(d, args).Ok?
    ensures var again := UnderLimit(Filters(args), limit);
            var newLimit := ArgLimit(Get(again, LimitKey));
            && Filters(again) == Filters(args)
            && (newLimit.Err? ==> ParseSearchArgs(d, again) == Err(newLimit.error))
            && (newLimit.Ok? ==>
                  ParseSearchArgs(d, again) == Ok(SearchArgs(ParseSearchArgs(d, args).value.filter, newLimit.value)))
  {
    SameFilters(args, limit);
    assert Get(UnderLimit(Filters(args), limit), TimezoneKey) == Get(args, TimezoneKey) by {
      assert GivenIn(args).timezone == Get(args, TimezoneKey);
    }
  }

  /** `r` is a request over filters that parse back to its own search. */
  ghost predicate Restorable(s: Server, r: Request) {
    && r.q == s.domain.fnv1a(Canonical(s.domain, r.filter))
    && CursorKey !in r.filters
    && Filters(r.filters) == r.filters
    && ParseSearchArgs(s.domain, r.filters).Ok?
    && ParseSearchArgs(s.domain, r.filters).value.filter == r.filter
  }

  lemma PreparedIsRestorable(s: Server, now: int, args: Args)
    requires Prepare(s, now, args).Ok?
    requires Get(args, CursorKey).String? ==>
               Decode(s.codec, args[CursorKey].s).Some? && CursorKey !in Decode(s.codec, args[CursorKey].s).value.f.fields
    ensures Restorable(s, Prepare(s, now, args).value)
  {
    var restored := Restore(s, args).value.0;
    FiltersReproduce(s.domain, restored, None);
  }

  function FollowUp(cursor: string, limit: Option<Json>): Args {
    if limit.Some? then map[CursorKey := String(cursor), LimitKey := limit.value] else map[CursorKey := String(cursor)]
  }

  lemma FollowUpRestores(s: Server, c: Cursor, limit: Option<Json>)
    requires s.codec.Faithful() && c.f.Object?
    ensures Restore(s, FollowUp(Encode(s.codec, c), limit)) == Ok((UnderLimit(c.f.fields, limit), Some(c)))
  {
    CursorRoundTrip(s.codec, c);
    assert !HasFilter(FollowUp(Encode(s.codec, c), limit));
  }

  lemma PrepareContinuing(s: Server, now: int, args: Args, restored: Args, c: Cursor, a: SearchArgs)
    requires Restore(s, args) == Ok((restored, Some(c))) && ParseSearchArgs(s.domain, restored) == Ok(a)
    requires Validate(s.codec, Encode(s.codec, c), s.mailbox, now, s.generation, c.q) == Ok(c)
    requires s.domain.fnv1a(Canonical(s.domain, a.filter)) == c.q
    ensures Prepare(s, now, args) == Ok(Request(a.filter, a.limit, c.o, Filters(restored), c.q, now))
  {
  }

  /** The limit of a follow-up call. */
  function LimitOf(limit: Option<Json>): Result<nat, ArgError> {
    ArgLimit(limit.GetOr(Null))
  }

  lemma RestoredParses(s: Server, r: Request, limit: Option<Json>)
    requires Restorable(s, r) && LimitOf(limit).Ok?
    ensures ParseSearchArgs(s.domain, UnderLimit(r.filters, limit)) == Ok(SearchArgs(r.filter, LimitOf(limit).value))
    ensures Filters(UnderLimit(r.filters, limit)) == r.filters
  {
    FiltersReproduce(s.domain, r.filters, limit);
    assert LimitKey !in Filters(r.filters);
  }

  lemma CursorRestores(s: Server, r: Request, n: nat, limit: Option<Json>)
    requires s.codec.Faithful()
    ensures var c := CursorAt(s, r, n);
            Restore(s, FollowUp(Encode(s.codec, c), limit)) == Ok((UnderLimit(r.filters, limit), Some(c)))
  {
    FollowUpRestores(s, CursorAt(s, r, n), limit);
  }

  lemma CursorIsValid(s: Server, r: Request, n: nat, now: int)
    requires s.codec.Faithful() && now - r.now <= CURSOR_TTL_SECONDS
    ensures var c := CursorAt(s, r, n);
            Validate(s.codec, Encode(s.codec, c), s.mailbox, now, s.generation, r.q) == Ok(c)
  {
    IssuedCursorIsAccepted(s.codec, CursorAt(s, r, n), s.mailbox, now, s.generation, r.q);
  }

  /** A cursor passed alone is accepted and goes on where its page ended. */
  lemma CursorContinues(s: Server, r: Request, n: nat, now: int, limit: Option<Json>)
    requires s.codec.Faithful() && Restorable(s, r)
    requires now - r.now <= CURSOR_TTL_SECONDS && LimitOf(limit).Ok?
    ensures Prepare(s, now, FollowUp(Encode(s.codec, CursorAt(s, r, n)), limit))
            == Ok(Request(r.filter, LimitOf(limit).value, r.offset + n, r.filters, r.q, now))
  {
    var c := CursorAt(s, r, n);
    CursorRestores(s, r, n, limit);
    RestoredParses(s, r, limit);
    CursorIsValid(s, r, n, now);
    PrepareContinuing(
      s, now, FollowUp(Encode(s.codec, c), limit), UnderLimit(r.filters, limit), c,
      SearchArgs(r.filter, LimitOf(limit).value));
  }

  /* ---- what the ladder leaves ---- */

  function Ids(tasks: seq<Summary>): (ids: seq<string>)
    ensures |ids| == |tasks|
    ensures forall i | 0 <= i < |tasks| :: ids[i] == tasks[i].id
  {
    seq(|tasks|, i requires 0 <= i < |tasks| => tasks[i].id)
  }

  /** A page of the request: its tasks start at the offset, and its cursor at their end. */
  ghost predicate IsPage(s: Server, r: Request, page: Page) {
    var matched := s.matched(r.filter);
    && page.total == |matched|
    && page.returned == |page.tasks|
    && Ids(page.tasks) == Ids(Window(matched, r.offset, page.returned))
    && page.next == NextCursor(s, r, page.returned, page.total)
    && (r.offset < |matched| ==> page.returned > 0)
  }

  /** The last rung: one task at most, without its preview. */
  ghost function LastRung(s: Server, r: Request): Page {
    var matched := s.matched(r.filter);
    var tasks := DropPreviews(Window(matched, r.offset, 1));
    Page(|matched|, |tasks|, NextCursor(s, r, |tasks|, |matched|), tasks, true)
  }

  /** How many tasks a page can still have before a step. */
  ghost function Room(step: nat): nat {
    if step <= 1 then 200 else Room(step - 1) / 2
  }

  /** A page after its previews went. */
  ghost predicate Stripped(s: Server, r: Request, page: Page) {
    page.omitted && page.tasks == DropPreviews(Window(s.matched(r.filter), r.offset, page.returned))
  }

  /** The first tasks of a stripped page are a stripped page. */
  lemma PrefixIsStripped(matched: seq<Summary>, offset: nat, n: nat, keep: nat)
    requires keep <= |Window(matched, offset, n)|
    ensures DropPreviews(Window(matched, offset, n))[..keep] == DropPreviews(Window(matched, offset, keep))
    ensures |Window(matched, offset, keep)| == keep
  {
    assert Window(matched, offset, n)[..keep] == Window(matched, offset, keep);
  }

  lemma IdsOfStripped(tasks: seq<Summary>)
    ensures Ids(DropPreviews(tasks)) == Ids(tasks)
  {
  }

  lemma HalfIsAPage(s: Server, r: Request, page: Page, step: nat)
    requires IsPage(s, r, page) && Stripped(s, r, page) && |page.tasks| > 1 && step >= 1
    ensures IsPage(s, r, Shrink(s, r, step, page).value) && Stripped(s, r, Shrink(s, r, step, page).value)
  {
    var keep := |page.tasks| / 2;
    var matched := s.matched(r.filter);
    PrefixIsStripped(matched, r.offset, page.returned, keep);
    IdsOfStripped(Window(matched, r.offset, keep));
  }

  lemma SmallIsTheLastRung(s: Server, r: Request, page: Page)
    requires IsPage(s, r, page) && Stripped(s, r, page) && |page.tasks| <= 1
    ensures page == LastRung(s, r)
  {
    assert Window(s.matched(r.filter), r.offset, page.returned) == Window(s.matched(r.filter), r.offset, 1);
  }

  lemma {:induction false} LadderFrom(s: Server, r: Request, page: Page, step: nat)
    requires 1 <= step <= LADDER_STEPS && |page.tasks| <= Room(step)
    requires IsPage(s, r, page) && Stripped(s, r, page)
    ensures match Ladder(s.cap, s.size, Rungs(s, r), page, step)
            case Ok((last, _)) => IsPage(s, r, last)
            case Err(last) => last == LastRung(s, r)
    decreases LADDER_STEPS - step
  {
    if |page.tasks| <= 1 {
      SmallIsTheLastRung(s, r, page);
    } else if step < LADDER_STEPS {
      HalfIsAPage(s, r, page, step);
      LadderFrom(s, r, Shrink(s, r, step, page).value, step + 1);
    } else {
      RoomForOne();
      assert false;
    }
  }

  lemma RoomForOne()
    ensures Room(LADDER_STEPS) == 1
  {
    assert Room(2) == 100 && Room(3) == 50 && Room(4) == 25 && Room(5) == 12 && Room(6) == 6 && Room(7) == 3;
  }

  /** Eight steps are enough: what comes back is a page of the request that fits,
      and only a page of one task at most, without previews, is ever too large. */
  lemma LadderReachesOneTask(s: Server, r: Request)
    requires 1 <= r.limit <= 200
    ensures match Ladder(s.cap, s.size, Rungs(s, r), FirstPage(s, r), 0)
            case Ok((last, _)) => IsPage(s, r, last) && s.size(last) <= s.cap
            case Err(last) => last == LastRung(s, r) && s.size(last) > s.cap
  {
    var page := FirstPage(s, r);
    var matched := s.matched(r.filter);
    assert Window(matched, r.offset, |page.tasks|) == page.tasks;
    if s.size(page) > s.cap {
      LadderFrom(s, r, Shrink(s, r, 0, page).value, 1);
    }
  }

  /* ---- following the cursors ---- */

  /** One more call with the last cursor alone. */
  datatype Follow = Follow(now: int, limit: Option<Json>)

  /** What a server answers to a call at some time. */
  ghost function Asks(s: Server): (int, Args) -> Reply {
    (now: int, args: Args) => Searched(s, now, args)
  }

  /** The ids seen from a reply to the last page, if every call was answered. */
  ghost function Walk(ask: (int, Args) -> Reply, reply: Reply, calls: seq<Follow>): Option<seq<string>>
    decreases |calls|
  {
    if !reply.Answer? then None
    else
      var page := reply.result.value;
      if page.next.None? then (if calls == [] then Some(Ids(page.tasks)) else None)
      else if calls == [] then None
      else
        match Walk(ask, ask(calls[0].now, FollowUp(page.next.value, calls[0].limit)), calls[1..])
        case None => None
        case Some(rest) => Some(Ids(page.tasks) + rest)
  }

  /** Each call comes within fifteen minutes of the one before. */
  ghost predicate Timely(now: int, calls: seq<Follow>)
    decreases |calls|
  {
    calls != [] ==>
      && calls[0].now - now <= CURSOR_TTL_SECONDS && LimitOf(calls[0].limit).Ok?
      && Timely(calls[0].now, calls[1..])
  }

  lemma AnswersArePages(s: Server, now: int, args: Args, r: Request)
    requires Prepare(s, now, args) == Ok(r)
    ensures Searched(s, now, args).Answer? || Searched(s, now, args).TooLarge?
    ensures Searched(s, now, args).Answer? ==> IsPage(s, r, Searched(s, now, args).result.value)
    ensures Searched(s, now, args).TooLarge? ==> s.size(LastRung(s, r)) > s.cap
  {
    LadderReachesOneTask(s, r);
  }

  lemma WindowsJoin(matched: seq<Summary>, offset: nat, n: nat)
    requires offset + n <= |matched|
    ensures Ids(Window(matched, offset, n)) + Ids(matched)[offset + n..] == Ids(matched)[offset..]
  {
  }

  lemma PageCursor(s: Server, r: Request, page: Page)
    requires IsPage(s, r, page) && page.next.Some?
    ensures page.next.value == Encode(s.codec, CursorAt(s, r, page.returned))
    ensures r.offset < r.offset + page.returned < |s.matched(r.filter)|
  {
  }

  /** The page's own cursor is a request for what follows it, and is never refused. */
  lemma NextRequest(s: Server, r: Request, cursor: string, n: nat, call: Follow)
    requires s.codec.Faithful() && Restorable(s, r) && cursor == Encode(s.codec, CursorAt(s, r, n))
    requires call.now - r.now <= CURSOR_TTL_SECONDS && LimitOf(call.limit).Ok?
    ensures Prepare(s, call.now, FollowUp(cursor, call.limit))
            == Ok(Request(r.filter, LimitOf(call.limit).value, r.offset + n, r.filters, r.q, call.now))
  {
    CursorContinues(s, r, n, call.now, call.limit);
  }

  lemma NextIsRestorable(s: Server, r: Request, next: Request)
    requires Restorable(s, r) && next.filter == r.filter && next.filters == r.filters && next.q == r.q
    ensures Restorable(s, next)
  {
  }

  /** Anywhere on a walk, a page's cursor alone brings the next page, unless even one
      task without its preview is too large: it is never refused. */
  lemma CursorIsNeverRefused(s: Server, r: Request, page: Page, call: Follow) returns (next: Request)
    requires s.codec.Faithful() && Restorable(s, r) && IsPage(s, r, page) && page.next.Some?
    requires call.now - r.now <= CURSOR_TTL_SECONDS && LimitOf(call.limit).Ok?
    ensures next.offset == r.offset + page.returned > r.offset && next.offset < |s.matched(r.filter)|
    ensures next.filter == r.filter && next.limit == LimitOf(call.limit).value && next.now == call.now
    ensures Restorable(s, next)
    ensures var reply := Asks(s)(call.now, FollowUp(page.next.value, call.limit));
            && (reply.TooLarge? ==> s.size(LastRung(s, next)) > s.cap)
            && (!reply.TooLarge? ==> reply.Answer? && IsPage(s, next, reply.result.value))
  {
    PageCursor(s, r, page);
    next := Request(r.filter, LimitOf(call.limit).value, r.offset + page.returned, r.filters, r.q, call.now);
    Continued(s, r, page.next.value, page.returned, call, next);
  }

  /** The request that a cursor makes, and its answer. */
  lemma Continued(s: Server, r: Request, cursor: string, n: nat, call: Follow, next: Request)
    requires s.codec.Faithful() && Restorable(s, r) && cursor == Encode(s.codec, CursorAt(s, r, n))
    requires call.now - r.now <= CURSOR_TTL_SECONDS && LimitOf(call.limit).Ok?
    requires next == Request(r.filter, LimitOf(call.limit).value, r.offset + n, r.filters, r.q, call.now)
    ensures Restorable(s, next)
    ensures var reply := Asks(s)(call.now, FollowUp(cursor, call.limit));
            && (reply.TooLarge? ==> s.size(LastRung(s, next)) > s.cap)
            && (!reply.TooLarge? ==> reply.Answer? && IsPage(s, next, reply.result.value))
  {
    NextRequest(s, r, cursor, n, call);
    NextIsRestorable(s, r, next);
    AnswersArePages(s, call.now, FollowUp(cursor, call.limit), next);
  }

  /** A page, and the ids from its end on. */
  lemma OneMorePage(s: Server, r: Request, page: Page, rest: seq<string>)
    requires IsPage(s, r, page) && page.next.Some? && r.offset + page.returned <= |s.matched(r.filter)|
    requires rest == Ids(s.matched(r.filter))[r.offset + page.returned..]
    ensures Ids(page.tasks) + rest == Ids(s.matched(r.filter))[r.offset..] && page.returned > 0
  {
    PageCursor(s, r, page);
    WindowsJoin(s.matched(r.filter), r.offset, page.returned);
  }

  lemma {:induction false} WalkFromPage(
      s: Server, ask: (int, Args) -> Reply, r: Request, reply: Reply, calls: seq<Follow>)
    requires s.codec.Faithful() && ask == Asks(s) && Restorable(s, r)
    requires reply.Answer? ==> IsPage(s, r, reply.result.value)
    requires Timely(r.now, calls) && r.offset <= |s.matched(r.filter)|
    ensures var walk := Walk(ask, reply, calls);
            walk.Some? ==> walk.value == Ids(s.matched(r.filter))[r.offset..] && |calls| <= |walk.value|
    decreases |calls|
  {
    if reply.Answer? {
      var page := reply.result.value;
      if page.next.None? {
        WindowsJoin(s.matched(r.filter), r.offset, |s.matched(r.filter)| - r.offset);
      } else if calls != [] {
        var next := CursorIsNeverRefused(s, r, page, calls[0]);
        var answer := ask(calls[0].now, FollowUp(page.next.value, calls[0].limit));
        WalkFromPage(s, ask, next, answer, calls[1..]);
        if Walk(ask, answer, calls[1..]).Some? {
          OneMorePage(s, r, page, Walk(ask, answer, calls[1..]).value);
        }
      }
    }
  }

  /** A fresh search and its cursors, followed to the end, give every matched task
      once and in order, however the pages were halved on the way. */
  lemma EveryTaskOnce(s: Server, now: int, args: Args, calls: seq<Follow>)
    requires s.codec.Faithful() && !Get(args, CursorKey).String? && Timely(now, calls)
    ensures var walk := Walk(Asks(s), Searched(s, now, args), calls);
            walk.Some? ==>
              && ParseSearchArgs(s.domain, args).Ok?
              && walk.value == Ids(s.matched(ParseSearchArgs(s.domain, args).value.filter))
              && |calls| <= |walk.value|
  {
    if Searched(s, now, args).Answer? {
      var r := Prepare(s, now, args).value;
      PreparedIsRestorable(s, now, args);
      AnswersArePages(s, now, args, r);
      WalkFromPage(s, Asks(s), r, Searched(s, now, args), calls);
    }
  }
}
