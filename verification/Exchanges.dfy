/**
 * What Graph was asked and what it answered, one exchange after another, and what
 * can be read off it about one list.
 */
module Exchanges {
  import opened Wrappers
  import opened Models
  import opened Retry

  /** A nextLink: a later page of a list, or a URL of some other origin. */
  datatype Link = Next(list: string, page: nat) | OffOriginLink

  datatype Page = Page(tasks: seq<Task>, next: Option<Link>)

  /** A `$batch` sub-response. */
  datatype SubResponse = SubResponse(status: nat, page: Page)

  /** A list's part of an answered batch, a batch that failed, or one page fetched
      for a list. */
  datatype Exchange =
    | Batched(list: string, response: Option<SubResponse>)
    | BatchFailed(error: AppError)
    | Got(owner: string, url: Link, answer: Result<Page, AppError>)

  datatype Log = Silence | Said(before: Log, last: Exchange) {
    function Then(more: Log): Log {
      match more
      case Silence => this
      case Said(init, e) => Said(Then(init), e)
    }

    function Size(): nat {
      match this
      case Silence => 0
      case Said(init, _) => init.Size() + 1
    }

    /** The error the last exchange showed. */
    function LastError(): Option<AppError> {
      if Said? then ErrorIn(last) else None
    }
  }

  function Only(e: Exchange): Log {
    Said(Silence, e)
  }

  lemma {:induction false} ThenAssociates(a: Log, b: Log, c: Log)
    ensures a.Then(b).Then(c) == a.Then(b.Then(c))
  {
    if c.Said? {
      ThenAssociates(a, b, c.before);
    }
  }

  lemma {:induction false} SilenceThen(a: Log)
    ensures Silence.Then(a) == a
  {
    if a.Said? {
      SilenceThen(a.before);
    }
  }

  lemma {:induction false} SizeOfBoth(a: Log, b: Log)
    ensures a.Then(b).Size() == a.Size() + b.Size()
  {
    if b.Said? {
      SizeOfBoth(a, b.before);
    }
  }

  // -------------------------------------------------------------------------
  // One list's pages

  /** A sub-response as a page: anything but a 2xx is none. */
  function FirstPage(r: Option<SubResponse>): Option<Page> {
    if r.Some? && 200 <= r.value.status < 300 then Some(r.value.page) else None
  }

  /** The page an exchange brought for a list. */
  function PageOf(e: Exchange, list: string): Option<Page> {
    match e
    case Batched(l, response) => if l == list then FirstPage(response) else None
    case BatchFailed(_) => None
    case Got(owner, _, answer) => if owner == list && answer.Ok? then Some(answer.value) else None
  }

  function TasksOf(page: Option<Page>): seq<Task> {
    if page.Some? then page.value.tasks else []
  }

  /** The last page a list's walk came to. */
  function LastPage(log: Log, list: string): Option<Page> {
    match log
    case Silence => None
    case Said(before, e) => PageOf(e, list).OrElse(LastPage(before, list))
  }

  /** The tasks of the pages that came for a list, in order. */
  function Gathered(log: Log, list: string): seq<Task> {
    match log
    case Silence => []
    case Said(before, e) => Gathered(before, list) + TasksOf(PageOf(e, list))
  }

  /** A list's walk came to a page without a nextLink. */
  predicate Ended(log: Log, list: string) {
    LastPage(log, list).Some? && LastPage(log, list).value.next.None?
  }

  /** A URL that may be fetched for a list: its first page, or where its last page
      points. */
  predicate Follows(log: Log, list: string, url: Link) {
    url == Next(list, 0) || (LastPage(log, list).Some? && LastPage(log, list).value.next == Some(url))
  }

  /** What is read off a log is read off its parts. */
  lemma {:induction false} ReadOfBoth(a: Log, b: Log, list: string)
    ensures LastPage(a.Then(b), list) == LastPage(b, list).OrElse(LastPage(a, list))
    ensures Gathered(a.Then(b), list) == Gathered(a, list) + Gathered(b, list)
  {
    match b
    case Silence =>
    case Said(init, e) =>
      ReadOfBoth(a, init, list);
      Associates(Gathered(a, list), Gathered(init, list), TasksOf(PageOf(e, list)));
  }

  predicate About(e: Exchange, list: string) {
    match e
    case Batched(l, _) => l == list
    case BatchFailed(_) => true
    case Got(owner, _, _) => owner == list
  }

  /** Nothing in this stretch is about any other list. */
  predicate OnlyFor(log: Log, list: string) {
    log.Said? ==> About(log.last, list) && OnlyFor(log.before, list)
  }

  predicate AllFetches(log: Log) {
    log.Said? ==> log.last.Got? && AllFetches(log.before)
  }

  lemma ReadOfOne(log: Log, e: Exchange, list: string)
    ensures log.Then(Only(e)) == Said(log, e)
    ensures LastPage(Only(e), list) == PageOf(e, list) && Gathered(Only(e), list) == TasksOf(PageOf(e, list))
    ensures OnlyFor(Only(e), list) <==> About(e, list)
  {
    assert [] + TasksOf(PageOf(e, list)) == TasksOf(PageOf(e, list));
  }

  lemma {:induction false} OthersUnheard(log: Log, list: string, other: string)
    requires OnlyFor(log, list) && other != list
    ensures LastPage(log, other).None? && Gathered(log, other) == []
  {
    if log.Said? {
      OthersUnheard(log.before, list, other);
    }
  }

  // -------------------------------------------------------------------------
  // Failures

  /** The error an exchange shows, a nextLink of another origin included. */
  function ErrorIn(e: Exchange): Option<AppError> {
    match e
    case BatchFailed(error) => Some(error)
    case Got(_, _, Err(error)) => Some(error)
    case Got(_, _, Ok(page)) => if page.next == Some(OffOriginLink) then Some(OffOrigin) else None
    case Batched(_, response) =>
      if FirstPage(response).Some? && FirstPage(response).value.next == Some(OffOriginLink) then Some(OffOrigin) else None
  }

  /** An error was shown. */
  predicate Showed(log: Log, error: AppError) {
    log.Said? && (ErrorIn(log.last) == Some(error) || Showed(log.before, error))
  }

  predicate WasThrottled(log: Log) {
    log.Said? && ((log.LastError().Some? && log.LastError().value.Throttled?) || WasThrottled(log.before))
  }

  /** A sub-request of a batch failed. */
  predicate SubRequestFailed(log: Log) {
    log.Said? && ((log.last.Batched? && FirstPage(log.last.response).None?) || SubRequestFailed(log.before))
  }

  /** `$batch` failed, so first pages may have been read one list at a time. */
  predicate FellBack(log: Log) {
    log.Said? && (log.last.BatchFailed? || FellBack(log.before))
  }

  lemma {:induction false} FailuresOfBoth(a: Log, b: Log)
    ensures WasThrottled(a.Then(b)) <==> WasThrottled(a) || WasThrottled(b)
    ensures SubRequestFailed(a.Then(b)) <==> SubRequestFailed(a) || SubRequestFailed(b)
    ensures FellBack(a.Then(b)) <==> FellBack(a) || FellBack(b)
  {
    if b.Said? {
      FailuresOfBoth(a, b.before);
    }
  }

  lemma {:induction false} ShowedByBoth(a: Log, b: Log, error: AppError)
    ensures Showed(a.Then(b), error) <==> Showed(a, error) || Showed(b, error)
  {
    if b.Said? {
      ShowedByBoth(a, b.before, error);
    }
  }

  /** A page that points to another origin shows it. */
  lemma {:induction false} OffOriginShows(log: Log, list: string)
    requires LastPage(log, list).Some? && LastPage(log, list).value.next == Some(OffOriginLink)
    ensures Showed(log, OffOrigin)
  {
    if PageOf(log.last, list).None? {
      OffOriginShows(log.before, list);
    }
  }

  /** A batch's answer, list by list. */
  function Answers(lists: seq<string>, responses: seq<Option<SubResponse>>): (log: Log)
    requires |responses| == |lists|
    ensures log.Size() == |lists|
  {
    if lists == [] then Silence
    else
      var k := |lists| - 1;
      Said(Answers(lists[..k], responses[..k]), Batched(lists[k], responses[k]))
  }

  lemma NextAnswer(lists: seq<string>, responses: seq<Option<SubResponse>>, i: nat)
    requires |responses| == |lists| && i < |lists|
    ensures Answers(lists[..i + 1], responses[..i + 1]) == Said(Answers(lists[..i], responses[..i]), Batched(lists[i], responses[i]))
  {
    assert lists[..i + 1][..i] == lists[..i] && responses[..i + 1][..i] == responses[..i];
  }

  lemma {:induction false} SubRequestsOfAnswers(lists: seq<string>, responses: seq<Option<SubResponse>>)
    requires |responses| == |lists|
    ensures SubRequestFailed(Answers(lists, responses)) <==>
              exists i | 0 <= i < |responses| :: FirstPage(responses[i]).None?
  {
    if lists != [] {
      var k := |lists| - 1;
      SubRequestsOfAnswers(lists[..k], responses[..k]);
      assert forall i | 0 <= i < k :: responses[..k][i] == responses[i];
    }
  }
}
