/**
 * Collections and their pages. Graph may answer anything, after any time; a run is
 * `calm` while every answer is the mailbox's own, costs one request, and nothing
 * expires. Every exchange is logged, by the one method that makes it.
 */
module Paging {
  import opened Wrappers
  import opened Models
  import opened Retry
  import opened Exchanges

  type Mailbox = map<string, seq<seq<Task>>>

  // -------------------------------------------------------------------------
  // Pages

  function Flat(pages: seq<seq<Task>>): seq<Task> {
    if pages == [] then [] else pages[0] + Flat(pages[1..])
  }

  lemma {:induction false} FlatSplit(pages: seq<seq<Task>>, k: nat)
    requires k <= |pages|
    ensures Flat(pages) == Flat(pages[..k]) + Flat(pages[k..])
  {
    if k == 0 {
      assert pages[0..] == pages;
    } else {
      FlatSplit(pages[1..], k - 1);
      assert pages[..k][1..] == pages[1..][..k - 1] && pages[1..][k - 1..] == pages[k..];
      assert Flat(pages) == pages[0] + (Flat(pages[1..][..k - 1]) + Flat(pages[k..]));
    }
  }

  lemma FlatGrows(pages: seq<seq<Task>>, from: nat, to: nat)
    requires from <= to < |pages|
    ensures Flat(pages[from..to + 1]) == Flat(pages[from..to]) + pages[to]
  {
    var all := pages[from..to + 1];
    FlatSplit(all, to - from);
    assert all[..to - from] == pages[from..to] && all[to - from..] == [pages[to]];
    assert [pages[to]][1..] == [] && pages[to] + [] == pages[to];
  }

  predicate HasPage(m: Mailbox, list: string, k: nat) {
    list in m && k < |m[list]|
  }

  /** What the mailbox has at a link. */
  function PageAt(m: Mailbox, list: string, k: nat): Page
    requires HasPage(m, list, k)
  {
    Page(m[list][k], if k + 1 < |m[list]| then Some(Next(list, k + 1)) else None)
  }

  /** A faithful answer to a batch of first pages. */
  predicate FirstPages(m: Mailbox, lists: seq<string>, responses: seq<Option<SubResponse>>) {
    && |responses| == |lists|
    && forall i | 0 <= i < |lists| ::
         HasPage(m, lists[i], 0) && responses[i] == Some(SubResponse(200, PageAt(m, lists[i], 0)))
  }

  /** A walk so far, of a list from some page on: only fetches, none of which failed
      or was the last page; its tasks in page order; and the URL to go on with. */
  ghost predicate Walking(before: Log, walk: Log, list: string, url: Link, items: seq<Task>) {
    && OnlyFor(walk, list) && AllFetches(walk)
    && items == Gathered(walk, list)
    && !Ended(walk, list) && walk.LastError().None?
    && Follows(before.Then(walk), list, url)
  }

  /** What a walk says of the exchanges it made: all of them fetches for its list,
      complete exactly if the last page had no nextLink, its tasks in page order; or
      the error, exactly if the last exchange showed one. */
  ghost predicate Tells(walk: Log, list: string, r: Result<(seq<Task>, bool), AppError>) {
    && OnlyFor(walk, list) && AllFetches(walk)
    && (Ended(walk, list) <==> r.Ok? && r.value.1)
    && (r.Ok? ==> r.value.0 == Gathered(walk, list))
    && walk.LastError() == if r.Err? then Some(r.error) else None
  }

  lemma WalkFails(before: Log, walk: Log, list: string, url: Link, items: seq<Task>, error: AppError)
    requires Walking(before, walk, list, url, items)
    ensures Tells(Said(walk, Got(list, url, Err(error))), list, Err(error))
  {
  }

  /** One more page: the last, or one with a nextLink to follow or to refuse. */
  lemma PageTaken(before: Log, walk: Log, list: string, url: Link, items: seq<Task>, page: Page)
    requires Walking(before, walk, list, url, items)
    ensures var more, all := Said(walk, Got(list, url, Ok(page))), items + page.tasks;
            match page.next
            case None => Tells(more, list, Ok((all, true)))
            case Some(next) =>
              if next.OffOriginLink? then Tells(more, list, Err(OffOrigin)) else Walking(before, more, list, next, all)
  {
    ReadOfBoth(before, Said(walk, Got(list, url, Ok(page))), list);
  }

  lemma WalkBegins(before: Log, list: string, url: Link)
    requires Follows(before, list, url)
    ensures Walking(before, Silence, list, url, [])
  {
  }

  class Graph {
    /** What is in the mailbox, while the run is calm. */
    ghost const mailbox: Mailbox
    var time: int
    ghost var calm: bool
    /** Every exchange, in order. */
    ghost var log: Log

    constructor (ghost mailbox: Mailbox)
      ensures this.mailbox == mailbox && calm && log == Silence
    {
      this.mailbox, calm, log := mailbox, true, Silence;
    }

    method Now() returns (t: int)
      modifies this`time
      ensures t == time && time >= old(time)
    {
      var elapsed: int :| elapsed >= 0;
      time := time + elapsed;
      return time;
    }

    method Expired(budget: Budget) returns (expired: bool)
      modifies this`time, this`calm
      ensures expired == (time >= budget.deadline) && time >= old(time)
      ensures calm ==> old(calm) && !expired
    {
      var now := Now();
      expired := now >= budget.deadline;
      calm := calm && !expired;
    }

    /** Any number of requests may go on one call, retries included. */
    method Spend(budget: Budget)
      requires budget.Valid()
      modifies this`time, this`calm, budget`requestsLeft, budget`requestsUsed
      ensures budget.Valid() && old(budget.requestsUsed) <= budget.requestsUsed && time >= old(time)
      ensures budget.requestsLeft + budget.requestsUsed == old(budget.requestsLeft + budget.requestsUsed)
      ensures calm ==> old(calm) && budget.requestsLeft == old(budget.requestsLeft) - 1
    {
      var _ := Now();
      var used: int :| 0 <= used <= budget.requestsLeft;
      budget.requestsLeft, budget.requestsUsed := budget.requestsLeft - used, budget.requestsUsed + used;
      calm := calm && used == 1;
    }

    method BatchGet(lists: seq<string>, budget: Budget) returns (r: Result<seq<Option<SubResponse>>, AppError>)
      requires budget.Valid()
      modifies this, budget`requestsLeft, budget`requestsUsed
      ensures budget.Valid() && old(budget.requestsUsed) <= budget.requestsUsed && time >= old(time)
      ensures budget.requestsLeft + budget.requestsUsed == old(budget.requestsLeft + budget.requestsUsed)
      ensures r.Ok? ==> |r.value| == |lists| && log == old(log).Then(Answers(lists, r.value))
      ensures r.Err? ==> log == Said(old(log), BatchFailed(r.error))
      ensures calm ==> old(calm) && r.Ok? && FirstPages(mailbox, lists, r.value)
      ensures calm ==> budget.requestsLeft == old(budget.requestsLeft) - 1
    {
      Spend(budget);
      var responses: seq<Option<SubResponse>> := *;
      var error: Option<AppError> := *;
      if error.Some? || |responses| != |lists| {
        calm := false;
        r := Err(error.GetOr(BadBody));
        log := Said(log, BatchFailed(r.error));
        return;
      }
      calm := calm && FirstPages(mailbox, lists, responses);
      log := log.Then(Answers(lists, responses));
      return Ok(responses);
    }

    /** One page for one list, from where its walk stands. */
    method SendGet(ghost owner: string, url: Link, budget: Budget) returns (r: Result<Page, AppError>)
      requires budget.Valid() && Follows(log, owner, url)
      modifies this, budget`requestsLeft, budget`requestsUsed
      ensures budget.Valid() && old(budget.requestsUsed) <= budget.requestsUsed && time >= old(time)
      ensures budget.requestsLeft + budget.requestsUsed == old(budget.requestsLeft + budget.requestsUsed)
      ensures log == Said(old(log), Got(owner, url, r))
      ensures calm ==> old(calm) && url.Next? && HasPage(mailbox, url.list, url.page)
      ensures calm ==> r == Ok(PageAt(mailbox, url.list, url.page))
      ensures calm ==> budget.requestsLeft == old(budget.requestsLeft) - 1
    {
      Spend(budget);
      var page: Page := *;
      var error: Option<AppError> := *;
      if error.Some? {
        calm := false;
        r := Err(error.value);
      } else {
        calm := calm && url.Next? && HasPage(mailbox, url.list, url.page) && page == PageAt(mailbox, url.list, url.page);
        r := Ok(page);
      }
      log := Said(log, Got(owner, url, r));
    }

    /** A walk that got as far as it may in a calm run. */
    ghost predicate Fetched(first: Link, r: Result<(seq<Task>, bool), AppError>, left: nat, maxPages: nat) {
      first.Next? && HasPage(mailbox, first.list, first.page) ==>
        var pages := mailbox[first.list][first.page..];
        r.Ok?
        && if |pages| <= Min(left, maxPages) then r.value == (Flat(pages), true)
           else r.value == (Flat(pages[..Min(left, maxPages)]), false)
    }

    /** One page of a walk, and what it leads to: an end, or the next URL. */
    method OnePage(
        ghost owner: string, url: Link, items: seq<Task>, budget: Budget,
        ghost before: Log, ghost walk: Log)
      returns (
        done: Option<Result<(seq<Task>, bool), AppError>>, next: Link, all: seq<Task>, ghost more: Log)
      requires budget.Valid() && log == before.Then(walk) && Walking(before, walk, owner, url, items)
      modifies this, budget`requestsLeft, budget`requestsUsed
      ensures budget.Valid() && old(budget.requestsUsed) <= budget.requestsUsed && time >= old(time)
      ensures budget.requestsLeft + budget.requestsUsed == old(budget.requestsLeft + budget.requestsUsed)
      ensures log == before.Then(more) && more.Size() == walk.Size() + 1
      ensures match done
              case Some(r) => Tells(more, owner, r) && (r.Ok? ==> r.value.1)
              case None => Walking(before, more, owner, next, all)
      ensures calm ==>
                && old(calm) && budget.requestsLeft == old(budget.requestsLeft) - 1
                && url.Next? && HasPage(mailbox, url.list, url.page)
                && var page := PageAt(mailbox, url.list, url.page);
                   match page.next
                   case Some(n) => done.None? && next == n && all == items + page.tasks
                   case None => done == Some(Ok((items + page.tasks, true)))
    {
      next, all := url, items;
      var res := SendGet(owner, url, budget);
      more := Said(walk, Got(owner, url, res));
      if res.Err? {
        WalkFails(before, walk, owner, url, items, res.error);
        return Some(Err(res.error)), next, all, more;
      }
      PageTaken(before, walk, owner, url, items, res.value);
      all := items + res.value.tasks;
      match res.value.next {
        case Some(link) =>
          // The origin is checked before the link is followed.
          if link.OffOriginLink? {
            calm := false;
            done := Some(Err(OffOrigin));
          } else {
            done, next := None, link;
          }
        case None =>
          done := Some(Ok((all, true)));
      }
    }

    /** Walk a collection. Running out of budget is not an error: it is an
        incomplete result, a prefix of what there is. */
    method GetCollection(ghost owner: string, first: Link, budget: Budget)
      returns (r: Result<(seq<Task>, bool), AppError>, ghost walk: Log)
      requires budget.Valid() && Follows(log, owner, first)
      modifies this, budget`requestsLeft, budget`requestsUsed
      ensures budget.Valid() && old(budget.requestsUsed) <= budget.requestsUsed && time >= old(time)
      ensures budget.requestsLeft + budget.requestsUsed == old(budget.requestsLeft + budget.requestsUsed)
      ensures log == old(log).Then(walk) && Tells(walk, owner, r)
      // Cut short only by the page cap, the deadline, or the last request.
      ensures r.Ok? && !r.value.1 ==>
                walk.Size() >= budget.maxPages || time >= budget.deadline || budget.requestsLeft == 0
      ensures calm ==> old(calm) && r.Ok? && Fetched(first, r, old(budget.requestsLeft), budget.maxPages)
    {
      var items: seq<Task>, url, pages: nat := [], first, 0;
      walk := Silence;
      WalkBegins(log, owner, first);
      while true
        invariant budget.Valid() && pages <= budget.maxPages && time >= old(time)
        invariant old(budget.requestsUsed) <= budget.requestsUsed
        invariant budget.requestsLeft + budget.requestsUsed == old(budget.requestsLeft + budget.requestsUsed)
        invariant log == old(log).Then(walk) && walk.Size() == pages && Walking(old(log), walk, owner, url, items)
        invariant calm ==> old(calm) && OnTheWay(first, url, items, pages, old(budget.requestsLeft), budget.requestsLeft)
        decreases budget.maxPages - pages
      {
        ghost var had, left := old(budget.requestsLeft), budget.requestsLeft;
        if pages >= budget.maxPages {
          CutShort(first, url, items, pages, had, left, budget.maxPages);
          return Ok((items, false)), walk;
        }
        var expired := Expired(budget);
        if expired || budget.requestsLeft == 0 {
          CutShort(first, url, items, pages, had, left, budget.maxPages);
          return Ok((items, false)), walk;
        }
        var done, next, all;
        done, next, all, walk := OnePage(owner, url, items, budget, old(log), walk);
        if calm {
          OneFurther(first, url, items, pages, had, left, budget.maxPages);
        }
        if done.Some? {
          return done.value, walk;
        }
        pages, url, items := pages + 1, next, all;
      }
    }

    /** Where a calm walk stands after so many pages. */
    ghost predicate OnTheWay(first: Link, url: Link, items: seq<Task>, pages: nat, had: nat, left: nat) {
      && left == had - pages
      && (first.Next? && HasPage(mailbox, first.list, first.page) ==>
            && url == Next(first.list, first.page + pages) && HasPage(mailbox, first.list, first.page + pages)
            && items == Flat(mailbox[first.list][first.page..first.page + pages]))
    }

    lemma OneFurther(first: Link, at: Link, items: seq<Task>, pages: nat, had: nat, left: nat, maxPages: nat)
      requires OnTheWay(first, at, items, pages, had, left) && left > 0 && pages < maxPages
      requires at.Next? && HasPage(mailbox, at.list, at.page)
      ensures var page := PageAt(mailbox, at.list, at.page);
              match page.next
              case Some(next) => OnTheWay(first, next, items + page.tasks, pages + 1, had, left - 1)
              case None => Fetched(first, Ok((items + page.tasks, true)), had, maxPages)
    {
      if first.Next? && HasPage(mailbox, first.list, first.page) {
        var all := mailbox[first.list];
        FlatGrows(all, first.page, first.page + pages);
        if PageAt(mailbox, at.list, at.page).next.None? {
          assert all[first.page..first.page + pages + 1] == all[first.page..];
        }
      }
    }

    lemma CutShort(first: Link, url: Link, items: seq<Task>, pages: nat, had: nat, left: nat, maxPages: nat)
      ensures OnTheWay(first, url, items, pages, had, left) && (pages == maxPages <= had || (left == 0 && pages <= maxPages))
              ==> Fetched(first, Ok((items, false)), had, maxPages)
    {
      if OnTheWay(first, url, items, pages, had, left) && first.Next? && HasPage(mailbox, first.list, first.page) {
        var all := mailbox[first.list];
        assert all[first.page..][..pages] == all[first.page..first.page + pages];
      }
    }

    /** Continue from a nextLink already in hand, after the same check. */
    method ContinueCollection(ghost owner: string, next: Link, budget: Budget)
      returns (r: Result<(seq<Task>, bool), AppError>, ghost walk: Log)
      requires budget.Valid() && Follows(log, owner, next)
      modifies this, budget`requestsLeft, budget`requestsUsed
      ensures budget.Valid() && old(budget.requestsUsed) <= budget.requestsUsed && time >= old(time)
      ensures budget.requestsLeft + budget.requestsUsed == old(budget.requestsLeft + budget.requestsUsed)
      ensures log == old(log).Then(walk)
      ensures next.OffOriginLink? ==> r == Err(OffOrigin) && walk == Silence
      ensures !next.OffOriginLink? ==> Tells(walk, owner, r)
      ensures r.Ok? && !r.value.1 ==>
                walk.Size() >= budget.maxPages || time >= budget.deadline || budget.requestsLeft == 0
      ensures calm ==> old(calm) && r.Ok? && next.Next? && Fetched(next, r, old(budget.requestsLeft), budget.maxPages)
    {
      if next.OffOriginLink? {
        calm := false;
        return Err(OffOrigin), Silence;
      }
      r, walk := GetCollection(owner, next, budget);
    }
  }
}
