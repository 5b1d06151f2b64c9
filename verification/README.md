# Verification of the To Do server's shared state

A Dafny model of the hard parts of a Microsoft To Do MCP server, with proofs. Each
module follows one source file or one protocol. Code that changes things step by
step is a class whose methods are proved against a specification; what the system
promises is then proved about that specification, for every input and every run.

- `TokenStore`, `Grants`, `TokenProvider`: any number of processes share one
  `token.json`. The file lock covers single loads, saves and deletes; the network
  redeem runs with no lock held. `TokenStore` proves the compare-and-swap and the
  compare-and-delete over every interleaving of locked sections; its class records
  those sections and every look at the path, so the theorems about runs are theorems
  about the object. `TokenProvider` runs on that object, with any other processes
  interfering between its own sections.
- `Cache`, `Truncation`, `Coherence`: the task cache with its eviction, and the rule
  that keeps a slow reader from storing what a mutation has overtaken. `Coherence` is
  a state machine over that rule. The cache keeps its own history as a run of that
  machine: every reading of a generation, every fetch begun, every store and every drop,
  its own server's and other callers'. `Cache.Cache.Tracked` says that the run leaves
  exactly the entries and the generation the cache has, and every method of `Sync` and
  `Writes` keeps it, so the theorems about runs are theorems about `cache.tasks`
  (`Cache.EntryIsCoherent`).
- `Exchanges`, `Paging`, `SyncCoverage`, `Priority`, `SyncAccount`, `Sync`: the bounded
  sync. Graph may answer anything; other callers may change the cache whenever it is
  not locked. The graph client logs every exchange, and the server every look at the
  cache for fresh entries; `SyncAccount` says what a call may hold and claim, given
  those two logs. A list is stored under a generation that was read, for that list, before
  the first exchange that brought its tasks began; other callers act while an answer is
  under way. A ghost flag `calm` says of a run that every answer was the mailbox's
  own at the price of one request, that nothing expired or was evicted, and that nobody
  interfered: convergence is promised for calm runs, accounting for all runs.
- `Transport`, `Retry`, `Permits`, `Batch`: one Graph call with its budget, deadline and
  retry ladder; the concurrency ceiling; and `$batch` with its throttled follow-ups. A
  client's history holds its clock readings, the tokens it asked for, the permits it
  waited for, its calls with their URL and body, its re-reads of the token and its sleeps;
  `Retry.NextStage` is the order they must come in, and where it stands at the end says
  what a send may answer.
- `Bearer`: processes that settle one generated secret at one path.
- `Writes`, `Checklist`: the write tools, which must account for every item, and for
  all that the client did for it: to which list and task each call went, which lists were
  dropped after it, and, for a checklist, which item each operation acted on.
- `Text`, `Base64`, `Percent`: codecs that must invert each other.
- `Cursors`, `Render`, `Search`: search paging under a shrinking response cap.

Histories are ghost fields, each written by one kind of primitive alone:
`TokenStore.Store.acts` by the locked sections and `sights` by `Look`,
`TokenProvider.Clock.readings` by `Now`, `Retry.Client.trace` by `Now`, `AccessToken`,
`AcquirePermit`, `TransportSend`, `Invalidate` and `Sleep`, `Batch.BatchClient.history` by
`PostBatch`, `Remaining` and `Nap`, `Paging.Graph.log` by `BatchGet` and `SendGet`,
`Sync.Server.looks` by the two methods that look under the lock and `warmed` by `Warm`, `Cache.Cache.acts` and
`world` by the cache's own methods and `Note`, `Cache.Cache.readAt` by `Sync.Server.Capture`,
`Writes.Tools.drops` by `InvalidateAfter`, `Checklist.Editor.log` by `Land`.

## What holds only under a condition

- The swap needs `obtained_at` to increase in landing order. The test is strict, so
  a login in the same microsecond as a refresh's base is overwritten
  (`TokenStore.SameInstantLoginIsLost`). With no assumption on stamps the exact guard of
  a refresh, over any run between its load and its save, is
  `TokenStore.RefreshWritesIff`; with increasing stamps,
  `TokenStore.RefreshWritesIffNothingLanded`.
- A multi-page list re-reads the generation before its later pages
  (`src/server.rs:578`), so its first page may predate an invalidation and still be
  stored (`Coherence.StaleContinuation`). `Coherence.ContinuationIsCoherentIff` gives
  the exact condition, `Coherence.ContinuationUnderSameGeneration` the one a caller
  could test.
- `invalidate_after` looks at the final outcome alone: a write that an answer may have
  let through, and that is refused when repeated or left without a token for the
  repeat, keeps its list in the cache. `Writes.KeptAlthoughLandedIff` says exactly which
  writes; `Writes.RepeatedThenRefused` and `Writes.RepeatedWithoutToken` are two.
- "Nothing is sent once the deadline has passed" holds of attempts, not of transport
  calls: the clock is looked at before a token is obtained and a permit waited for, and
  a permit that is free is handed out even when no time is left
  (`src/graph/retry.rs:53-73`, `src/sem.rs:38-45`). `Retry.LateCall` is a call that
  begins late. In every run of a send or of a write tool only the very last transport
  call can (`Transport.OnlyTheLastIsLate`), and one does exactly if that one does
  (`Transport.LateIffTheLastIs`).
- A wait of no length at all (`Retry-After: 0`) may be slept after the deadline, since
  it does not exceed what remains of it. Of every longer sleep it is proved that it
  could end by the deadline when it was begun.
- `stopped_because` names the reason the sync stopped for, except after the fallback
  from `$batch`: a list that was cut short there, by whatever, is put down to the
  request budget (`src/server.rs:92-95`, `src/server.rs:541-545`). `Sync.ReasonReported`
  says when the two agree.

## Model

| member | source | states |
|---|---|---|
| TokenStore.RefreshReplacesWhatItRedeemed | src/auth/store.rs:206-252 | In every interleaving whose stamps increase as they land, each refresh write replaces exactly the file it redeemed and records its `obtained_at` in `rotated_from`; a login is never overwritten by a refresh begun on an older file |
| TokenStore.DeadDeleteRemovesItsBase | src/auth/store.rs:303-327 | With distinct stamps a dead-token delete removes only the file its failing redeem started from |
| TokenStore.AbsentUntilLogin | src/auth/store.rs:214-222 | With no assumption on stamps, an absent file stays absent in every run without a login |
| TokenStore.SignOutSticks | src/auth/store.rs:254-291 | A sign-out, or a dead-token delete that deleted, is undone by no run of refreshers |
| TokenStore.RefreshWritesIff | src/auth/store.rs:206-252 | Whatever other processes did since its load, and whatever the stamps, a refresh's own file is written exactly if the path still has a readable file that is not strictly newer than the one loaded |
| TokenStore.RefreshWritesIffNothingLanded | src/auth/store.rs:206-252 | With increasing stamps: exactly if no file landed since its load and the one loaded is still there |
| TokenStore.SameInstantLoginIsLost | src/auth/store.rs:216-222 | A concrete login with its base's own instant is overwritten by the refresh |
| TokenStore.SeenAgainMeansUntouched | src/auth/store.rs:40-50 | Over any run: a file is seen again as it was seen before exactly if it was neither written nor removed at any point in between |
| TokenStore.SeenOtherwise | src/auth/store.rs:40-50 | Over any run: a path that looks different from what was seen there once never looks so again |
| TokenStore.Store.LoadFile | src/auth/store.rs:151-186 | Absent, corrupt and future-schema files are told apart; a file read becomes this process's base |
| TokenStore.Store.SaveAtomic | src/auth/store.rs:206-252 | The disk and the answer after a save are those the compare-and-swap decides, in one recorded locked section |
| TokenStore.Store.Delete | src/auth/store.rs:261-291 | A sign-out leaves nothing, and says whether there was a file |
| TokenStore.Store.DeleteIfUnchanged | src/auth/store.rs:303-327 | The file goes only if its `obtained_at` is the base's; what cannot be read is reported and kept |
| Grants.CapIsTheWeaker | src/auth/mod.rs:360-367 | The cap is the greatest grant within both: it never exceeds the ceiling, and loses nothing else |
| Grants.VettedGrants | src/auth/mod.rs:472-481 | An accepted scope names no organisation-wide permission, reaches no further than the request, and is never empty; exactly the others are refused |
| TokenProvider.BackoffIsRespected | src/auth/mod.rs:679-760 | After a refused or unanswered redeem, no redeem starts before the backoff ends unless an invalidation or a file change came in between |
| TokenProvider.Provider.constructor | src/auth/mod.rs:579-598 | A new provider knows no sign-in |
| TokenProvider.Provider.ResetStateForFile | src/auth/mod.rs:642-650 | Everything about the previous sign-in is forgotten together, and the epoch moves |
| TokenProvider.Provider.NoticeTokenFile | src/auth/mod.rs:652-677 | One look at the path; a file this process did not write resets the state, unless the file then loaded is a rotation of this very chain |
| TokenProvider.Provider.Invalidate | src/auth/mod.rs:860-864 | After a 401 the next call goes to the disk |
| TokenProvider.Provider.RefreshLocked | src/auth/mod.rs:679-857 | Answers locally while it may, and then nothing changes; else the file on disk at the load decides, with at most two redeems, each settled by its own answer, and a token that was not minted was held before; the backoff is kept |
| TokenProvider.Provider.RefreshFromDisk | src/auth/mod.rs:701-855 | The file on disk at the load, the first thing this process does, decides: unreadable or foreign, an error and no redeem; else it is the one redeemed, whatever other processes do between load, redeem and save |
| TokenProvider.Provider.RedeemTwice | src/auth/mod.rs:703-855 | At most two redeems, the second only of a strictly newer file that overtook the first |
| TokenProvider.Provider.Attempt | src/auth/mod.rs:703-854 | A file of another app or scope is refused; any other is redeemed once, and settled: a token, an adoption, or a failure |
| TokenProvider.Provider.Refused | src/auth/mod.rs:708-760 | A refused redeem is remembered as it is, for the backoff from a reading of the clock made after it; a dead token is deleted exactly if the file is still the one redeemed, and the sign-in forgotten with it; a token left in the cache is handed out only if a reading of the clock after the redeem was before its expiry |
| TokenProvider.Provider.Bury | src/auth/mod.rs:712-733 | A dead token's file goes, and the sign-in with it, exactly if it is still the one redeemed |
| TokenProvider.Provider.Accept | src/auth/mod.rs:762-854 | Refused before anything is saved, or saved and taken exactly if no newer file landed, with the rotated refresh token and granted scope on disk; a superseded token is discarded and the newer file adopted |
| TokenProvider.Provider.AccessToken | src/auth/mod.rs:618-640 | The path is looked at once, before anything else, and if it is not as it was seen last no token held on entry is handed out, unless the file then loaded is a rotation of this chain; with no file on entry and no login since there is no token; what is left of the state answers exactly while it may, without a redeem, else the file on disk decides; a token handed out is paired with a live, non-empty grant, and one from the cache was unexpired by the call's own last reading of the clock |
| Truncation.LongestPrefixIsLongest | src/domain/text.rs:126-135 | The specification: a prefix of whole characters, within the bound, and no longer one is |
| Truncation.BoundaryIsPrefix | src/domain/text.rs:126-135 | A byte offset is a character boundary exactly when some prefix has that many bytes |
| Truncation.TruncateBytes | src/domain/text.rs:126-135 | The longest whole-character prefix within the bound; `truncated` exactly when something was cut |
| Truncation.TruncatedTwice | src/cache.rs:81-92 | Cutting bodies twice changes nothing, and a cut body keeps its original byte total |
| Truncation.TruncateBodies | src/cache.rs:81-92 | Every body of a list, in place, is the cut body |
| Cache.VictimsAreTheShortestPrefix | src/cache.rs:240-246 | The victims are the shortest oldest-fetched prefix that is enough |
| Cache.SoundMeans | src/cache.rs:3-6 | The running total counts the map's tasks, the order lists each key once by last fetch, each index points at a task of its id |
| Cache.SumIsTotal | src/cache.rs:302-307 | An order that lists every key once sums to the whole map |
| Cache.OrderedByFetch | src/cache.rs:60-61 | Later in the order is later fetched, so no key is there twice |
| Cache.IndexCovers | src/cache.rs:224-228 | An index covers exactly its list's ids, each at the last task that has it |
| Cache.Cache.constructor | src/cache.rs:118-131 | An empty cache is sound |
| Cache.Cache.Get | src/cache.rs:31-35 | A task is found exactly if the list has one of that id |
| Cache.Cache.ResetPreservingMailbox | src/cache.rs:144-150 | Everything goes, the generation moves, the label stays |
| Cache.Cache.ResetForNewAccount | src/cache.rs:152-155 | Everything goes, and the label with it |
| Cache.Cache.RemoveList | src/cache.rs:249-254 | One entry goes; the subtraction never saturates |
| Cache.Cache.PutList | src/cache.rs:218-247 | The entry is stored cut and last in order, and the victims go; then the total fits or only this list is left; in the cache's history it is one store of this fill, which leaves a run if the fill may store |
| Cache.Cache.Replace | src/cache.rs:223-239 | Whatever was stored for the list is replaced |
| Cache.Cache.Evict | src/cache.rs:240-246 | The loop evicts exactly the victims, and never the list just stored |
| Cache.Cache.InvalidateList | src/cache.rs:258-261 | The entry goes and the generation moves |
| Cache.Cache.InvalidateCatalogue | src/cache.rs:263-266 | The catalogue goes and the generation moves |
| Cache.Cache.PutCatalogue | src/cache.rs:174-201 | Another mailbox resets everything; the same one drops only vanished lists, without moving the generation |
| Cache.Cache.DropAll | src/cache.rs:186-196 | Exactly the lists that vanished lose their tasks, in whatever order |
| Cache.Cache.FindTask | src/cache.rs:269-273 | A task of that id in some entry, or no entry has one |
| Cache.EntryIsCoherent | src/server.rs:293-341 | Of every entry of the cache as it is, in every run: its fetch began after everything that dropped its list, unless it was stored under a generation re-read after it had moved; and if this server stored it, it is the first of what Graph answered since the generation was read for it |
| Coherence.EntriesAreCoherent | src/server.rs:293-341 | In every interleaving of fills and mutations, a cached entry was fetched by a read begun after the list's last invalidation, unless stored under a generation re-read after it had moved |
| Coherence.FillsWithoutRereadAreCoherent | src/server.rs:484-545 | Single-list reads, single-page batches and the sequential fallback are coherent outright |
| Coherence.ContinuationIsCoherentIff | src/server.rs:573-594 | With any steps of others before the re-read and during the walk: the walk is stored if and only if no mutation fell into it, and what is stored is coherent if and only if nothing invalidated the list between the batch and the re-read |
| Coherence.ContinuationUnderSameGeneration | src/server.rs:573-594 | If the generation re-read is the batch's, the continuation is coherent |
| Coherence.StaleContinuation | src/server.rs:573-594 | A concrete run that stores a stale entry |
| Retry.BackoffClimbs | src/graph/retry.rs:40-45 | The ladder never goes down, and is flat from the seventh rung |
| Retry.WritesAreNotRepeated | src/graph/retry.rs:17-23 | A POST or PATCH is sent again only after 429, 503, 504 or the one 401 |
| Retry.RepeatableAt | src/graph/retry.rs:74-117 | Every call but the last of a send was one that may be repeated |
| Retry.Budget.ForTool | src/graph/mod.rs:149-155 | As many requests as pages |
| Retry.Budget.ForWrites | src/graph/mod.rs:162-168 | Every mutation's whole ladder and one 401, with the saturation written out |
| Retry.Budget.TakeRequest | src/graph/mod.rs:179-186 | Used and left keep their sum; refused exactly when none is left |
| Retry.Client.Backoff | src/graph/retry.rs:40-45 | The wait is the rung plus at most a quarter |
| Retry.Client.Attempt | src/graph/retry.rs:53-73 | A look at the clock before the deadline, one paid request, a token, a second look, a permit waited for as long as that leaves, and the one transport call under it, in this order; what stops it short is answered as what it is |
| Retry.Client.Wait | src/graph/retry.rs:74-128 | The wait an answer calls for, slept exactly unless it would outlast what remains of the deadline |
| Retry.Client.Answered | src/graph/retry.rs:74-128 | What an answer leads to: an end, the one re-read of the token, or the wait it calls for and another attempt; too long a wait is the only way to give up |
| Retry.Client.Once | src/graph/retry.rs:52-129 | One turn of the loop keeps the history in order, pays for its call, and leads to the end of the send or to another turn |
| Retry.Client.Send | src/graph/retry.rs:49-130 | All that the client did, step by step and in order, is at most max_attempts + 1 calls of this very request and the waits between them, for every sequence of answers, each paid for and each attempt begun before the deadline; it gives up only when it must, waits as it is told, and answers what its last step means; no sleep outlasts the deadline |
| Retry.ThrottledExactly | src/graph/retry.rs:52-129 | Of every send: it ends throttled exactly if the look that opens an attempt came at the deadline or later, or a permit did not come, or the wait that the last answer calls for is longer than what the look after it leaves; and with which number of seconds in each case |
| Retry.EndedExactly | src/graph/retry.rs:52-129 | And every other end: on a final answer exactly if the last thing done is a call, for want of a token exactly if that was the answer to asking for one, for want of a request only right after a look before the deadline |
| Retry.Client.DeleteIt | src/graph/retry.rs:169-176 | The same for a DELETE, where a 404 is not a failure |
| Retry.Client.SendAll | src/graph/mod.rs:157-168 | A budget of every ladder is exhausted by no run of the mutations, which make no more transport calls than it pays for |
| Retry.Client.WritePhase | src/graph/mod.rs:162-168 | So `for_writes(n)` is never exhausted by n mutations, short of u32 saturation |
| Retry.NeededIs | src/graph/mod.rs:162-168 | What n mutations may need is n ladders |
| Retry.LateCall | src/graph/retry.rs:53-73 | A send of one call that begins after the deadline: the token took too long, and the permit was free |
| Transport.OnlyTheLastIsLate | src/graph/retry.rs:52-73 | In a history that keeps the deadline checks, no transport call but the last begins at the deadline or after it |
| Transport.LateIffTheLastIs | src/graph/retry.rs:52-73 | Something is sent late exactly if the very last call is |
| Permits.CeilingHolds | src/sem.rs:38-75 | In every interleaving permits are conserved, calls in flight are the permits out and never more than the capacity, and no thread sleeps or gets a token with one |
| Permits.AllPermitsComeBack | src/sem.rs:68-75 | When every thread has left, every permit is back |
| Permits.Semaphore.AcquireTimeout | src/sem.rs:38-61 | A permit, or nothing once the timeout is over, through spurious wakeups and other threads |
| Permits.Semaphore.Release | src/sem.rs:68-75 | The permit comes back on every way out |
| Batch.FollowUpsWereThrottled | src/graph/batch.rs:72-113 | A follow-up round carries only ids asked for and throttled in the round before, after a wait that covers theirs and fits the deadline |
| Batch.UnansweredIsSilent | src/graph/batch.rs:98-105 | An id no round answered is reported with status 0, never dropped |
| Batch.Collect | src/graph/batch.rs:72-97 | Pairing is by id, for any order, repeats and strangers |
| Batch.FillSilent | src/graph/batch.rs:98-105 | Every id sent has a result |
| Batch.InOrder | src/graph/batch.rs:115 | Results come in the order asked, each once |
| Batch.BatchClient.BatchGet | src/graph/batch.rs:32-117 | All that is posted is at most max_attempts rounds, as many as are called for, and a post that failed; an Ok result holds exactly the ids asked for, once each and in order, with their last answers |
| Batch.BatchClient.OneRound | src/graph/batch.rs:45-114 | Who goes again, and when nobody does |
| Bearer.EveryoneAgrees | src/cli/commands.rs:77-202 | From an absent or blank path, with any crashes, everyone that returns, returns the secret the file holds; at most one generated it; nobody runs out of attempts |
| Bearer.AgreementLasts | src/cli/commands.rs:77-202 | What one process returned, every later return and the file repeat |
| Bearer.LockedReadsAreWhole | src/cli/commands.rs:107-116 | No read under the shared lock meets a bearer half-written |
| Bearer.BearerFile.SettleBearer | src/cli/commands.rs:77-104 | Returns the secret at the path; the refusal after four attempts is unreachable |
| Bearer.BearerFile.ReadBearer | src/cli/commands.rs:107-116 | The bearer, or nothing if the file is blank |
| Bearer.BearerFile.CreateBearer | src/cli/commands.rs:121-145 | Publishes the draft only if the path is still absent |
| Bearer.BearerFile.FillBlankBearer | src/cli/commands.rs:147-161 | A blank file is filled, or whoever did is found out |
| Bearer.BearerFile.FillOpenedBearer | src/cli/commands.rs:163-202 | Fills only the file that is still at the path and still blank |
| Base64.RoundTrip | src/tools/cursor.rs:34-68 | Decoding undoes encoding for all byte strings (sections 3.2 and 5 of RFC 4648) |
| Base64.EncodeBytes | src/tools/cursor.rs:34-51 | The chunk loop computes the encoding |
| Base64.DecodeBytes | src/tools/cursor.rs:53-68 | The bit buffer computes the decoding, within 32 bits |
| Percent.RoundTrip | src/graph/mod.rs:195-206 | Decoding undoes encoding for all byte strings, so for all UTF-8 text |
| Percent.EncodedIsWellFormed | src/graph/mod.rs:195-206 | The output is unreserved characters, `=` and upper-case escapes (sections 2.1 and 2.3 of RFC 3986) |
| Percent.EncodeSegment | src/graph/mod.rs:195-206 | The loop computes the encoding |
| Percent.PercentDecode | src/auth/mod.rs:257-275 | The index loop computes the lenient decoding, malformed tails and plus signs included |
| Text.ParseUndoesEscape | src/domain/text.rs:138-151 | Reading HTML undoes escaping, for every text |
| Text.HexEntities | src/domain/text.rs:85-88 | Every character is read from its number in hexadecimal |
| Text.DecimalEntities | src/domain/text.rs:89-92 | Every character is read from its number in decimal |
| Text.ThereAndBack | src/domain/text.rs:6-151 | `html_to_text(escape_html(s))` is `collapse_whitespace(s)` |
| Text.CollapseKeepsGaps | src/domain/text.rs:100-123 | Every character stays, in order, with the kind of gap before it; the result is tidy |
| Text.CollapsedTwice | src/domain/text.rs:100-123 | Collapsing is idempotent, and fixes exactly the tidy texts |
| Text.EscapedIsClean | src/domain/text.rs:138-151 | Escaped text has no angle bracket, double quote or line break but in a line-break tag |
| Text.TagReads | src/domain/text.rs:25-56 | A tag of any name that is not skipped leaves a line break, a blank or nothing, and reading goes on behind it |
| Text.ElementReads | src/domain/text.rs:25-56 | A block element ends its line, a table row stands on a line of its own, a cell is set off by a blank, any other element leaves its text alone |
| Text.HtmlToText | src/domain/text.rs:6-70 | The index loop computes the parse, then collapses it |
| Text.CollapseWhitespace | src/domain/text.rs:100-123 | The two flags compute the collapse |
| Text.EscapeHtml | src/domain/text.rs:138-151 | The loop computes the escape |
| Text.ReadTag | src/domain/text.rs:12-56 | What a tag leaves, script and style elements skipped as the source skips them |
| Text.ReadCharacter | src/domain/text.rs:57-67 | An entity or a character, and how far it goes |
| Paging.Graph.GetCollection | src/graph/paging.rs:48-76 | The fetches made and no others, each of the first page or of where the last one points; complete exactly if the last page had no nextLink, the tasks of all pages in order, an error exactly if the last exchange showed one, cut short only by page cap, deadline or requests; in a calm run, as many of the mailbox's pages as the budget allows |
| Paging.Graph.ContinueCollection | src/graph/paging.rs:80-87 | The same from a nextLink, refused without a request if off-origin |
| Paging.Graph.OnePage | src/graph/paging.rs:55-74 | One page leads to the end, the next URL, or an error; a foreign nextLink is not followed |
| Exchanges.SubRequestsOfAnswers | src/server.rs:495-510 | A batch is logged with a failed sub-request exactly if one of its responses is missing or not a 2xx |
| Exchanges.OffOriginShows | src/graph/paging.rs:66-70 | A nextLink of another origin is an error that some page showed |
| SyncCoverage.EveryListIsCounted | src/server.rs:345-400 | Complete, partial and missing sum to the total; none is left exactly when every list is complete |
| SyncCoverage.Report | src/server.rs:345-400 | One snapshot a list, from what the call holds; `tasks_seen` is their sum; "complete" exactly if every list is |
| Priority.PrioritisedLists | src/server.rs:404-421 | Every stale list is fetched, each once, by rank and then by name |
| Priority.WhoGoesFirst | src/server.rs:402-421 | The default list goes before every other, a list with an entry before one without, flagged mail after all |
| SyncAccount.HeardOfOne | src/server.rs:493-528 | What Graph answers about one open list changes nothing that is held or owed for any other |
| SyncAccount.KeptIsAccounted | src/server.rs:319-341 | A list kept is complete exactly if it was walked to its end, and then holds every task Graph answered for it, cut; the others stay as they were |
| SyncAccount.PutByIsAccounted | src/server.rs:521-525 | A long list is put by with its first page, and stays to be fetched, once |
| SyncAccount.KeptIsCached | src/cache.rs:218-247 | Storing a list, with nothing evicted, leaves everything done complete in the cache |
| Sync.Server.FreshEntries | src/server.rs:304-314 | Exactly the lists' entries that are fresh by a reading of the clock made in this call, as they are under the lock |
| Sync.OldIsNeverAnswered | src/cache.rs:203-208 | A list with no entry, or one as old as the time to live at the look, is never answered from the cache: what is shown of it came from Graph in this call, complete exactly if it was walked to its end |
| Sync.Server.ListTasks | src/server.rs:271-301 | From the cache, at no request, exactly if one of two looks shows a fresh and complete entry; else fetched, and stored exactly if the generation is still the one read before anything was asked |
| Sync.Server.Post | src/server.rs:483-492 | The generation is read for every list of a batch before the batch goes out, and it is the one their first pages carry, whatever others do while the answer is under way |
| Sync.Server.Keep | src/server.rs:319-341 | Held cut as the cache cuts; stored exactly if the generation, read for this list before its first exchange, has not moved |
| Sync.Server.TakeResponse | src/server.rs:495-527 | A failure is noted, a whole list kept, a long one put by |
| Sync.Server.TakeBatch | src/server.rs:493-528 | The account has heard every response: a list that came whole is done, a failure is noted, the queue of the others stays duplicate-free; what is put by keeps the generation it was read under |
| Sync.Server.Sequential | src/server.rs:529-558 | The fallback reads every list unless something stops it: the deadline, a throttled read, or an error, each as the last exchange shows |
| Sync.Server.SendBatch | src/server.rs:483-568 | One batch of at most twenty; a 4xx is read one list at a time instead, a throttled batch stops the call, any other error stops it and is its failure |
| Sync.Server.FetchFirstPages | src/server.rs:474-569 | Nothing stops it without cause, and with a request for every batch nothing stops a calm one |
| Sync.Server.WhyStopped | src/server.rs:585-593 | The deadline, no request left, or the page cap |
| Sync.Server.Walk | src/server.rs:578-594 | The generation is read again for this list before its further pages are asked for; what the walk answers, and why it was cut short if it was |
| Sync.Server.ReadOne | src/server.rs:536-557 | One list of the fallback is kept with what was read of it, or stops the call with the reason |
| Sync.Server.WalkOn | src/server.rs:573-605 | A long list ends complete at its last page, with its walk's error, or cut short by the deadline, the requests or the page cap; once the call is stopped it is kept as it is, with no request |
| Sync.Server.WalkAll | src/server.rs:573-606 | Every list put by is kept; a calm walk with room for one list finishes at least one |
| Sync.Conclude | src/server.rs:609-621 | A hard failure is an error exactly if no task is held and no list is complete |
| Sync.ReasonReported | src/server.rs:87-95 | The reason reported is the one the call stopped for, unless the call is complete or the fallback cut a list short; then no list is missing |
| Sync.AskedByRank | src/server.rs:402-421 | In every run, whatever Graph answered first of two lists of a call it was asked for first by rank and then by name, so the default list comes before any other and flagged mail after all; nothing at hand is asked for |
| Sync.SnapshotsAreAnswers | src/server.rs:345-400 | A snapshot of a list walked to its end is every page Graph answered in this call, in order and cut; of one at hand, its entry, and nothing was asked for it; of any other, a fresh entry or the first of what Graph answered |
| Sync.Server.SyncLists | src/server.rs:434-622 | The deadline is restored; in every run, at every TTL and whatever was evicted, a list is reported complete exactly if it was fresh and complete at the call's look or was walked to its end in this call; a call that finds everything at hand asks nothing; it stops only for the reason it gives; a calm call on an incomplete catalogue with room strictly adds complete lists; everything it fetched, it fetched after reading the generation it goes by, and in the order of the ranks |
| Sync.Server.OneCall | src/server.rs:217-219 | One tool call with its own budget gets strictly further, or is complete |
| Sync.Server.SyncUntilComplete | src/server.rs:111-117 | With ceil(n/20) + P - 1 pages, n calm calls finish n lists of at most P pages |
| Writes.EveryItemLandsOnce | src/tools/write.rs:700-745 | Every index is in exactly one result array, in input order, and none is lost |
| Writes.NotFoundMeansEverywhere | src/tools/write.rs:216-241 | "list_not_found" from a lookup means exactly that every list was at hand or walked to its end in the one sync, and nothing it shows has the id |
| Writes.KeptAlthoughLandedIff | src/tools/write.rs:117-127 | Of every item attempted: it may have been written and yet leaves its list in the cache exactly if its send ended in a refusal below 500 (a DELETE's 404 excepted) or without a token, after an answer in doubt: a 503 or 504, or for a DELETE a 500, a 502 or no answer |
| Writes.RepeatedThenRefused | src/tools/write.rs:117-127 | A PATCH that a 503 may have let through, refused with a 404 when repeated, keeps its list |
| Writes.RepeatedWithoutToken | src/tools/write.rs:117-127 | So does one whose token for the repeat is missing |
| Writes.BudgetIsEnough | src/server.rs:223-225 | Within the configured limits the write budget does not saturate |
| Writes.PhaseAdvances | src/tools/write.rs:787-822 | What one item adds to a write phase |
| Writes.Tools.ResolveTargets | src/tools/write.rs:173-248 | Every slot is filled, by the argument, by an entry that holds the id at the call's one look, or by the one sync; with every id placed Graph is not asked; "internal" is unreachable |
| Writes.Tools.TargetIn | src/tools/write.rs:183-195 | What is seen of a task is there exactly if its list's entry is fresh and holds it; its title, if any entry holds it |
| Writes.Tools.PlaceOne | src/tools/write.rs:196-207 | The list argument, else a listed entry that holds the id; left for the sync only if no entry of these lists holds it, or one of some other list does |
| Writes.Tools.FillAll | src/tools/write.rs:212-243 | Every slot left is filled by what the one sync says |
| Writes.Tools.InvalidateAfter | src/tools/write.rs:117-127 | A success or an unknown outcome leaves no entry for the list, and is the one thing noted as a drop of it |
| Writes.Tools.PatchOne | src/tools/write.rs:797-820 | Late after one look at the clock, or one send to this task of this list begun before the deadline, placed by how it ended; then its list is dropped if it has to be |
| Writes.Tools.DeleteOne | src/tools/write.rs:876-898 | The same for a DELETE, where a task gone already is a success |
| Writes.Tools.CompleteOne | src/tools/write.rs:787-821 | Decided from a fresh view without a request, or attempted at the task's own URL after its own look at the clock before the deadline, or late; whatever may have changed the list drops it, but for the writes named above |
| Writes.Tools.RemoveOne | src/tools/write.rs:862-899 | Flagged mail is refused with no request; a task gone already is not a failure |
| Writes.Tools.UpdateOne | src/tools/write.rs:700-744 | Unresolved, late, sent or rejected |
| Writes.Tools.CompleteTasks | src/tools/write.rs:750-823 | Every index lands once, where its send ended; every call for an item goes to that task in the list it was placed in, with this body, and after the item's last call that list is dropped exactly if it has to be; every attempt begins before the deadline, and no transport call but the very last begins at it or later; all that the client did is these items' sends, all that Graph was read for is the one sync; no item fails for want of budget; a refused call does nothing at all |
| Writes.Tools.DeleteTasks | src/tools/write.rs:827-904 | The same, and nothing at all without confirmation |
| Writes.Tools.UpdateTasks | src/tools/write.rs:497-746 | The same, each item with its own list and its own fields |
| Checklist.FindMeans | src/tools/write.rs:1012-1027 | The item of that id, or the only one of that name; both refusals exactly |
| Checklist.NothingIsLost | src/tools/write.rs:1002-1008 | Of each kind, the operations asked for are the successes, refusals and failures together |
| Checklist.AgreeRemoved | src/tools/write.rs:1036-1045 | Removing the same item on both sides keeps them equal |
| Checklist.AgreeReplaced | src/tools/write.rs:1070-1077 | So does replacing it by what the server answered |
| Checklist.AgreeAdded | src/tools/write.rs:1141-1145 | So does adding a new one |
| Checklist.Editor.RemoveOne | src/tools/write.rs:1029-1055 | Refused with nothing done, late after one look at the clock, or tried before the deadline at the URL of the item that was found; that item goes from the copy exactly if the server let it go |
| Checklist.Editor.RenameOne | src/tools/write.rs:1056-1087 | The same for a rename |
| Checklist.Editor.SetOne | src/tools/write.rs:1088-1125 | The same for a check; an item that is so already needs no request |
| Checklist.Editor.AddOne | src/tools/write.rs:1126-1153 | The same for a new item; a blank name is refused |
| Checklist.Editor.Manage | src/tools/write.rs:955-1162 | Every operation is made in order, lands once, and finds the copy as the one before left it: it acts on the item its key names on that copy, at that item's URL and with that body, or is refused for the reason that copy gives, and changes no other item; the list is dropped exactly if something was tried; no transport call but the last begins at the deadline or later; with no trouble the answer's checklist is the server's after every prefix |
| Checklist.RefusedExactly | src/tools/write.rs:1012-1045 | An operation that names an item is refused exactly if no item of the copy it found has that id and none, or more than one, has that name |
| Checklist.ActsOnTheNamed | src/tools/write.rs:1012-1045 | Else it acts on the item of that id, or the only one of that name: every call goes to that item's URL, and every other item stays |
| Cursors.CursorRoundTrip | src/tools/cursor.rs:70-78 | A cursor decodes to itself |
| Cursors.IssuedCursorIsAccepted | src/tools/cursor.rs:100-124 | Accepted exactly by the same account, within 900 seconds, over the same generation and filters |
| Render.Ladder | src/tools/render.rs:185-200 | What is settled on is within the cap as it is measured, before `truncation` is inserted; what fails is not |
| Render.Finish | src/tools/render.rs:176-219 | The loop finds the first rung that fits, and names its steps |
| Render.FirstThatFits | src/tools/render.rs:185-200 | What is delivered is the first rung that fits, so a result that fits as it is is delivered as it is |
| Search.FiltersReproduce | src/tools/read.rs:387-399 | The restored filters parse to the same search under any limit, and restore themselves |
| Search.CursorContinues | src/tools/read.rs:355-419 | A cursor passed alone reproduces its own hash and goes on at its offset |
| Search.DefaultSearch | src/tools/read.rs:221-283 | With no arguments: open tasks of any due date and any list, earliest due first, fifty at a time |
| Search.FittingPageIsDelivered | src/tools/read.rs:463-524 | A page that fits is delivered unshrunk: the matched tasks from the offset on, as many as the limit, with their previews |
| Search.LadderReachesOneTask | src/tools/render.rs:187-200 | For a limit of at most 200, eight steps fail only if a page of at most one task without previews is too large |
| Search.EveryTaskOnce | src/tools/read.rs:463-524 | Following the cursors yields every matched task once and in order, even when pages are halved |
| Search.CursorIsNeverRefused | src/tools/read.rs:413-419 | Anywhere on the way the cursor is accepted and brings the next page |
| Search.TodoSearchTasks | src/tools/read.rs:351-525 | The tool computes the reply those results are about |

## Left out

- Search.TodoSearchTasks: the fetch before the search is a parameter, the sorted matches of a filter; an error there, and midnight between two pages, are not modelled.
- Search.EveryTaskOnce: argument names are a datatype with a constructor for any other name; dates, time zones, folding, sorting and FNV-1a are arbitrary functions; the JSON of a cursor is any encoding that decodes.
- Render.Ladder: a result is measured before its `truncation` note is inserted, as in the source, so what is delivered may exceed the cap by that note.
- Render.Finish: the size of a rendered result is an arbitrary function of it.
- TokenStore.Store.SaveAtomic: a refresh always passes the base it loaded, as its one caller does; lock, write and rename errors are assumed not to occur; the temporary file and fsync are left out.
- TokenStore.SeenAgainMeansUntouched: modification time, length and inode are one stamp, unique per write.
- TokenProvider.Provider.NoticeTokenFile: an epoch change is not claimed to mean another sign-in: a file written by a refresh of the same scope is taken for the same chain, and a login between this check and the load is absorbed.
- Grants.VettedGrants: scopes are carried as their text and their already normalised short names.
- Bearer.EveryoneAgrees: writing the secret is one step with respect to crashes; a waiting `flock` is modelled by running its holders until they let go; permissions and clean-up of drafts are left out.
- Retry.Client.Send: jitter is any value up to a quarter of the rung; parsing of `Retry-After` dates, the one-shot retry of a GET without its time-zone preference, and statistics are left out.
- Permits.Semaphore.AcquireTimeout: poisoning of the mutex is left out.
- Percent.PercentDecode: text is its bytes; the final lossy UTF-8 conversion is the identity on UTF-8.
- Text.ReadTag: what follows a script or style element is read as a tag, as in the source; nothing more is promised for those elements.
- Paging.Graph.SendGet: one fetch is one entry of the log and any number of paid requests; its calls and waits are those of `Retry.Client.Send`.
- Sync.Server.SyncLists: ids in one catalogue are taken to be distinct, as Graph's are; unparsable tasks, lock poisoning, banners and hints are left out.
- Cache.EntryIsCoherent: a store by another caller whose beginning was not followed is taken to have begun just before it; of those it is not said what they store.
- Sync.Server.Sequential: a task list that does not parse is one of the arbitrary errors.
- Writes.Tools.ResolveTargets: name resolution is an arbitrary function, after the exact id.
- Writes.Tools.UpdateTasks: the patch is the text of its body; a 404 keeps its status here and is renamed in the source.
- Checklist.Editor.Manage: the first read of the checklist and the write budget are parameters. Agreement assumes only that Graph stores what it answers; that it stores the very change asked for is a flag of its own.
- Create batches: the loop is that of the update tool with a POST.
- HTTP, TLS, `ureq`, the MCP envelope, `tiny_http`, signals and the drain: I/O.
- Filtering, sorting, list-name resolution, recurrence shapes, agenda buckets, configuration and schemas: single branches or tables.
- The device-code login, the AADSTS table, log hygiene and the inbound guards.
