/**
 * One process's token provider: a cached access token, the grant it carries,
 * a failure backoff, and the refresh that redeems `token.json` while other
 * processes go on loading, saving and deleting it.
 */
module TokenProvider {
  import opened Wrappers
  import opened TokenStore
  import opened Grants

  // Microseconds.
  const REFRESH_SKEW: int := 300_000_000
  const REFRESH_FAILURE_BACKOFF: int := 30_000_000
  const KEPT_CHANGING := "token.json kept changing underneath the refresh; try again"
  const EPOCHS: nat := 0x1_0000_0000_0000_0000

  datatype Cached = Cached(token: string, expiresAt: int)

  datatype RefreshFailure = RefreshFailure(until: int, error: AuthError)

  datatype TokenSuccess = TokenSuccess(
    accessToken: string, expiresIn: int, scope: Option<Scope>, refreshToken: Option<string>)

  /** What the provider's mutex guards. */
  datatype State = State(
    cached: Option<Cached>,
    initialGrant: Option<Grant>,
    liveScope: Option<Scope>,
    liveGrant: Option<Grant>,
    obtainedAt: Option<Stamp>,
    refreshes: nat,
    lastFailure: Option<RefreshFailure>,
    fileSeen: FileSeen,
    epoch: nat)
  {
    /** What every reachable state satisfies, under a configured scope. */
    ghost predicate Sound(requested: Scope) {
      && (liveScope.Some? <==> liveGrant.Some?)
      && (liveGrant.Some? <==> obtainedAt.Some?)
      && (cached.Some? ==> liveGrant.Some? && initialGrant.Some? && fileSeen.SeenPresent?)
      && (liveGrant.Some? ==> liveGrant.value != NoGrant && liveGrant.value.Rank() <= GrantFromScope(requested).Rank())
      && epoch < EPOCHS
    }

    predicate Unexpired(now: int) {
      cached.Some? && now < cached.value.expiresAt
    }

    /** What a call answers without asking Microsoft: a token well before expiry,
        or, while backing off, whatever token is left or the failure itself. */
    predicate AnsweredLocally(now: int) {
      || Unexpired(now + REFRESH_SKEW)
      || (lastFailure.Some? && now < lastFailure.value.until)
    }

    /** Everything about the previous sign-in forgotten. */
    function ResetForFile(seen: FileSeen): State {
      State(None, initialGrant, None, None, None, refreshes, None, seen, Wrapped(epoch))
    }
  }

  datatype FileChange = SameFile | Rotated | Replaced

  /** What a provider did, in order: the history its backoff promise is about. */
  datatype Event =
    | Redeemed(startedAt: int, base: TokenFile, outcome: Result<TokenSuccess, AuthError>)
    | Failed(until: int)
    | Cleared

  /** Where a returned token came from. */
  datatype Provenance =
    | FromCache(expiresAt: int, testedAt: int)
    | Minted(base: TokenFile)
    | NoToken

  /** `u64::wrapping_add(1)`. */
  function Wrapped(epoch: nat): nat {
    if epoch + 1 == EPOCHS then 0 else epoch + 1
  }

  class Clock {
    var time: int
    /** Every reading there was, in order. */
    ghost var readings: seq<int>

    /** The clock never runs backwards. */
    method Pass()
      modifies this`time
      ensures time >= old(time)
    {
      var elapsed: int :| elapsed >= 0;
      time := time + elapsed;
    }

    method Now() returns (t: int)
      modifies this
      ensures t == time && time >= old(time) && readings == old(readings) + [t]
    {
      Pass();
      readings := readings + [time];
      t := time;
    }
  }

  /** A token out of the cache was tested by the last reading of the clock, one made
      after these. */
  ghost predicate Tested(how: Provenance, before: seq<int>, readings: seq<int>) {
    how.FromCache? ==> before < readings && readings[|readings| - 1] == how.testedAt
  }

  /** The latest `until` that still binds: failures since the last clearing. */
  function Bound(trace: seq<Event>): Option<int> {
    if trace == [] then None else
    var rest := Bound(trace[..|trace| - 1]);
    match trace[|trace| - 1]
    case Failed(until) => if rest.Some? && rest.value >= until then rest else Some(until)
    case Cleared => None
    case Redeemed(_, _, _) => rest
  }

  predicate NotBefore(bound: Option<int>, t: int) {
    bound.Some? ==> bound.value <= t
  }

  /** Every redeem started no earlier than the bound it found. */
  predicate OnTime(trace: seq<Event>) {
    trace != [] ==>
      && OnTime(trace[..|trace| - 1])
      && (trace[|trace| - 1].Redeemed? ==>
            NotBefore(Bound(trace[..|trace| - 1]), trace[|trace| - 1].startedAt))
  }

  lemma Append(trace: seq<Event>, e: Event)
    ensures Bound(trace + [e]) ==
              (match e
               case Failed(until) => if Bound(trace).Some? && Bound(trace).value >= until then Bound(trace) else Some(until)
               case Cleared => None
               case Redeemed(_, _, _) => Bound(trace))
    ensures OnTime(trace + [e]) <==> OnTime(trace) && (e.Redeemed? ==> NotBefore(Bound(trace), e.startedAt))
    ensures Redeems(trace + [e]) == Redeems(trace) + if e.Redeemed? then [e] else []
  {
    assert (trace + [e])[..|trace|] == trace;
  }

  /** The backoff promise over a history, and the state that carries it forward:
      a failure that still binds is in `last`, or already past. */
  ghost predicate Kept(trace: seq<Event>, last: Option<RefreshFailure>, now: int) {
    && OnTime(trace)
    && (NotBefore(Bound(trace), now) || (last.Some? && NotBefore(Bound(trace), last.value.until)))
  }

  lemma KeptAfter(trace: seq<Event>, last: Option<RefreshFailure>, now: int, e: Event, next: Option<RefreshFailure>, later: int)
    requires Kept(trace, last, now) && now <= later
    requires e.Redeemed? ==> (last.Some? ==> last.value.until <= e.startedAt) && now <= e.startedAt && next == last
    requires e.Failed? ==> next.Some? && next.value.until == e.until && later <= e.until && (last.Some? ==> last.value.until <= later)
    ensures Kept(trace + [e], next, later)
    ensures Redeems(trace + [e]) == Redeems(trace) + if e.Redeemed? then [e] else []
  {
    Append(trace, e);
  }

  function Redeems(trace: seq<Event>): seq<Event> {
    if trace == [] then []
    else Redeems(trace[..|trace| - 1]) + if trace[|trace| - 1].Redeemed? then [trace[|trace| - 1]] else []
  }

  ghost predicate ClearedBetween(trace: seq<Event>, i: int, j: int)
    requires 0 <= i < j <= |trace|
  {
    exists k :: i < k < j && trace[k].Cleared?
  }

  lemma {:induction false} BoundCovers(trace: seq<Event>, i: int)
    requires 0 <= i < |trace| && trace[i].Failed? && !ClearedBetween(trace, i, |trace|)
    ensures Bound(trace).Some? && Bound(trace).value >= trace[i].until
  {
    var last := |trace| - 1;
    if i < last {
      assert !trace[last].Cleared?;
      var rest := trace[..last];
      assert forall k | i < k < last :: rest[k] == trace[k];
      BoundCovers(rest, i);
    }
  }

  /** What `OnTime` means: after any failure no redeem starts before its `until`,
      unless something cleared the failure in between. */
  lemma {:induction false} BackoffIsRespected(trace: seq<Event>)
    requires OnTime(trace)
    ensures forall i, j | 0 <= i < j < |trace| && trace[i].Failed? && trace[j].Redeemed? ::
              trace[j].startedAt >= trace[i].until || ClearedBetween(trace, i, j)
  {
    if trace != [] {
      var last := |trace| - 1;
      var rest := trace[..last];
      BackoffIsRespected(rest);
      forall i, j | 0 <= i < j < |trace| && trace[i].Failed? && trace[j].Redeemed?
        ensures trace[j].startedAt >= trace[i].until || ClearedBetween(trace, i, j)
      {
        if j == last {
          if !ClearedBetween(trace, i, last) {
            assert forall k | i < k < last :: rest[k] == trace[k];
            BoundCovers(rest, i);
          }
        } else {
          assert rest[i] == trace[i] && rest[j] == trace[j];
          if ClearedBetween(rest, i, j) {
            var k :| i < k < j && rest[k].Cleared?;
            assert trace[k].Cleared?;
          }
        }
      }
    }
  }

  class Provider {
    const pid: Pid
    const clientId: string
    const requestedScope: Scope
    const store: Store
    const clock: Clock

    var st: State

    ghost var trace: seq<Event>
    ghost var lastReading: int

    ghost predicate Valid()
      reads this
    {
      st.Sound(requestedScope) && Kept(trace, st.lastFailure, lastReading)
    }

    ghost predicate Ready()
      reads this, store, clock
    {
      && Valid() && store.Valid() && lastReading <= clock.time
      && (st.fileSeen.SeenPresent? ==> st.fileSeen.version <= store.state.version)
    }

    constructor (pid: Pid, clientId: string, requestedScope: Scope, store: Store, clock: Clock)
      requires store.Valid()
      ensures Ready() && this.store == store && this.clock == clock && this.pid == pid
      ensures st.cached.None? && st.liveScope.None? && st.initialGrant.None? && trace == []
    {
      this.pid, this.clientId, this.requestedScope := pid, clientId, requestedScope;
      this.store, this.clock := store, clock;
      st := State(None, None, None, None, None, 0, None, Unknown, 0);
      trace, lastReading := [], clock.time;
    }

    /** Any other processes, any number of locked sections. */
    method Others()
      requires store.Valid()
      modifies store`state, store`acts
      ensures store.Valid() && store.state.version >= old(store.state.version)
      ensures old(store.acts) <= store.acts
      ensures forall i | |old(store.acts)| <= i < |store.acts| :: store.acts[i].pid != pid
      ensures pid in old(store.state.held) ==>
                pid in store.state.held && store.state.held[pid] == old(store.state.held)[pid]
    {
      var n: int :| n >= 0;
      for i := 0 to n
        invariant store.Valid() && old(store.acts) <= store.acts && store.state.version >= old(store.state.version)
        invariant forall i | |old(store.acts)| <= i < |store.acts| :: store.acts[i].pid != pid
        invariant pid in old(store.state.held) ==>
                    pid in store.state.held && store.state.held[pid] == old(store.state.held)[pid]
      {
        var a: Action := *;
        if a.pid != pid {
          store.Apply(a);
        }
      }
    }

    /** Microsoft's token endpoint: any answer at all, after any time, to the refresh token
        of a file. */
    method RedeemRefreshToken(base: TokenFile, now: int) returns (r: Result<TokenSuccess, AuthError>)
      requires Valid() && lastReading == now && (st.lastFailure.Some? ==> now >= st.lastFailure.value.until)
      modifies this`trace, clock`time
      ensures Valid() && clock.time >= old(clock.time)
      ensures r.Err? && r.error.Entra? ==> !r.error.tokenDeleted
      ensures trace == old(trace) + [Redeemed(now, base, r)]
      ensures Redeems(trace) == Redeems(old(trace)) + [Redeemed(now, base, r)]
    {
      clock.Pass();
      r := *;
      if r.Err? && r.error.Entra? {
        r := Err(r.error.(tokenDeleted := false));
      }
      KeptAfter(trace, st.lastFailure, lastReading, Redeemed(now, base, r), st.lastFailure, lastReading);
      trace := trace + [Redeemed(now, base, r)];
    }

    method ResetStateForFile(seen: FileSeen)
      requires Valid()
      modifies this`st, this`trace
      ensures Valid() && st == old(st).ResetForFile(seen)
      ensures trace == old(trace) + [Cleared] && Redeems(trace) == Redeems(old(trace))
    {
      KeptAfter(trace, st.lastFailure, lastReading, Cleared, None, lastReading);
      trace := trace + [Cleared];
      st := st.(epoch := Wrapped(st.epoch), cached := None, liveScope := None, liveGrant := None,
                obtainedAt := None, lastFailure := None, fileSeen := seen);
    }

    /** A rotation of this very chain, not another sign-in. */
    predicate SameChain(was: State, file: TokenFile) {
      && file.obtainedBy == FromRefresh
      && file.rotatedFrom == was.obtainedAt
      && file.clientId == clientId
      && file.requestedScope == requestedScope
      && Some(file.grantedScope) == was.liveScope
    }

    /** What a look at the path leaves of the state: `loaded` is what was read then, if
        anything was. */
    function Noticed(was: State, seen: FileSeen, loaded: Option<Result<TokenFile, StoreError>>): State {
      if was.fileSeen == Unknown then was.(fileSeen := seen)
      else if was.fileSeen == seen then was
      else if loaded.Some? && loaded.value.Ok? && SameChain(was, loaded.value.value) then
        was.(obtainedAt := Some(loaded.value.value.obtainedAt), lastFailure := None, fileSeen := seen)
      else was.ResetForFile(seen)
    }

    /** One look at the path, and at most one load, since the store was so and so long. */
    ghost predicate Glanced(sight: Sight, load: Option<nat>, was: State, begun: nat)
      reads this, store
    {
      && sight.pid == pid && begun <= sight.at <= |store.acts| && sight.seen == Seen(store.Past(sight.at))
      && (load.Some? <==> was.fileSeen != Unknown && was.fileSeen != sight.seen && sight.seen != SeenAbsent)
      && (load.Some? ==> sight.at <= load.value < |store.acts| && store.acts[load.value] == Load(pid))
    }

    /** What was read by a load of this process. */
    ghost function LoadedAt(load: Option<nat>): Option<Result<TokenFile, StoreError>>
      requires load.Some? ==> load.value <= |store.acts|
      reads this, store
    {
      if load.Some? then Some(Read(store.Past(load.value).disk)) else None
    }

    /** Look at the path; a file this process did not write means another sign-in,
        unless it is a rotation of this chain. */
    method NoticeTokenFile() returns (change: FileChange, ghost sight: Sight, ghost load: Option<nat>)
      requires Ready()
      modifies this`st, this`trace, store
      ensures Ready() && old(store.acts) <= store.acts
      ensures store.sights == old(store.sights) + [sight] && Glanced(sight, load, old(st), |old(store.acts)|)
      ensures st == Noticed(old(st), sight.seen, LoadedAt(load))
      ensures match change
              case SameFile =>
                trace == old(trace) && (old(st).fileSeen == Unknown || old(st).fileSeen == sight.seen)
              case Rotated =>
                && trace == old(trace) + [Cleared]
                && load.Some? && LoadedAt(load).value.Ok? && SameChain(old(st), LoadedAt(load).value.value)
              case Replaced =>
                trace == old(trace) + [Cleared] && st == old(st).ResetForFile(sight.seen)
      ensures Redeems(trace) == Redeems(old(trace))
    {
      Others();
      ghost var acts := store.acts;
      var seen := store.Look(pid);
      sight, load := Sight(pid, |store.acts|, seen), None;
      assert acts[..|acts|] == acts;
      if st.fileSeen == Unknown {
        st := st.(fileSeen := seen);
        return SameFile, sight, load;
      }
      if st.fileSeen == seen {
        return SameFile, sight, load;
      }
      if seen != SeenAbsent {
        Others();
        load := Some(|store.acts|);
        ghost var before := store.acts;
        var loaded := store.LoadFile(pid);
        assert store.acts[..sight.at] == acts && store.acts[..load.value] == before;
        if loaded.Ok? && SameChain(st, loaded.value) {
          KeptAfter(trace, st.lastFailure, lastReading, Cleared, None, lastReading);
          trace := trace + [Cleared];
          st := st.(obtainedAt := Some(loaded.value.obtainedAt), lastFailure := None, fileSeen := seen);
          return Rotated, sight, load;
        }
      }
      ResetStateForFile(seen);
      return Replaced, sight, load;
    }

    /** After a 401 from Graph: the next call re-reads the disk. */
    method Invalidate()
      requires Valid()
      modifies this`st, this`trace
      ensures Valid() && st == old(st).(cached := None, lastFailure := None) && trace == old(trace) + [Cleared]
    {
      KeptAfter(trace, st.lastFailure, lastReading, Cleared, None, lastReading);
      trace := trace + [Cleared];
      st := st.(cached := None, lastFailure := None);
    }

    function CheckFile(f: TokenFile): Option<AuthError> {
      if f.clientId != clientId then Some(WrongApp)
      else if f.requestedScope != requestedScope then Some(ScopeChanged)
      else None
    }

    /** What `refresh_locked` answers from a state without asking Microsoft. */
    ghost predicate AnsweredFrom(was: State, now: int, r: Result<(string, Grant), AuthError>, how: Provenance) {
      if was.Unexpired(now) then
        how == FromCache(was.cached.value.expiresAt, now)
        && r == Ok((was.cached.value.token, GrantOr(was.liveGrant)))
      else was.lastFailure.Some? && r == Err(was.lastFailure.value.error) && how == NoToken
    }

    /** What a load decides: an unreadable or foreign file is an error with no redeem, and
        a usable one is redeemed. */
    ghost predicate Decides(
      found: Result<TokenFile, StoreError>, r: Result<(string, Grant), AuthError>, calls: seq<Event>)
    {
      match found
      case Err(e) => r == Err(FromStore(e)) && calls == []
      case Ok(file) =>
        if CheckFile(file).Some? then r == Err(CheckFile(file).value) && calls == []
        else calls != [] && calls[0].Redeemed? && calls[0].base == file
    }

    /** This process's first step since the store was so long is a load. */
    ghost predicate LoadsFirst(at: nat, begun: nat)
      reads this, store
    {
      && begun <= at < |store.acts| && store.acts[at] == Load(pid)
      && forall i | begun <= i < at :: store.acts[i].pid != pid
    }

    /** A save of this process found a file it could not read, or none. */
    ghost predicate SaveRefused(k: nat, begun: nat, r: Result<(string, Grant), AuthError>)
      reads this, store
    {
      && begun <= k < |store.acts| && store.acts[k].SaveRefreshed? && store.acts[k].pid == pid
      && Read(store.Past(k).disk).Err? && r == Err(FromStore(Read(store.Past(k).disk).error))
    }

    /** What the answer to the last redeem means for the caller: a failure is that failure,
        or leaves the cached token; a token is vetted, and then handed out unless there was
        no file to replace. */
    ghost predicate Settled(call: Event, r: Result<(string, Grant), AuthError>, how: Provenance, begun: nat)
      reads this, store
    {
      call.Redeemed?
      && match call.outcome
         case Err(e) =>
           if Refusal(call) then
             how.FromCache? || r == Err(e) || (e.Entra? && e.deleteToken && r == Err(e.(tokenDeleted := true)))
           else r == Err(e)
         case Ok(success) =>
           match VetGrant(GrantedScope(call.base, success), requestedScope)
           case Err(e) => r == Err(e)
           case Ok(_) => how.Minted? || exists k :: SaveRefused(k, begun, r)
    }

    /** And of the redeems of one call: the last one's, unless each was overtaken. */
    ghost predicate AllSettled(calls: seq<Event>, r: Result<(string, Grant), AuthError>, how: Provenance, begun: nat)
      reads this, store
    {
      calls != [] ==>
        || Settled(calls[|calls| - 1], r, how, begun)
        || (|calls| == 2 && calls[1].Redeemed? && calls[1].outcome.Ok? && r == Err(Transport(KEPT_CHANGING)))
        || (|calls| == 1 && calls[0].Redeemed? && calls[0].outcome.Ok? && exists f :: OvertakenByForeign(f, calls[0].base, r))
    }

    /** The file that overtook a redeem is another app's, or of another scope. */
    ghost predicate OvertakenByForeign(f: TokenFile, base: TokenFile, r: Result<(string, Grant), AuthError>) {
      NewerThan(f, base) && CheckFile(f).Some? && r == Err(CheckFile(f).value)
    }

    lemma SettledSince(
        calls: seq<Event>, r: Result<(string, Grant), AuthError>, how: Provenance, begun: nat, earlier: nat)
      requires AllSettled(calls, r, how, begun) && earlier <= begun
      ensures AllSettled(calls, r, how, earlier)
    {
      if k :| SaveRefused(k, begun, r) {
        assert SaveRefused(k, earlier, r);
      }
    }

    /** `refresh_locked`: `now` was just read, under the state lock. `calls` lists
        the redeems this call made, and `at` is its load. */
    method RefreshLocked(now: int)
      returns (
        r: Result<(string, Grant), AuthError>, ghost how: Provenance, ghost calls: seq<Event>, ghost at: nat)
      requires Ready() && clock.time == now && clock.readings != [] && clock.readings[|clock.readings| - 1] == now
      modifies this, store`state, store`acts, clock
      ensures Ready() && old(store.acts) <= store.acts && old(clock.readings) <= clock.readings
      ensures old(st).initialGrant.Some? ==> st.initialGrant == old(st).initialGrant
      ensures Redeems(trace) == Redeems(old(trace)) + calls
      // Local answers: nothing redeemed, nothing changed.
      ensures old(st).AnsweredLocally(now) ==>
                && store.acts == old(store.acts) && trace == old(trace) && st == old(st) && calls == []
                && AnsweredFrom(st, now, r, how)
      // Otherwise the file on disk decides, and a token comes from a redeem, or from the
      // cache after a failed one.
      ensures !old(st).AnsweredLocally(now) ==>
                LoadsFirst(at, |old(store.acts)|) && Decides(Read(store.Past(at).disk), r, calls)
      ensures !old(st).AnsweredLocally(now) && calls == [] ==> r.Err? && st == old(st)
      ensures FromOld(old(st), r, how)
      // Every token handed out.
      ensures Answers(st, r, how)
      ensures Tested(how, old(clock.readings[..|clock.readings| - 1]), clock.readings)
      // At most two redeems, the second from a strictly newer file; a minted token is the
      // last redeem's; a refusal starts the backoff.
      ensures Redeeming(calls, now, r, how, st, store.state, clock.readings)
      ensures AllSettled(calls, r, how, |old(store.acts)|)
    {
      lastReading := now;
      how, calls, at := NoToken, [], 0;
      if st.cached.Some? && now + REFRESH_SKEW < st.cached.value.expiresAt {
        how := FromCache(st.cached.value.expiresAt, now);
        return Ok((st.cached.value.token, GrantOr(st.liveGrant))), how, calls, at;
      }
      if st.lastFailure.Some? && now < st.lastFailure.value.until {
        if st.cached.Some? && now < st.cached.value.expiresAt {
          how := FromCache(st.cached.value.expiresAt, now);
          return Ok((st.cached.value.token, GrantOr(st.liveGrant))), how, calls, at;
        }
        return Err(st.lastFailure.value.error), how, calls, at;
      }
      r, how, calls, at := RefreshFromDisk(now);
    }

    /** The rest of `refresh_locked`: load, then redeem at most twice. */
    method RefreshFromDisk(now: int)
      returns (
        r: Result<(string, Grant), AuthError>, ghost how: Provenance, ghost calls: seq<Event>, ghost at: nat)
      requires Ready() && lastReading == now
      requires st.lastFailure.Some? ==> now >= st.lastFailure.value.until
      modifies this, store`state, store`acts, clock
      ensures Ready() && old(store.acts) <= store.acts
      ensures old(st).initialGrant.Some? ==> st.initialGrant == old(st).initialGrant
      ensures Redeems(trace) == Redeems(old(trace)) + calls
      ensures Answers(st, r, how) && FromOld(old(st), r, how)
      ensures old(clock.readings) <= clock.readings && Tested(how, old(clock.readings), clock.readings)
      // What this process finds is what is on disk at its load, the first thing it does;
      // and that decides.
      ensures LoadsFirst(at, |old(store.acts)|) && Decides(Read(store.Past(at).disk), r, calls)
      ensures calls == [] ==> st == old(st)
      ensures Redeeming(calls, now, r, how, st, store.state, clock.readings)
      ensures AllSettled(calls, r, how, |old(store.acts)|)
    {
      how, calls := NoToken, [];
      Others();
      at := |store.acts|;
      ghost var before := store.acts;
      var loaded := store.LoadFile(pid);
      assert store.acts[..at] == before;
      if loaded.Err? {
        return Err(FromStore(loaded.error)), how, calls, at;
      }
      ghost var acts := store.acts;
      r, how, calls := RedeemTwice(now, loaded.value);
      assert store.acts[..at] == acts[..at];
      SettledSince(calls, r, how, |acts|, |old(store.acts)|);
    }

    /** The loop: the file loaded, and at most one that overtook its redeem. */
    method RedeemTwice(now: int, loaded: TokenFile)
      returns (r: Result<(string, Grant), AuthError>, ghost how: Provenance, ghost calls: seq<Event>)
      requires Ready() && lastReading == now
      requires pid in store.state.held && store.state.held[pid] == loaded
      requires st.lastFailure.Some? ==> now >= st.lastFailure.value.until
      modifies this, store`state, store`acts, clock
      ensures Ready() && old(store.acts) <= store.acts
      ensures old(clock.readings) <= clock.readings && Tested(how, old(clock.readings), clock.readings)
      ensures old(st).initialGrant.Some? ==> st.initialGrant == old(st).initialGrant
      ensures Redeems(trace) == Redeems(old(trace)) + calls
      ensures Answers(st, r, how) && FromOld(old(st), r, how)
      ensures CheckFile(loaded).Some? ==> r == Err(CheckFile(loaded).value) && calls == [] && st == old(st)
      ensures CheckFile(loaded).None? ==> calls != [] && calls[0].Redeemed? && calls[0].base == loaded
      ensures Redeeming(calls, now, r, how, st, store.state, clock.readings)
      ensures AllSettled(calls, r, how, |old(store.acts)|)
    {
      how, calls := NoToken, [];
      var base := loaded;
      for attempt := 0 to 2
        invariant Ready() && old(store.acts) <= store.acts && lastReading == now
        invariant old(clock.readings) <= clock.readings
        invariant pid in store.state.held && store.state.held[pid] == base
        invariant st == old(st).(epoch := st.epoch) && how == NoToken
        invariant Redeems(trace) == Redeems(old(trace)) + calls
        invariant |calls| == attempt && Overtaken(calls, base)
        invariant attempt == 0 ==> base == loaded && st == old(st)
        invariant attempt > 0 ==> CheckFile(loaded).None? && calls[0].base == loaded
      {
        var adopted;
        ghost var made, acts := [], store.acts;
        adopted, r, how, made := Attempt(now, base);
        OneMoreCall(Redeems(old(trace)), calls, base, made);
        calls := calls + made;
        if adopted.None? {
          if made != [] {
            SettledSince(calls, r, how, |acts|, |old(store.acts)|);
          } else if calls != [] {
            assert OvertakenByForeign(base, calls[0].base, r);
          }
          return;
        }
        base := adopted.value;
      }
      return Err(Transport(KEPT_CHANGING)), how, calls;
    }

    /** One turn of the loop: check the file, redeem it, and settle the answer. */
    method Attempt(now: int, base: TokenFile)
      returns (
        adopted: Option<TokenFile>, r: Result<(string, Grant), AuthError>, ghost how: Provenance,
        ghost made: seq<Event>)
      requires Ready() && lastReading == now
      requires pid in store.state.held && store.state.held[pid] == base
      requires st.lastFailure.Some? ==> now >= st.lastFailure.value.until
      modifies this, store`state, store`acts, clock
      ensures Ready() && old(store.acts) <= store.acts
      ensures old(clock.readings) <= clock.readings && Tested(how, old(clock.readings), clock.readings)
      ensures old(st).initialGrant.Some? ==> st.initialGrant == old(st).initialGrant
      ensures Redeems(trace) == Redeems(old(trace)) + made
      ensures CheckFile(base).Some? ==> made == [] && adopted.None? && r == Err(CheckFile(base).value) && st == old(st)
      ensures CheckFile(base).None? ==> |made| == 1 && made[0].Redeemed? && made[0].base == base
      ensures adopted.Some? ==>
                && |made| == 1 && made[0].outcome.Ok? && NewerThan(adopted.value, base) && how == NoToken
                && pid in store.state.held && store.state.held[pid] == adopted.value
                && st == old(st).(epoch := st.epoch) && lastReading == now
      ensures adopted.None? ==> Answers(st, r, how) && FromOld(old(st), r, how)
      ensures how.Minted? ==> |made| == 1 && MintedBy(made[0], r, how, st, store.state)
      ensures adopted.None? && |made| == 1 ==> Settled(made[0], r, how, |old(store.acts)|)
      ensures |made| == 1 && Refusal(made[0]) ==>
                && Remembers(st, made[0].outcome.error, now, r, clock.readings) && Spent(r, st, clock.readings)
    {
      how, made, adopted := NoToken, [], None;
      var problem := CheckFile(base);
      if problem.Some? {
        return None, Err(problem.value), how, made;
      }
      var outcome := RedeemRefreshToken(base, now);
      Others();
      made := [Redeemed(now, base, outcome)];
      ghost var acts := store.acts;
      assert acts[..|acts|] == acts;
      if outcome.Err? {
        r, how := Refused(now, base, outcome.error);
      } else {
        adopted, r, how := Accept(base, outcome.value);
        assert store.acts != acts ==> store.acts[..|acts|] == acts;
        assert adopted.None? && !how.Minted? && store.acts != acts ==> SaveRefused(|acts|, |old(store.acts)|, r);
      }
    }

    /** The failing half of an attempt. */
    method Refused(now: int, base: TokenFile, error: AuthError)
      returns (r: Result<(string, Grant), AuthError>, ghost how: Provenance)
      requires Ready() && lastReading == now
      requires pid in store.state.held && store.state.held[pid] == base
      requires st.lastFailure.Some? ==> now >= st.lastFailure.value.until
      requires error.Entra? ==> !error.tokenDeleted
      modifies this, store`state, store`acts, clock
      ensures Ready() && old(store.acts) <= store.acts
      ensures old(clock.readings) <= clock.readings && Tested(how, old(clock.readings), clock.readings)
      ensures st.initialGrant == old(st).initialGrant && Redeems(trace) == Redeems(old(trace))
      ensures Answers(st, r, how) && !how.Minted? && FromOld(old(st), r, how)
      ensures error.Entra? || error.Transport? ==>
                Remembers(st, error, now, r, clock.readings) && Spent(r, st, clock.readings)
      ensures !(error.Entra? || error.Transport?) ==> r == Err(error) && st == old(st)
      // A token that is dead for good goes, with the sign-in, if it is still the one
      // redeemed; nothing else is ever deleted.
      ensures error.Entra? && error.deleteToken && Unchanged(old(store.state.disk), base) ==>
                && store.state.disk.Absent? && r == Err(error.(tokenDeleted := true))
                && st.cached.None? && st.epoch == Wrapped(old(st).epoch)
      ensures !(error.Entra? && error.deleteToken && Unchanged(old(store.state.disk), base)) ==>
                && store.state.disk == old(store.state.disk)
                && st == old(st).(lastFailure := st.lastFailure) && (r.Err? ==> r.error == error)
    {
      how := NoToken;
      if !error.Entra? && !error.Transport? {
        return Err(error), how;
      }
      var failure := error;
      if error.Entra? && error.deleteToken {
        failure := Bury(base, error);
      }
      var at := clock.Now();
      RecordFailure(at, failure);
      ghost var k := |clock.readings| - 1;
      r, how := Leftover(failure);
      assert clock.readings[k] == at;
    }

    /** A token that is dead for good: its file goes, and the sign-in with it, if that is
        still the one redeemed. */
    method Bury(base: TokenFile, error: AuthError) returns (failure: AuthError)
      requires Ready() && pid in store.state.held && store.state.held[pid] == base
      requires error.Entra? && error.deleteToken && !error.tokenDeleted
      modifies this`st, this`trace, store`state, store`acts
      ensures Ready() && old(store.acts) <= store.acts && Redeems(trace) == Redeems(old(trace))
      ensures if Unchanged(old(store.state.disk), base) then
                && store.state.disk.Absent? && failure == error.(tokenDeleted := true)
                && st == old(st).ResetForFile(SeenAbsent)
              else failure == error && store.state.disk == old(store.state.disk) && st == old(st)
    {
      failure := error;
      var deleted := store.DeleteIfUnchanged(pid, base);
      if deleted.Ok? && deleted.value.Some? {
        failure := error.(tokenDeleted := true);
        ResetStateForFile(deleted.value.value);
      }
    }

    /** After a failed redeem: a token that is still in the cache, if a look at the clock
        finds it unexpired, or the failure. */
    method Leftover(failure: AuthError) returns (r: Result<(string, Grant), AuthError>, ghost how: Provenance)
      requires Ready()
      modifies clock
      ensures Ready() && old(clock.readings) <= clock.readings && Tested(how, old(clock.readings), clock.readings)
      ensures Answers(st, r, how) && FromOld(st, r, how) && !how.Minted?
      ensures r.Err? ==> r.error == failure
      ensures failure.Entra? && failure.tokenDeleted ==> r.Err?
      ensures !(failure.Entra? && failure.tokenDeleted) ==> Spent(r, st, clock.readings)
    {
      how := NoToken;
      if !(failure.Entra? && failure.tokenDeleted) && st.cached.Some? {
        var t := clock.Now();
        if t < st.cached.value.expiresAt {
          how := FromCache(st.cached.value.expiresAt, t);
          return Ok((st.cached.value.token, GrantOr(st.liveGrant))), how;
        }
      }
      return Err(failure), how;
    }

    method RecordFailure(at: int, failure: AuthError)
      requires Valid() && at >= lastReading
      requires st.lastFailure.Some? ==> st.lastFailure.value.until <= at
      modifies this`st, this`trace, this`lastReading
      ensures Valid() && lastReading == at && trace == old(trace) + [Failed(at + REFRESH_FAILURE_BACKOFF)]
      ensures Redeems(trace) == Redeems(old(trace))
      ensures st == old(st).(lastFailure := Some(RefreshFailure(at + REFRESH_FAILURE_BACKOFF, failure)))
    {
      var failed := RefreshFailure(at + REFRESH_FAILURE_BACKOFF, failure);
      KeptAfter(trace, st.lastFailure, lastReading, Failed(failed.until), Some(failed), at);
      trace := trace + [Failed(failed.until)];
      st, lastReading := st.(lastFailure := Some(failed)), at;
    }

    /** The succeeding half: vet, save, then take the token or adopt the file that
        overtook this redeem. An adopted file is returned; the token is dropped. */
    method Accept(base: TokenFile, success: TokenSuccess)
      returns (adopted: Option<TokenFile>, r: Result<(string, Grant), AuthError>, ghost how: Provenance)
      requires Ready()
      requires pid in store.state.held && store.state.held[pid] == base
      requires st.lastFailure.Some? ==> lastReading >= st.lastFailure.value.until
      modifies this`st, this`lastReading, store`state, store`acts, clock
      ensures Ready() && old(store.acts) <= store.acts && old(clock.readings) <= clock.readings
      ensures old(st).initialGrant.Some? ==> st.initialGrant == old(st).initialGrant
      ensures adopted.Some? ==>
                && NewerThan(adopted.value, base) && how == NoToken
                && pid in store.state.held && store.state.held[pid] == adopted.value
                && st == old(st).(epoch := st.epoch) && lastReading == old(lastReading)
      ensures adopted.None? ==> Answers(st, r, how) && !how.FromCache?
      ensures how.Minted? ==>
                how.base == base && MintedBy(Redeemed(0, base, Ok(success)), r, how, st, store.state)
      // Refused before anything is saved; else what the disk says decides.
      ensures VetGrant(GrantedScope(base, success), requestedScope).Err? ==>
                && r == Err(VetGrant(GrantedScope(base, success), requestedScope).error) && adopted.None?
                && st == old(st) && store.acts == old(store.acts)
      ensures VetGrant(GrantedScope(base, success), requestedScope).Ok? ==>
                |store.acts| == |old(store.acts)| + 1
                && store.acts[|old(store.acts)|].SaveRefreshed? && store.acts[|old(store.acts)|].pid == pid
      ensures VetGrant(GrantedScope(base, success), requestedScope).Ok? ==>
                match Read(old(store.state.disk))
                case Err(e) => r == Err(FromStore(e)) && adopted.None? && st == old(st)
                case Ok(found) =>
                  if NewerThan(found, base) then
                    adopted == Some(found)
                    && st.epoch == (if found.obtainedBy == FromRefresh then old(st).epoch else Wrapped(old(st).epoch))
                  else
                    how == Minted(base)
                    && st.cached == Some(Cached(success.accessToken, lastReading + 1_000_000 * Max(success.expiresIn, 0)))
    {
      how, adopted, r := NoToken, None, Err(NotLoggedIn);
      var granted := GrantedScope(base, success);
      var vetted := VetGrant(granted, requestedScope);
      if vetted.Err? {
        return None, Err(vetted.error), how;
      }
      VettedGrants(granted, requestedScope);
      var at := clock.Now();
      var minted := TokenFile(
        clientId, base.requestedScope, granted, success.refreshToken.GetOr(base.refreshToken),
        Canonical(at), FromRefresh, None);
      var saved := store.SaveAtomic(pid, minted, Some(base), Refresh);
      if saved.Err? {
        return None, Err(FromStore(saved.error)), how;
      }
      match saved.value {
        case Wrote(seen) =>
          var t := clock.Now();
          var cached := Cached(success.accessToken, t + 1_000_000 * Max(success.expiresIn, 0));
          st := State(Some(cached), st.initialGrant.OrElse(Some(vetted.value)), Some(granted), Some(vetted.value),
                      Some(minted.obtainedAt), st.refreshes + 1, None, seen, st.epoch);
          lastReading := t;
          how := Minted(base);
          return None, Ok((success.accessToken, vetted.value)), how;
        case Adopted(disk) =>
          if disk.obtainedBy != FromRefresh {
            st := st.(epoch := Wrapped(st.epoch));
          }
          adopted := Some(disk);
      }
    }

    /** `access_token_with_grant`: the one door Graph calls come through. `sight` is its
        look at the path and `load` the load that called for, `now` its reading of the
        clock, `calls` its redeems and `at` the load before them. */
    method AccessToken()
      returns (
        r: Result<(string, Grant), AuthError>, ghost how: Provenance, ghost sight: Sight, ghost load: Option<nat>,
        ghost now: int, ghost calls: seq<Event>, ghost at: nat)
      requires Ready()
      modifies this, store, clock
      ensures Ready() && old(store.acts) <= store.acts
      ensures old(st).initialGrant.Some? ==> st.initialGrant == old(st).initialGrant
      ensures Answers(st, r, how) && Tested(how, old(clock.readings), clock.readings)
      // It looks at the path once, and forgets the sign-in if the file is another's.
      ensures store.sights == old(store.sights) + [sight] && Glanced(sight, load, old(st), |old(store.acts)|)
      ensures old(clock.readings) < clock.readings && clock.readings[|old(clock.readings)|] == now
      ensures Redeems(trace) == Redeems(old(trace)) + calls
      // What is left of the state answers while it may; else the file on disk decides.
      ensures var was := Noticed(old(st), sight.seen, LoadedAt(load));
              if was.AnsweredLocally(now) then st == was && calls == [] && AnsweredFrom(was, now, r, how)
              else sight.at <= at < |store.acts| && store.acts[at] == Load(pid) && Decides(Read(store.Past(at).disk), r, calls)
      // At most two redeems; one that failed is remembered, and an error only if no token
      // is left that is unexpired.
      ensures Redeeming(calls, now, r, how, st, store.state, clock.readings)
      ensures AllSettled(calls, r, how, |old(store.acts)|)
      // If the path is not as it was seen last, no token held on entry is handed out,
      // unless the file there is a rotation of this chain.
      ensures old(st).fileSeen != Unknown && old(Seen(store.state)) != old(st).fileSeen && how.FromCache? ==>
                && load.Some? && LoadedAt(load).value.Ok? && SameChain(old(st), LoadedAt(load).value.value)
      // With no file on entry, and no login since, there is no token.
      ensures old(store.state).disk.Absent?
              && (forall i | |old(store.acts)| <= i < |store.acts| :: !store.acts[i].SaveLogin?) ==>
                r.Err?
    {
      var change;
      change, sight, load := NoticeTokenFile();
      ghost var noticed := store.acts;
      assert noticed[..sight.at] == store.acts[..sight.at];
      var t := clock.Now();
      now := t;
      r, how, calls, at := RefreshLocked(t);
      assert store.acts[..sight.at] == noticed[..sight.at];
      assert load.Some? ==> store.acts[..load.value] == noticed[..load.value];
      SeenLater(store.start, old(store.acts), store.acts, sight.at, old(st).fileSeen);
      if !Noticed(old(st), sight.seen, LoadedAt(load)).AnsweredLocally(now) {
        GoneLater(store.start, old(store.acts), store.acts, at);
      }
      GoneLater(store.start, old(store.acts), store.acts, sight.at);
      SettledSince(calls, r, how, |noticed|, |old(store.acts)|);
    }
  }

  /** What was seen otherwise on entry is seen otherwise now. */
  lemma SeenLater(start: Disk, before: seq<Action>, acts: seq<Action>, k: nat, was: FileSeen)
    requires before <= acts && |before| <= k <= |acts|
    ensures var s := Run(Initial(start), before);
            was.SeenPresent? && was.version <= s.version && Seen(s) != was ==> Seen(Run(Initial(start), acts[..k])) != was
  {
    var s := Run(Initial(start), before);
    assert acts[..k] == before + acts[|before|..k];
    RunJoined(Initial(start), before, acts[|before|..k]);
    if was.SeenPresent? && was.version <= s.version && Seen(s) != was {
      SeenOtherwise(s, acts[|before|..k], was.version);
    }
  }

  /** What was gone on entry is gone now, if nobody logged in. */
  lemma GoneLater(start: Disk, before: seq<Action>, acts: seq<Action>, k: nat)
    requires before <= acts && |before| <= k <= |acts|
    ensures Run(Initial(start), before).disk.Absent?
            && (forall i | |before| <= i < |acts| :: !acts[i].SaveLogin?) ==>
              Run(Initial(start), acts[..k]).disk.Absent?
  {
    assert acts[..k] == before + acts[|before|..k];
    RunJoined(Initial(start), before, acts[|before|..k]);
    if Run(Initial(start), before).disk.Absent? && forall i | |before| <= i < |acts| :: !acts[i].SaveLogin? {
      forall a | a in acts[|before|..k]
        ensures !a.SaveLogin?
      {
        var i :| |before| <= i < k && acts[i] == a;
      }
      AbsentUntilLogin(Run(Initial(start), before), acts[|before|..k]);
    }
  }

  /** If there is still a token in the cache and it was not handed out, it had expired by
      the last reading of the clock. */
  ghost predicate Spent(r: Result<(string, Grant), AuthError>, st: State, readings: seq<int>) {
    r.Err? && st.cached.Some? ==> readings != [] && readings[|readings| - 1] >= st.cached.value.expiresAt
  }

  /** A failure is remembered as it is, for the backoff from a reading of the clock made
      since; and it is the error, if there is one. */
  ghost predicate Remembers(
    st: State, error: AuthError, now: int, r: Result<(string, Grant), AuthError>, readings: seq<int>)
  {
    && st.lastFailure.Some? && st.lastFailure.value.until >= now + REFRESH_FAILURE_BACKOFF
    && st.lastFailure.value.until - REFRESH_FAILURE_BACKOFF in readings
    && (st.lastFailure.value.error == error
        || (error.Entra? && error.deleteToken && st.lastFailure.value.error == error.(tokenDeleted := true)))
    && (r.Err? ==> r.error == st.lastFailure.value.error)
  }

  /** A token that was not minted was held before. */
  ghost predicate FromOld(was: State, r: Result<(string, Grant), AuthError>, how: Provenance) {
    how.FromCache? ==> was.cached.Some? && r == Ok((was.cached.value.token, GrantOr(was.liveGrant)))
  }

  /** A token handed out is the cached one, paired with a live, non-empty grant;
      one that was already cached was unexpired when it was tested. */
  ghost predicate Answers(st: State, r: Result<(string, Grant), AuthError>, how: Provenance) {
    && (r.Ok? <==> !how.NoToken?)
    && (r.Ok? ==>
          && st.cached.Some? && r.value.0 == st.cached.value.token
          && st.liveGrant == Some(r.value.1) && r.value.1 != NoGrant)
    && (how.FromCache? ==> how.expiresAt == st.cached.value.expiresAt && how.testedAt < how.expiresAt)
  }

  /** The token is the one this redeem was answered with, and the file now on
      disk is the one written for it, rotated from the redeem's own base. */
  ghost predicate MintedBy(call: Event, r: Result<(string, Grant), AuthError>, how: Provenance, st: State, disk: Shared) {
    && how.Minted? && call.Redeemed? && call.base == how.base && r.Ok?
    && call.outcome.Ok? && call.outcome.value.accessToken == r.value.0
    && disk.disk.Present?
    && st.obtainedAt == Some(disk.disk.file.obtainedAt)
    && WrittenFor(disk.disk.file, how.base, call.outcome.value)
    && st.liveScope == Some(disk.disk.file.grantedScope) && st.lastFailure.None?
    && st.fileSeen == Seen(disk)
  }

  /** The redeems of one call: at most two, the second from a strictly newer file. A minted
      token is the last one's, and its file is the one on disk. A refusal or a transport
      failure starts the backoff. */
  ghost predicate Redeeming(
    calls: seq<Event>, now: int, r: Result<(string, Grant), AuthError>, how: Provenance, st: State, disk: Shared,
    readings: seq<int>)
  {
    && |calls| <= 2
    && (|calls| == 2 ==>
          calls[0].Redeemed? && calls[0].outcome.Ok? && calls[1].Redeemed? && NewerThan(calls[1].base, calls[0].base))
    && (how.Minted? ==> calls != [] && MintedBy(calls[|calls| - 1], r, how, st, disk))
    && (calls != [] && Refusal(calls[|calls| - 1]) ==>
          && Remembers(st, calls[|calls| - 1].outcome.error, now, r, readings) && Spent(r, st, readings))
  }

  /** `effective_scope`: what was granted, or what was asked for. */
  function GrantedScope(base: TokenFile, success: TokenSuccess): Scope {
    success.scope.GetOr(base.requestedScope)
  }

  /** The file a redeem leaves: the rotated refresh token if there is one, the scope
      granted, and the base it replaces. */
  predicate WrittenFor(file: TokenFile, base: TokenFile, success: TokenSuccess) {
    && file.refreshToken == success.refreshToken.GetOr(base.refreshToken)
    && file.grantedScope == GrantedScope(base, success)
    && file.requestedScope == base.requestedScope
    && file.obtainedBy == FromRefresh
    && file.rotatedFrom == Some(base.obtainedAt)
  }

  function GrantOr(g: Option<Grant>): Grant {
    if g.Some? then g.value else NoGrant
  }

  function FromStore(e: StoreError): AuthError {
    if e == NotFound then NotLoggedIn else StoreFailed(e)
  }

  /** Redeems that succeeded and were each overtaken by a strictly newer file. */
  ghost predicate Overtaken(calls: seq<Event>, base: TokenFile) {
    && |calls| <= 2
    && (calls != [] ==> calls[0].Redeemed? && calls[0].outcome.Ok?)
    && (|calls| == 1 ==> NewerThan(base, calls[0].base))
    && (|calls| == 2 ==> calls[1].Redeemed? && calls[1].outcome.Ok? && NewerThan(calls[1].base, calls[0].base))
  }

  lemma OneMoreCall(before: seq<Event>, calls: seq<Event>, base: TokenFile, made: seq<Event>)
    requires Overtaken(calls, base) && |calls| < 2
    requires made == [] || (|made| == 1 && made[0].Redeemed? && made[0].base == base)
    ensures before + calls + made == before + (calls + made)
    ensures |calls + made| == 2 ==>
              && (calls + made)[0].Redeemed? && (calls + made)[0].outcome.Ok?
              && (calls + made)[1].Redeemed? && NewerThan((calls + made)[1].base, (calls + made)[0].base)
    ensures made != [] ==> (calls + made)[|calls + made| - 1] == made[0]
    ensures made == [] ==> calls + made == calls
    ensures calls != [] ==> (calls + made)[0] == calls[0]
    ensures calls == [] ==> calls + made == made
  {
  }

  /** Microsoft refused the redeem, or it got no answer. */
  predicate Refusal(e: Event) {
    e.Redeemed? && e.outcome.Err? && (e.outcome.error.Entra? || e.outcome.error.Transport?)
  }
}
