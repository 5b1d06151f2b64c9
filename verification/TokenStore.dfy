/**
 * The token file: one `token.json` shared by any number of processes, replaced
 * atomically under a lock, guarded by a compare-and-swap on `obtained_at`.
 *
 * The lock covers one load, save or delete at a time; a refresh redeems its
 * token with no lock held. So the protocol is a state machine whose steps are
 * the locked sections, taken by the processes in any order.
 */
module TokenStore {
  import opened Wrappers

  type Pid = nat

  /** A scope string, with the short names its words stand for: percent-decoded,
      cut to the last URI segment, lower-cased. */
  datatype Scope = Scope(text: string, names: seq<string>)

  /** `obtained_at`: text this program formats from an instant (microseconds), or
      any other text, with the instant it parses to, if it parses. */
  datatype Stamp = Canonical(micros: int) | Foreign(text: string, parsed: Option<int>) {
    function Instant(): Option<int> {
      match this
      case Canonical(t) => Some(t)
      case Foreign(_, t) => t
    }

    predicate SameText(other: Stamp) {
      match this
      case Canonical(t) => other == Canonical(t)
      case Foreign(text, _) => other.Foreign? && other.text == text
    }
  }

  datatype Origin = DeviceCode | FromRefresh

  datatype TokenFile = TokenFile(
    clientId: string,
    requestedScope: Scope,
    grantedScope: Scope,
    refreshToken: string,
    obtainedAt: Stamp,
    obtainedBy: Origin,
    rotatedFrom: Option<Stamp>)

  datatype StoreError = NotFound | Corrupt | FutureSchema

  /** What `token.json` holds. A damaged or newer file is present but unreadable. */
  datatype Disk = Absent | Damaged | Newer | Present(file: TokenFile)

  datatype SaveMode = Refresh | Login

  datatype SaveOutcome = Wrote(seen: FileSeen) | Adopted(disk: TokenFile)

  /** One observation of the path. Every write is a new inode, so `version`
      stands for the (mtime, length, inode) triple. */
  datatype FileSeen = Unknown | SeenAbsent | SeenPresent(version: nat)

  function Read(d: Disk): Result<TokenFile, StoreError> {
    match d
    case Absent => Err(NotFound)
    case Damaged => Err(Corrupt)
    case Newer => Err(FutureSchema)
    case Present(f) => Ok(f)
  }

  /** The compare-and-swap test: the disk is strictly newer than the base. */
  predicate NewerThan(disk: TokenFile, base: TokenFile) {
    && disk.obtainedAt.Instant().Some?
    && base.obtainedAt.Instant().Some?
    && disk.obtainedAt.Instant().value > base.obtainedAt.Instant().value
  }

  datatype Verdict = Write(file: TokenFile) | Adopt(file: TokenFile) | Refuse(error: StoreError)

  /** What a save does to a disk it finds. */
  function Decide(disk: Disk, minted: TokenFile, base: Option<TokenFile>, mode: SaveMode): Verdict {
    if mode.Login? then
      Write(minted.(rotatedFrom := None))
    else
      match Read(disk)
      case Err(e) => Refuse(e)
      case Ok(found) =>
        if base.Some? && NewerThan(found, base.value) then Adopt(found)
        else Write(minted.(rotatedFrom := if base.Some? then Some(base.value.obtainedAt) else None))
  }

  /** Whether the dead-token delete finds the very file its redeem started from. */
  predicate Unchanged(disk: Disk, base: TokenFile) {
    disk.Present? && disk.file.obtainedAt.SameText(base.obtainedAt)
  }

  // -------------------------------------------------------------------------
  // The protocol: the locked sections as steps

  /** The shared path, and the `base` each process last read from it and is
      still working from. */
  datatype Shared = Shared(disk: Disk, version: nat, held: map<Pid, TokenFile>)

  datatype Action =
    | Load(pid: Pid)
    | SaveRefreshed(pid: Pid, minted: TokenFile)
    | DeleteDead(pid: Pid)
    | SaveLogin(pid: Pid, typed: TokenFile)
    | Logout(pid: Pid)

  function Holding(s: Shared, p: Pid, d: Disk): map<Pid, TokenFile> {
    if d.Present? then s.held[p := d.file] else s.held - {p}
  }

  function Step(s: Shared, a: Action): Shared {
    match a
    case Load(p) => s.(held := Holding(s, p, s.disk))
    case SaveRefreshed(p, minted) =>
      if p !in s.held then s else
      (match Decide(s.disk, minted, Some(s.held[p]), Refresh)
       case Write(f) => Shared(Present(f), s.version + 1, s.held - {p})
       case Adopt(found) => s.(held := s.held[p := found])
       case Refuse(_) => s.(held := s.held - {p}))
    case DeleteDead(p) =>
      if p !in s.held then s else
      Shared(if Unchanged(s.disk, s.held[p]) then Absent else s.disk, s.version, s.held - {p})
    case SaveLogin(_, typed) => Shared(Present(typed.(rotatedFrom := None)), s.version + 1, s.held)
    case Logout(_) => s.(disk := Absent)
  }

  datatype Event =
    | LoginWrote(replaced: Disk, written: TokenFile)
    | RefreshWrote(pid: Pid, base: TokenFile, replaced: Disk, written: TokenFile)
    | RefreshAdopted(pid: Pid, base: TokenFile, adopted: TokenFile)
    | DeadDeleted(pid: Pid, base: TokenFile, removed: Disk)

  /** What a step leaves in the history. */
  function Emit(s: Shared, a: Action): seq<Event> {
    match a
    case SaveLogin(_, typed) => [LoginWrote(s.disk, typed.(rotatedFrom := None))]
    case SaveRefreshed(p, minted) =>
      if p !in s.held then [] else
      (match Decide(s.disk, minted, Some(s.held[p]), Refresh)
       case Write(f) => [RefreshWrote(p, s.held[p], s.disk, f)]
       case Adopt(found) => [RefreshAdopted(p, s.held[p], found)]
       case Refuse(_) => [])
    case DeleteDead(p) =>
      if p in s.held && Unchanged(s.disk, s.held[p]) then [DeadDeleted(p, s.held[p], s.disk)] else []
    case _ => []
  }

  function Initial(d: Disk): Shared {
    Shared(d, 0, map[])
  }

  function Run(s: Shared, acts: seq<Action>): Shared
    decreases |acts|
  {
    if acts == [] then s else Run(Step(s, acts[0]), acts[1..])
  }

  function History(s: Shared, acts: seq<Action>): seq<Event>
    decreases |acts|
  {
    if acts == [] then [] else Emit(s, acts[0]) + History(Step(s, acts[0]), acts[1..])
  }

  /** Every file that was ever at the path, in the order they landed. */
  function Landed(d: Disk, log: seq<Event>): seq<TokenFile> {
    (if d.Present? then [d.file] else []) + Written(log)
  }

  function Written(log: seq<Event>): seq<TokenFile> {
    if log == [] then []
    else (if log[0].LoginWrote? || log[0].RefreshWrote? then [log[0].written] else []) + Written(log[1..])
  }

  /** Stamps strictly increase in landing order. */
  predicate Increasing(files: seq<TokenFile>) {
    && (forall i | 0 <= i < |files| :: files[i].obtainedAt.Instant().Some?)
    && (forall i, j | 0 <= i < j < |files| ::
          files[i].obtainedAt.Instant().value < files[j].obtainedAt.Instant().value)
  }

  predicate DistinctStamps(files: seq<TokenFile>) {
    forall i, j | 0 <= i < j < |files| :: !files[i].obtainedAt.SameText(files[j].obtainedAt)
  }

  // -------------------------------------------------------------------------
  // What every run keeps

  lemma {:induction false} WrittenAppend(a: seq<Event>, b: seq<Event>)
    ensures Written(a + b) == Written(a) + Written(b)
  {
    if a == [] {
      assert a + b == b;
    } else {
      assert (a + b)[1..] == a[1..] + b;
      WrittenAppend(a[1..], b);
      var first := if a[0].LoginWrote? || a[0].RefreshWrote? then [a[0].written] else [];
      assert first + (Written(a[1..]) + Written(b)) == (first + Written(a[1..])) + Written(b);
    }
  }

  /** `landed` is what has been at the path: the disk is its last file, and every
      held base is one of its files. */
  ghost predicate Traced(s: Shared, landed: seq<TokenFile>) {
    && (s.disk.Present? ==> landed != [] && landed[|landed| - 1] == s.disk.file)
    && (forall p | p in s.held :: s.held[p] in landed)
  }

  lemma StepTraced(s: Shared, a: Action, landed: seq<TokenFile>)
    requires Traced(s, landed)
    ensures Traced(Step(s, a), landed + Written(Emit(s, a)))
  {
    var next := landed + Written(Emit(s, a));
    forall p | p in Step(s, a).held
      ensures Step(s, a).held[p] in next
    {
      if p in s.held && s.held[p] == Step(s, a).held[p] {
        assert s.held[p] in landed;
      } else {
        assert s.disk.Present? && Step(s, a).held[p] == s.disk.file;
        assert landed[|landed| - 1] in landed;
      }
    }
  }

  /** An event that names the exact file it stands on. */
  predicate Exact(e: Event) {
    && (e.RefreshWrote? ==>
          e.replaced == Present(e.base) && e.written.rotatedFrom == Some(e.base.obtainedAt))
    && (e.RefreshAdopted? ==> NewerThan(e.adopted, e.base))
  }

  lemma StepExact(s: Shared, a: Action, landed: seq<TokenFile>)
    requires Traced(s, landed) && Increasing(landed)
    ensures forall e | e in Emit(s, a) :: Exact(e)
  {
    if a.SaveRefreshed? && a.pid in s.held && s.disk.Present? {
      var base := s.held[a.pid];
      var last := |landed| - 1;
      var k :| 0 <= k < |landed| && landed[k] == base;
      if k < last {
        assert NewerThan(landed[last], landed[k]);
      }
    }
  }

  lemma StepDeadExact(s: Shared, a: Action, landed: seq<TokenFile>)
    requires Traced(s, landed) && DistinctStamps(landed)
    ensures forall e | e in Emit(s, a) && e.DeadDeleted? :: e.removed == Present(e.base)
  {
    if a.DeleteDead? && a.pid in s.held && Unchanged(s.disk, s.held[a.pid]) {
      var last := |landed| - 1;
      var k :| 0 <= k < |landed| && landed[k] == s.held[a.pid];
      assert k == last;
    }
  }

  lemma {:induction false} RunExact(s: Shared, acts: seq<Action>, landed: seq<TokenFile>)
    requires Traced(s, landed) && Increasing(landed + Written(History(s, acts)))
    ensures forall e | e in History(s, acts) :: Exact(e)
    decreases |acts|
  {
    if acts != [] {
      var rest := History(Step(s, acts[0]), acts[1..]);
      var next := landed + Written(Emit(s, acts[0]));
      WrittenAppend(Emit(s, acts[0]), rest);
      assert next + Written(rest) == landed + Written(History(s, acts));
      var all := landed + Written(History(s, acts));
      assert landed == all[..|landed|];
      StepTraced(s, acts[0], landed);
      StepExact(s, acts[0], landed);
      RunExact(Step(s, acts[0]), acts[1..], next);
    }
  }

  lemma {:induction false} RunDeadExact(s: Shared, acts: seq<Action>, landed: seq<TokenFile>)
    requires Traced(s, landed) && DistinctStamps(landed + Written(History(s, acts)))
    ensures forall e | e in History(s, acts) && e.DeadDeleted? :: e.removed == Present(e.base)
    decreases |acts|
  {
    if acts != [] {
      var rest := History(Step(s, acts[0]), acts[1..]);
      var next := landed + Written(Emit(s, acts[0]));
      WrittenAppend(Emit(s, acts[0]), rest);
      assert next + Written(rest) == landed + Written(History(s, acts));
      var all := landed + Written(History(s, acts));
      assert landed == all[..|landed|];
      StepTraced(s, acts[0], landed);
      StepDeadExact(s, acts[0], landed);
      RunDeadExact(Step(s, acts[0]), acts[1..], next);
    }
  }

  /** The swap theorem: in every interleaving whose stamps increase as they land,
      each refresh write replaces exactly the file it redeemed, and says so. */
  lemma RefreshReplacesWhatItRedeemed(d: Disk, acts: seq<Action>)
    requires Increasing(Landed(d, History(Initial(d), acts)))
    ensures forall e | e in History(Initial(d), acts) && e.RefreshWrote? ::
              e.replaced == Present(e.base) && e.written.rotatedFrom == Some(e.base.obtainedAt)
    ensures forall e | e in History(Initial(d), acts) && e.RefreshAdopted? :: NewerThan(e.adopted, e.base)
  {
    RunExact(Initial(d), acts, if d.Present? then [d.file] else []);
  }

  /** A dead-token delete removes only the file its failing redeem started from,
      when no two landed files share an `obtained_at`. */
  lemma DeadDeleteRemovesItsBase(d: Disk, acts: seq<Action>)
    requires DistinctStamps(Landed(d, History(Initial(d), acts)))
    ensures forall e | e in History(Initial(d), acts) && e.DeadDeleted? :: e.removed == Present(e.base)
  {
    RunDeadExact(Initial(d), acts, if d.Present? then [d.file] else []);
  }

  /** With no assumption on stamps at all: an absent file comes back only
      through a login. */
  lemma {:induction false} AbsentUntilLogin(s: Shared, acts: seq<Action>)
    requires s.disk.Absent?
    requires forall a | a in acts :: !a.SaveLogin?
    ensures Run(s, acts).disk.Absent?
    decreases |acts|
  {
    if acts != [] {
      assert acts[0] in acts;
      assert forall a | a in acts[1..] :: a in acts;
      AbsentUntilLogin(Step(s, acts[0]), acts[1..]);
    }
  }

  /** So a sign-out, or a dead-token delete that deleted, is never undone by any
      run of refreshers that follows it. */
  lemma SignOutSticks(s: Shared, gone: Action, acts: seq<Action>)
    requires gone.Logout? || (gone.DeleteDead? && Emit(s, gone) != [])
    ensures Run(Step(s, gone), acts).disk.Present? ==> exists a | a in acts :: a.SaveLogin?
  {
    if forall a | a in acts :: !a.SaveLogin? {
      AbsentUntilLogin(Step(s, gone), acts);
    }
  }

  // -------------------------------------------------------------------------
  // One refresh, from its load to its save, with any others in between

  lemma {:induction false} HeldThroughOthers(s: Shared, acts: seq<Action>, p: Pid)
    requires p in s.held && forall a | a in acts :: a.pid != p
    ensures p in Run(s, acts).held && Run(s, acts).held[p] == s.held[p]
    decreases |acts|
  {
    if acts != [] {
      assert acts[0] in acts;
      assert forall a | a in acts[1..] :: a in acts;
      HeldThroughOthers(Step(s, acts[0]), acts[1..], p);
    }
  }

  /** The file at the path, if there is one, is the last that landed. */
  predicate LastLanded(s: Shared, landed: seq<TokenFile>) {
    s.disk.Present? ==> landed != [] && landed[|landed| - 1] == s.disk.file
  }

  lemma StepLastLanded(s: Shared, a: Action, landed: seq<TokenFile>)
    requires LastLanded(s, landed)
    ensures LastLanded(Step(s, a), landed + Written(Emit(s, a)))
  {
    var written := Written(Emit(s, a));
    if written == [] {
      assert landed + [] == landed;
    } else {
      assert Emit(s, a)[1..] == [];
      assert (landed + written)[|landed + written| - 1] == written[|written| - 1];
    }
  }

  lemma {:induction false} RunLastLanded(s: Shared, acts: seq<Action>, landed: seq<TokenFile>)
    requires LastLanded(s, landed)
    ensures LastLanded(Run(s, acts), landed + Written(History(s, acts)))
    decreases |acts|
  {
    if acts == [] {
      assert landed + [] == landed;
    } else {
      var rest := History(Step(s, acts[0]), acts[1..]);
      var next := landed + Written(Emit(s, acts[0]));
      StepLastLanded(s, acts[0], landed);
      RunLastLanded(Step(s, acts[0]), acts[1..], next);
      WrittenAppend(Emit(s, acts[0]), rest);
      Associates(landed, Written(Emit(s, acts[0])), Written(rest));
    }
  }

  /** The states of a refresh: it loads, others run, and it saves. */
  function Loaded(s: Shared, p: Pid): Shared {
    Step(s, Load(p))
  }

  predicate Saves(s: Shared, p: Pid, minted: TokenFile, base: TokenFile) {
    Emit(s, SaveRefreshed(p, minted)) == [RefreshWrote(p, base, s.disk, minted.(rotatedFrom := Some(base.obtainedAt)))]
    && Step(s, SaveRefreshed(p, minted)).disk == Present(minted.(rotatedFrom := Some(base.obtainedAt)))
  }

  /** Whatever ran in between, and whatever the stamps: the refresh's own file is
      written exactly if the path still has a readable file, and that is not strictly
      newer than the one loaded. */
  lemma RefreshWritesIff(s: Shared, p: Pid, mid: seq<Action>, minted: TokenFile)
    requires s.disk.Present? && forall a | a in mid :: a.pid != p
    ensures var found := Run(Loaded(s, p), mid);
            Saves(found, p, minted, s.disk.file) <==>
              found.disk.Present? && !NewerThan(found.disk.file, s.disk.file)
  {
    HeldThroughOthers(Loaded(s, p), mid, p);
  }

  /** With stamps that increase as they land: exactly if nothing landed since the load
      and the file that was loaded is still there. */
  lemma RefreshWritesIffNothingLanded(s: Shared, p: Pid, mid: seq<Action>, minted: TokenFile)
    requires s.disk.Present? && forall a | a in mid :: a.pid != p
    requires Increasing([s.disk.file] + Written(History(Loaded(s, p), mid)))
    ensures var found, since := Run(Loaded(s, p), mid), Written(History(Loaded(s, p), mid));
            && (Saves(found, p, minted, s.disk.file) <==> since == [] && found.disk == s.disk)
            && (since == [] ==> found.disk == s.disk || !found.disk.Present?)
  {
    var all := [s.disk.file] + Written(History(Loaded(s, p), mid));
    RefreshWritesIff(s, p, mid, minted);
    RunLastLanded(Loaded(s, p), mid, [s.disk.file]);
    if |all| > 1 {
      assert NewerThan(all[|all| - 1], all[0]);
    }
  }

  // -------------------------------------------------------------------------
  // What an observation tells

  function Seen(s: Shared): FileSeen {
    if s.disk.Absent? then SeenAbsent else SeenPresent(s.version)
  }

  /** Nothing was written, and nothing removed, at any point of a run. */
  ghost predicate Untouched(s: Shared, acts: seq<Action>)
    decreases |acts|
  {
    acts != [] ==>
      && Step(s, acts[0]).disk == s.disk && Step(s, acts[0]).version == s.version
      && Untouched(Step(s, acts[0]), acts[1..])
  }

  /** A stamp is no other write's: a file that is seen again as it was seen before was
      not written or removed in between; nor was it, if it looks different, left alone. */
  lemma {:induction false} SeenAgainMeansUntouched(s: Shared, acts: seq<Action>)
    requires !s.disk.Absent?
    ensures Seen(Run(s, acts)) == Seen(s) <==> Untouched(s, acts)
    ensures Run(s, acts).version >= s.version
    decreases |acts|
  {
    if acts != [] {
      var next := Step(s, acts[0]);
      VersionsGrow(next, acts[1..]);
      if next.disk == s.disk && next.version == s.version {
        SeenAgainMeansUntouched(next, acts[1..]);
      }
    }
  }

  /** And a path from which the file is gone is only ever seen with a new stamp. */
  lemma {:induction false} VersionsGrow(s: Shared, acts: seq<Action>)
    ensures Run(s, acts).version >= s.version
    ensures s.disk.Absent? && Run(s, acts).version == s.version ==> Run(s, acts).disk.Absent?
    decreases |acts|
  {
    if acts != [] {
      VersionsGrow(Step(s, acts[0]), acts[1..]);
    }
  }

  /** A path that looks different from what was seen there once never looks so again. */
  lemma SeenOtherwise(s: Shared, acts: seq<Action>, version: nat)
    requires version <= s.version && Seen(s) != SeenPresent(version)
    ensures Seen(Run(s, acts)) != SeenPresent(version)
  {
    VersionsGrow(s, acts);
  }

  lemma {:induction false} RunJoined(s: Shared, a: seq<Action>, b: seq<Action>)
    ensures Run(s, a + b) == Run(Run(s, a), b)
    decreases |a|
  {
    if a == [] {
      assert a + b == b;
    } else {
      assert (a + b)[1..] == a[1..] + b;
      RunJoined(Step(s, a[0]), a[1..], b);
    }
  }

  /** Without increasing stamps a login can be lost: one that lands in the same
      microsecond as the refresh's base is overwritten by that refresh. */
  lemma SameInstantLoginIsLost(base: TokenFile, login: TokenFile, minted: TokenFile)
    requires login.obtainedAt == base.obtainedAt && login.refreshToken != base.refreshToken
    ensures var acts := [Load(0), SaveLogin(1, login), SaveRefreshed(0, minted)];
            var log := History(Initial(Present(base)), acts);
            && RefreshWrote(0, base, Present(login.(rotatedFrom := None)),
                            minted.(rotatedFrom := Some(base.obtainedAt))) in log
            && Run(Initial(Present(base)), acts).disk == Present(minted.(rotatedFrom := Some(base.obtainedAt)))
  {
    var s0 := Initial(Present(base));
    var a0, a1, a2 := Load(0), SaveLogin(1, login), SaveRefreshed(0, minted);
    var s1 := Step(s0, a0);
    var s2 := Step(s1, a1);
    var acts := [a0, a1, a2];
    assert acts[1..] == [a1, a2] && [a1, a2][1..] == [a2] && [a2][1..] == [];
    var written := RefreshWrote(0, base, Present(login.(rotatedFrom := None)),
                                minted.(rotatedFrom := Some(base.obtainedAt)));
    assert Emit(s2, a2) == [written];
    calc {
      History(s0, acts);
      Emit(s0, a0) + History(s1, [a1, a2]);
      Emit(s0, a0) + (Emit(s1, a1) + History(s2, [a2]));
      { assert History(s2, [a2]) == [written] + History(Step(s2, a2), []); }
      Emit(s0, a0) + (Emit(s1, a1) + ([written] + []));
    }
    assert Run(s2, [a2]) == Run(Step(s2, a2), []);
    assert Run(s1, [a1, a2]) == Run(s2, [a2]);
  }

  lemma {:induction false} RunAppend(s: Shared, acts: seq<Action>, a: Action)
    ensures Run(s, acts + [a]) == Step(Run(s, acts), a)
    ensures History(s, acts + [a]) == History(s, acts) + Emit(Run(s, acts), a)
    decreases |acts|
  {
    if acts == [] {
      assert [a][1..] == [];
      assert Run(s, [a]) == Run(Step(s, a), []);
      assert acts + [a] == [a];
    } else {
      assert (acts + [a])[1..] == acts[1..] + [a];
      RunAppend(Step(s, acts[0]), acts[1..], a);
    }
  }

  // -------------------------------------------------------------------------
  // The store itself

  /** One look at the path: by whom, after how many locked sections, and what was seen. */
  datatype Sight = Sight(pid: Pid, at: nat, seen: FileSeen)

  /** The data directory as one process sees it. `acts` is the ghost record of
      every locked section anyone has run on it, so each theorem above about
      runs is a theorem about this object. */
  class Store {
    var state: Shared
    ghost const start: Disk
    ghost var acts: seq<Action>
    /** Every look at the path, in order. */
    ghost var sights: seq<Sight>

    ghost predicate Valid()
      reads this
    {
      state == Run(Initial(start), acts)
    }

    ghost function Log(): seq<Event>
      reads this
    {
      History(Initial(start), acts)
    }

    /** What was there after so many locked sections. */
    ghost function Past(k: nat): Shared
      requires k <= |acts|
      reads this
    {
      Run(Initial(start), acts[..k])
    }

    constructor (found: Disk)
      ensures Valid() && state == Initial(found) && start == found && acts == [] && sights == []
    {
      state := Initial(found);
      start := found;
      acts, sights := [], [];
    }

    /** Look at the path, with no lock. */
    method Look(pid: Pid) returns (seen: FileSeen)
      modifies this`sights
      ensures seen == Seen(state) && sights == old(sights) + [Sight(pid, |acts|, seen)]
    {
      seen := Observe();
      sights := sights + [Sight(pid, |acts|, seen)];
    }

    method Observe() returns (seen: FileSeen)
      ensures seen == Seen(state)
    {
      seen := if state.disk.Absent? then SeenAbsent else SeenPresent(state.version);
    }

    method LoadFile(pid: Pid) returns (r: Result<TokenFile, StoreError>)
      requires Valid()
      modifies this`state, this`acts
      ensures Valid() && acts == old(acts) + [Load(pid)]
      ensures r == Read(old(state.disk)) && state.disk == old(state.disk) && state.version == old(state.version)
      ensures r.Ok? ==> pid in state.held && state.held[pid] == r.value
    {
      r := Read(state.disk);
      RunAppend(Initial(start), acts, Load(pid));
      acts := acts + [Load(pid)];
      state := state.(held := if r.Ok? then state.held[pid := r.value] else state.held - {pid});
    }

    /** `save_atomic`. A refresh passes the base it loaded; a login's base is not
        looked at: whoever just typed a device code wins. */
    method SaveAtomic(pid: Pid, minted: TokenFile, base: Option<TokenFile>, mode: SaveMode)
      returns (r: Result<SaveOutcome, StoreError>)
      requires Valid()
      requires mode.Refresh? ==> base.Some? && pid in state.held && state.held[pid] == base.value
      modifies this`state, this`acts
      ensures Valid()
      ensures acts == old(acts) + [if mode.Login? then SaveLogin(pid, minted) else SaveRefreshed(pid, minted)]
      ensures match Decide(old(state.disk), minted, base, mode)
              case Write(f) =>
                r == Ok(Wrote(Seen(state))) && state.disk == Present(f) && state.version == old(state.version) + 1
              case Adopt(found) =>
                r == Ok(Adopted(found)) && state.disk == old(state.disk) && state.version == old(state.version)
                && pid in state.held && state.held[pid] == found
              case Refuse(e) =>
                r == Err(e) && state.disk == old(state.disk) && state.version == old(state.version)
    {
      var a := if mode.Login? then SaveLogin(pid, minted) else SaveRefreshed(pid, minted);
      RunAppend(Initial(start), acts, a);
      acts := acts + [a];
      if mode == Refresh {
        var found := Read(state.disk);
        if found.Err? {
          state := state.(held := state.held - {pid});
          return Err(found.error);
        }
        var d, b := found.value.obtainedAt.Instant(), base.value.obtainedAt.Instant();
        if d.Some? && b.Some? && d.value > b.value {
          state := state.(held := state.held[pid := found.value]);
          return Ok(Adopted(found.value));
        }
      }
      var file := minted.(rotatedFrom := if mode == Refresh then Some(base.value.obtainedAt) else None);
      state := Shared(Present(file), state.version + 1, if mode == Refresh then state.held - {pid} else state.held);
      var seen := Observe();
      return Ok(Wrote(seen));
    }

    /** `logout`. Returns whether there was a file. */
    method Delete(pid: Pid) returns (existed: bool)
      requires Valid()
      modifies this`state, this`acts
      ensures Valid() && acts == old(acts) + [Logout(pid)]
      ensures existed == !old(state.disk).Absent? && state.disk.Absent? && state.version == old(state.version)
    {
      RunAppend(Initial(start), acts, Logout(pid));
      acts := acts + [Logout(pid)];
      existed := !state.disk.Absent?;
      state := state.(disk := Absent);
    }

    /** The refresh path's delete of a token that can never be redeemed again. */
    method DeleteIfUnchanged(pid: Pid, base: TokenFile) returns (r: Result<Option<FileSeen>, StoreError>)
      requires Valid() && pid in state.held && state.held[pid] == base
      modifies this`state, this`acts
      ensures Valid() && acts == old(acts) + [DeleteDead(pid)] && state.version == old(state.version)
      ensures r == Ok(Some(SeenAbsent)) <==> Unchanged(old(state.disk), base)
      ensures Unchanged(old(state.disk), base) ==> state.disk.Absent?
      ensures !Unchanged(old(state.disk), base) ==>
                state.disk == old(state.disk)
                && (r == Ok(None) || (r.Err? && Read(old(state.disk)) == Err(r.error) && r.error != NotFound))
    {
      RunAppend(Initial(start), acts, DeleteDead(pid));
      acts := acts + [DeleteDead(pid)];
      var found := Read(state.disk);
      state := state.(held := state.held - {pid});
      match found {
        case Ok(disk) =>
          if !disk.obtainedAt.SameText(base.obtainedAt) { return Ok(None); }
        case Err(NotFound) => return Ok(None);
        case Err(e) => return Err(e);
      }
      state := state.(disk := Absent);
      var seen := Observe();
      return Ok(Some(seen));
    }

    /** One locked section by some other process. */
    method Apply(a: Action)
      requires Valid()
      modifies this`state, this`acts
      ensures Valid() && acts == old(acts) + [a] && state == Step(old(state), a)
    {
      RunAppend(Initial(start), acts, a);
      acts := acts + [a];
      state := Step(state, a);
    }
  }
}
