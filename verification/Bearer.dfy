/**
 * Settling on one bearer: any number of processes meet at a path that is absent
 * or blank, and each must end up with the same secret. An absent path is created
 * by hard-linking a finished draft into place; a blank file is filled in place
 * under an exclusive lock; reads take the shared lock. Processes may crash
 * between any two steps.
 */
module Bearer {
  import opened Wrappers

  type Pid = nat
  type Inode = nat
  type Token = nat

  const BEARER_ATTEMPTS: nat := 4

  /** What a file holds. `Half` is a fill in progress: truncated, not yet whole. */
  datatype Content = Blank | Half | Whole(token: Token)

  datatype Outcome = Found(token: Token) | Generated(token: Token)

  /** Where a process stands in `settle_bearer`; `attempt` counts from 0. */
  datatype Proc =
    | Trying(attempt: nat)
    | Opened(attempt: nat, file: Inode)
    | Reading(attempt: nat, file: Inode)
    | Drafted(attempt: nat, token: Token)
    | SawBlank(attempt: nat)
    | FillOpened(attempt: nat, file: Inode)
    | FillLocked(attempt: nat, file: Inode)
    | Filling(attempt: nat, file: Inode, token: Token)
    | Settled(outcome: Outcome)
    | GaveUp
    | Crashed

  datatype World = World(
    path: Option<Inode>,
    contents: map<Inode, Content>,
    procs: map<Pid, Proc>,
    generator: Option<Pid>)

  datatype Action =
    | Start(pid: Pid)
    | Open(pid: Pid, token: Token)
    | LockShared(pid: Pid)
    | FinishRead(pid: Pid)
    | Link(pid: Pid, inode: Inode)
    | OpenToFill(pid: Pid)
    | LockExclusive(pid: Pid)
    | Check(pid: Pid, token: Token)
    | FinishFill(pid: Pid)
    | Crash(pid: Pid, written: bool)

  predicate HoldsExclusive(p: Proc, file: Inode) {
    (p.FillLocked? || p.Filling?) && p.file == file
  }

  predicate HoldsShared(p: Proc, file: Inode) {
    p.Reading? && p.file == file
  }

  /** No other process is in the way of a shared, or an exclusive, lock. */
  predicate SharedFree(w: World, file: Inode) {
    forall q | q in w.procs :: !HoldsExclusive(w.procs[q], file)
  }

  predicate ExclusiveFree(w: World, file: Inode) {
    forall q | q in w.procs :: !HoldsExclusive(w.procs[q], file) && !HoldsShared(w.procs[q], file)
  }

  /** An attempt that settled nothing: go round again, or give up after four. */
  function NextTry(attempt: nat): Proc {
    if attempt + 1 < BEARER_ATTEMPTS then Trying(attempt + 1) else GaveUp
  }

  function Put(w: World, p: Pid, s: Proc): World {
    w.(procs := w.procs[p := s])
  }

  function ContentAt(w: World, file: Inode): Content {
    if file in w.contents then w.contents[file] else Blank
  }

  /** One step. A step that is not enabled changes nothing. */
  function Step(w: World, a: Action): World {
    if a.Start? then (if a.pid in w.procs then w else Put(w, a.pid, Trying(0)))
    else if a.pid !in w.procs then w
    else
      var p := a.pid;
      match (a, w.procs[p])
      // `read_bearer`: open the path; absent means draft a token to create it with.
      case (Open(_, token), Trying(n)) =>
        if w.path.Some? then Put(w, p, Opened(n, w.path.value)) else Put(w, p, Drafted(n, token))
      case (LockShared(_), Opened(n, f)) => if SharedFree(w, f) then Put(w, p, Reading(n, f)) else w
      case (FinishRead(_), Reading(n, f)) =>
        (match ContentAt(w, f)
         case Whole(t) => Put(w, p, Settled(Found(t)))
         case _ => Put(w, p, SawBlank(n)))
      // `create_bearer`: the link fails if the path exists by now.
      case (Link(_, inode), Drafted(n, token)) =>
        if w.path.Some? then Put(w, p, NextTry(n))
        else if inode in w.contents then w
        else World(Some(inode), w.contents[inode := Whole(token)], w.procs[p := Settled(Generated(token))], Some(p))
      // `fill_blank_bearer`.
      case (OpenToFill(_), SawBlank(n)) =>
        if w.path.Some? then Put(w, p, FillOpened(n, w.path.value)) else Put(w, p, NextTry(n))
      case (LockExclusive(_), FillOpened(n, f)) => if ExclusiveFree(w, f) then Put(w, p, FillLocked(n, f)) else w
      // `fill_opened_bearer`: still the same file, still blank?
      case (Check(_, token), FillLocked(n, f)) =>
        if w.path != Some(f) then Put(w, p, NextTry(n))
        else
          (match ContentAt(w, f)
           case Whole(t) => Put(w, p, Settled(Found(t)))
           case _ => Put(w.(contents := w.contents[f := Half]), p, Filling(n, f, token)))
      case (FinishFill(_), Filling(n, f, token)) =>
        World(w.path, w.contents[f := Whole(token)], w.procs[p := Settled(Generated(token))], Some(p))
      // A crash drops the locks. In a fill, the one write landed or it did not.
      case (Crash(_, written), Filling(n, f, token)) =>
        if written then World(w.path, w.contents[f := Whole(token)], w.procs[p := Crashed], Some(p))
        else Put(w.(contents := w.contents[f := Blank]), p, Crashed)
      case (Crash(_, _), s) => if s.Settled? || s.GaveUp? then w else Put(w, p, Crashed)
      case _ => w
  }

  function Run(w: World, acts: seq<Action>): World
    decreases |acts|
  {
    if acts == [] then w else Run(Step(w, acts[0]), acts[1..])
  }

  predicate Starting(w: World) {
    && w.procs == map[] && w.generator.None?
    && (w.path.None? ==> w.contents == map[])
    && (w.path.Some? ==> w.contents == map[w.path.value := Blank])
  }

  // -------------------------------------------------------------------------
  // The invariant

  /** The secret, once there is one. */
  function Secret(w: World): Option<Token> {
    if w.path.Some? && ContentAt(w, w.path.value).Whole? then Some(ContentAt(w, w.path.value).token) else None
  }

  predicate ProcSound(w: World, p: Pid, s: Proc) {
    match s
    case Trying(n) => n == 0 || (n == 1 && Secret(w).Some?)
    case Opened(n, f) => w.path == Some(f) && (n == 0 || (n == 1 && Secret(w).Some?))
    // A locked read never meets a half-written file.
    case Reading(n, f) => w.path == Some(f) && ContentAt(w, f) != Half && (n == 0 || (n == 1 && Secret(w).Some?))
    case Drafted(n, _) => n == 0 && (w.path.Some? ==> Secret(w).Some?)
    case SawBlank(n) => n == 0 && w.path.Some?
    case FillOpened(n, f) => n == 0 && w.path == Some(f)
    case FillLocked(n, f) => n == 0 && w.path == Some(f) && ContentAt(w, f) != Half
    case Filling(n, f, _) => n == 0 && w.path == Some(f) && ContentAt(w, f) == Half
    case Settled(Found(t)) => Secret(w) == Some(t)
    case Settled(Generated(t)) => Secret(w) == Some(t) && w.generator == Some(p)
    case GaveUp => false
    case Crashed => true
  }

  /** Two processes that stand in each other's way. */
  predicate Compatible(s: Proc, t: Proc) {
    s.FillLocked? || s.Filling? ==> !HoldsExclusive(t, s.file) && !HoldsShared(t, s.file)
  }

  ghost predicate Inv(w: World) {
    && (w.path.Some? ==> w.path.value in w.contents)
    && (w.generator.Some? <==> Secret(w).Some?)
    && (forall p | p in w.procs :: ProcSound(w, p, w.procs[p]))
    && (forall p, q | p in w.procs && q in w.procs && p != q :: Compatible(w.procs[p], w.procs[q]))
    // Half-written only while somebody is writing it.
    && (w.path.Some? && ContentAt(w, w.path.value) == Half ==>
          exists p :: p in w.procs && w.procs[p].Filling?)
  }

  /** Nothing ever replaces the path or changes the secret. */
  lemma SecretStays(w: World, a: Action)
    requires Inv(w)
    ensures w.path.Some? ==> Step(w, a).path == w.path
    ensures Secret(w).Some? ==> Secret(Step(w, a)) == Secret(w)
  {
    if a.pid in w.procs {
      assert ProcSound(w, a.pid, w.procs[a.pid]);
    }
  }

  /** Only this process moved, if it is there at all, and the path stays. */
  predicate MovedOnly(was: World, now: World, p: Pid) {
    && (p in now.procs ==> now.procs == was.procs[p := now.procs[p]])
    && (p !in now.procs ==> now.procs == was.procs)
    && (was.path.Some? ==> now.path == was.path)
  }

  lemma StepMovesOne(w: World, a: Action)
    requires Inv(w)
    ensures MovedOnly(w, Step(w, a), a.pid)
  {
    SecretStays(w, a);
  }

  /** An exclusive lock has one holder. */
  lemma OneHolder(w: World, q: Pid, file: Inode)
    requires Inv(w) && q in w.procs && HoldsExclusive(w.procs[q], file)
    ensures forall r | r in w.procs && r != q :: !HoldsExclusive(w.procs[r], file) && !HoldsShared(w.procs[r], file)
    ensures w.path == Some(file)
  {
    assert ProcSound(w, q, w.procs[q]);
    forall r | r in w.procs && r != q
      ensures !HoldsExclusive(w.procs[r], file) && !HoldsShared(w.procs[r], file)
    {
      assert Compatible(w.procs[q], w.procs[r]);
    }
  }

  lemma ReaderLeaves(w: World, q: Pid, file: Inode)
    requires q in w.procs && SharedFree(w, file)
    ensures var w' := Step(w, FinishRead(q));
            q in w'.procs && !HoldsShared(w'.procs[q], file) && !HoldsExclusive(w'.procs[q], file)
  {
  }

  lemma OthersStaySound(w: World, a: Action, q: Pid)
    requires Inv(w) && q in w.procs && q != a.pid
    ensures q in Step(w, a).procs && Step(w, a).procs[q] == w.procs[q]
    ensures ProcSound(Step(w, a), q, w.procs[q])
  {
    SecretStays(w, a);
    assert ProcSound(w, q, w.procs[q]);
    if a.pid in w.procs {
      var p := w.procs[a.pid];
      assert ProcSound(w, a.pid, p);
      assert Compatible(p, w.procs[q]) && Compatible(w.procs[q], p);
    }
  }

  lemma MoverStaysSound(w: World, a: Action)
    requires Inv(w) && a.pid in Step(w, a).procs
    ensures ProcSound(Step(w, a), a.pid, Step(w, a).procs[a.pid])
  {
    SecretStays(w, a);
    if a.pid in w.procs {
      assert ProcSound(w, a.pid, w.procs[a.pid]);
      if w.path.Some? && ContentAt(w, w.path.value) == Half {
        var q :| q in w.procs && w.procs[q].Filling?;
        assert ProcSound(w, q, w.procs[q]);
        assert q != a.pid ==> Compatible(w.procs[q], w.procs[a.pid]);
      }
    }
  }

  lemma LocksStayApart(w: World, a: Action, p: Pid, q: Pid)
    requires Inv(w) && p in Step(w, a).procs && q in Step(w, a).procs && p != q
    ensures Compatible(Step(w, a).procs[p], Step(w, a).procs[q])
  {
    if p in w.procs && q in w.procs {
      assert Compatible(w.procs[p], w.procs[q]) && Compatible(w.procs[q], w.procs[p]);
    }
  }

  lemma HalfHasAWriter(w: World, a: Action)
    requires Inv(w) && Step(w, a).path.Some? && ContentAt(Step(w, a), Step(w, a).path.value) == Half
    ensures exists p :: p in Step(w, a).procs && Step(w, a).procs[p].Filling?
  {
    if w.path.Some? && ContentAt(w, w.path.value) == Half {
      var q :| q in w.procs && w.procs[q].Filling?;
      assert ProcSound(w, q, w.procs[q]);
      if a.pid == q {
        assert Step(w, a).procs[q].Filling?;
      } else {
        OthersStaySound(w, a, q);
        assert Step(w, a).procs[q].Filling?;
      }
    } else {
      assert a.pid in w.procs && ProcSound(w, a.pid, w.procs[a.pid]);
      assert Step(w, a).procs[a.pid].Filling?;
    }
  }

  lemma StepInv(w: World, a: Action)
    requires Inv(w)
    ensures Inv(Step(w, a))
  {
    var w' := Step(w, a);
    SecretStays(w, a);
    forall p | p in w'.procs
      ensures ProcSound(w', p, w'.procs[p])
    {
      if p == a.pid {
        MoverStaysSound(w, a);
      } else {
        OthersStaySound(w, a, p);
      }
    }
    forall p, q | p in w'.procs && q in w'.procs && p != q
      ensures Compatible(w'.procs[p], w'.procs[q])
    {
      LocksStayApart(w, a, p, q);
    }
    if w'.path.Some? && ContentAt(w', w'.path.value) == Half {
      HalfHasAWriter(w, a);
    }
    GeneratorTracks(w, a);
  }

  lemma GeneratorTracks(w: World, a: Action)
    requires Inv(w)
    ensures Step(w, a).path.Some? ==> Step(w, a).path.value in Step(w, a).contents
    ensures Step(w, a).generator.Some? <==> Secret(Step(w, a)).Some?
    ensures w.generator.Some? ==> Step(w, a).generator == w.generator
  {
    SecretStays(w, a);
    if a.pid in w.procs {
      assert ProcSound(w, a.pid, w.procs[a.pid]);
    }
  }

  lemma {:induction false} RunInv(w: World, acts: seq<Action>)
    requires Inv(w)
    ensures Inv(Run(w, acts))
    ensures Secret(w).Some? ==> Secret(Run(w, acts)) == Secret(w)
    decreases |acts|
  {
    if acts != [] {
      StepInv(w, acts[0]);
      SecretStays(w, acts[0]);
      RunInv(Step(w, acts[0]), acts[1..]);
    }
  }

  lemma StartInv(w: World)
    requires Starting(w)
    ensures Inv(w)
  {
  }

  /** The agreement theorem: from an absent or blank path, in every interleaving
      and with any crashes, every process that returns, returns the secret the file
      holds; at most one says it generated it; and none runs out of attempts. */
  lemma EveryoneAgrees(w: World, acts: seq<Action>)
    requires Starting(w)
    ensures var s := Run(w, acts);
            && (forall p | p in s.procs :: s.procs[p] != GaveUp)
            && (forall p | p in s.procs && s.procs[p].Settled? ::
                  Secret(s) == Some(s.procs[p].outcome.token))
            && (forall p, q | p in s.procs && q in s.procs && s.procs[p].Settled? && s.procs[q].Settled?
                              && s.procs[p].outcome.Generated? && s.procs[q].outcome.Generated? :: p == q)
  {
    StartInv(w);
    RunInv(w, acts);
    var s := Run(w, acts);
    forall p | p in s.procs
      ensures s.procs[p] != GaveUp
      ensures s.procs[p].Settled? ==> Secret(s) == Some(s.procs[p].outcome.token)
      ensures s.procs[p].Settled? && s.procs[p].outcome.Generated? ==> s.generator == Some(p)
    {
      assert ProcSound(s, p, s.procs[p]);
    }
  }

  /** And what one process returned, every later return and the file repeat. */
  lemma AgreementLasts(w: World, acts: seq<Action>, more: seq<Action>, p: Pid)
    requires Starting(w) && p in Run(w, acts).procs && Run(w, acts).procs[p].Settled?
    ensures Secret(Run(Run(w, acts), more)) == Some(Run(w, acts).procs[p].outcome.token)
  {
    EveryoneAgrees(w, acts);
    StartInv(w);
    RunInv(w, acts);
    RunInv(Run(w, acts), more);
  }

  /** No read under the shared lock meets a bearer half-written. */
  lemma LockedReadsAreWhole(w: World, acts: seq<Action>, p: Pid)
    requires Starting(w) && p in Run(w, acts).procs && Run(w, acts).procs[p].Reading?
    ensures ContentAt(Run(w, acts), Run(w, acts).procs[p].file) != Half
  {
    StartInv(w);
    RunInv(w, acts);
    assert ProcSound(Run(w, acts), p, Run(w, acts).procs[p]);
  }

  // -------------------------------------------------------------------------
  // One process

  datatype Refusal = PathKeptChanging

  class BearerFile {
    var w: World
    ghost const start: World
    ghost var acts: seq<Action>

    ghost predicate Valid()
      reads this
    {
      Inv(w) && w == Run(start, acts)
    }

    constructor (found: World)
      requires Starting(found)
      ensures Valid() && w == found && acts == []
    {
      w, start, acts := found, found, [];
      new;
      StartInv(found);
    }

    /** One step, of any process. */
    method Apply(a: Action)
      requires Valid()
      modifies this
      ensures Valid() && w == Step(old(w), a)
      ensures MovedOnly(old(w), w, a.pid)
    {
      StepInv(w, a);
      StepMovesOne(w, a);
      RunAppend(start, acts, a);
      w, acts := Step(w, a), acts + [a];
    }

    /** The other processes, any number of steps. */
    method Others(pid: Pid)
      requires Valid() && pid in w.procs
      modifies this
      ensures Valid() && pid in w.procs && w.procs[pid] == old(w).procs[pid]
      ensures old(w).path.Some? ==> w.path == old(w).path
    {
      var n: int :| n >= 0;
      for i := 0 to n
        invariant Valid() && pid in w.procs && w.procs[pid] == old(w).procs[pid]
        invariant old(w).path.Some? ==> w.path == old(w).path
      {
        var a: Action := *;
        if a.pid != pid {
          Apply(a);
        }
      }
    }

    /** `flock` blocks until whoever holds the exclusive lock lets go of it; a
        holder is never itself waiting, so it can always be run to that point. */
    method AwaitFill(pid: Pid, file: Inode)
      requires Valid() && pid in w.procs && !HoldsExclusive(w.procs[pid], file)
      modifies this
      ensures Valid() && pid in w.procs && w.procs[pid] == old(w).procs[pid] && SharedFree(w, file)
      ensures old(w).path.Some? ==> w.path == old(w).path
    {
      Others(pid);
      if q :| q in w.procs && HoldsExclusive(w.procs[q], file) {
        OneHolder(w, q, file);
        Release(q, file);
      }
    }

    /** Whoever holds the exclusive lock can finish and let go of it. */
    method Release(q: Pid, file: Inode)
      requires Valid() && q in w.procs && HoldsExclusive(w.procs[q], file) && w.path == Some(file)
      modifies this
      ensures Valid() && MovedOnly(old(w), w, q) && q in w.procs && !HoldsExclusive(w.procs[q], file)
    {
      if w.procs[q].FillLocked? {
        var token: nat :| true;
        Apply(Check(q, token));
      }
      if w.procs[q].Filling? {
        Apply(FinishFill(q));
      }
    }

    /** ... and for an exclusive lock, until every reader is done as well. */
    method AwaitAlone(pid: Pid, file: Inode)
      requires Valid() && pid in w.procs && !HoldsExclusive(w.procs[pid], file) && !HoldsShared(w.procs[pid], file)
      modifies this
      ensures Valid() && pid in w.procs && w.procs[pid] == old(w).procs[pid] && ExclusiveFree(w, file)
      ensures old(w).path.Some? ==> w.path == old(w).path
    {
      AwaitFill(pid, file);
      var readers := set q | q in w.procs && HoldsShared(w.procs[q], file);
      while readers != {}
        invariant Valid() && pid in w.procs && w.procs[pid] == old(w).procs[pid] && SharedFree(w, file)
        invariant pid !in readers && readers <= w.procs.Keys
        invariant forall q | q in w.procs && q !in readers :: !HoldsShared(w.procs[q], file)
        invariant old(w).path.Some? ==> w.path == old(w).path
        decreases |readers|
      {
        var q :| q in readers;
        ReaderLeaves(w, q, file);
        Apply(FinishRead(q));
        readers := readers - {q};
      }
    }

    method SettleBearer(pid: Pid) returns (r: Result<Outcome, Refusal>)
      requires Valid() && pid !in w.procs
      modifies this
      ensures Valid() && pid in w.procs
      // The failure after four attempts is unreachable.
      ensures r.Ok? && w.procs[pid] == Settled(r.value) && Secret(w) == Some(r.value.token)
    {
      Apply(Start(pid));
      for attempt := 0 to BEARER_ATTEMPTS
        invariant Valid() && pid in w.procs
        invariant w.procs[pid] == if attempt < BEARER_ATTEMPTS then Trying(attempt) else GaveUp
      {
        Others(pid);
        var token: nat :| true;
        Apply(Open(pid, token));
        var settled;
        if w.procs[pid].Drafted? {
          settled := CreateBearer(pid);
        } else {
          var read := ReadBearer(pid);
          if read.Some? {
            assert ProcSound(w, pid, w.procs[pid]);
            return Ok(Found(read.value));
          }
          settled := FillBlankBearer(pid);
        }
        if settled.Some? {
          assert ProcSound(w, pid, w.procs[pid]);
          return Ok(settled.value);
        }
      }
      assert false;
      return Err(PathKeptChanging);
    }

    /** Under the shared lock: the bearer, or nothing if the file is blank. */
    method ReadBearer(pid: Pid) returns (token: Option<Token>)
      requires Valid() && pid in w.procs && w.procs[pid].Opened?
      modifies this
      ensures Valid() && pid in w.procs
      ensures w.procs[pid] == if token.Some? then Settled(Found(token.value)) else SawBlank(old(w).procs[pid].attempt)
    {
      var file := w.procs[pid].file;
      AwaitFill(pid, file);
      Apply(LockShared(pid));
      Others(pid);
      var content := ContentAt(w, file);
      Apply(FinishRead(pid));
      token := if content.Whole? then Some(content.token) else None;
    }

    /** The path was absent: publish the draft only if it still is. */
    method CreateBearer(pid: Pid) returns (settled: Option<Outcome>)
      requires Valid() && pid in w.procs && w.procs[pid].Drafted?
      modifies this
      ensures Valid() && pid in w.procs
      ensures w.procs[pid] == if settled.Some? then Settled(settled.value) else NextTry(old(w).procs[pid].attempt)
    {
      var token := w.procs[pid].token;
      Others(pid);
      var free := w.path.None?;
      var inode := UnusedInode(w.contents.Keys);
      Apply(Link(pid, inode));
      settled := if free then Some(Generated(token)) else None;
    }

    /** The path held a blank file: fill it, or find out who did. */
    method FillBlankBearer(pid: Pid) returns (settled: Option<Outcome>)
      requires Valid() && pid in w.procs && w.procs[pid].SawBlank?
      modifies this
      ensures Valid() && pid in w.procs
      ensures w.procs[pid] == if settled.Some? then Settled(settled.value) else NextTry(old(w).procs[pid].attempt)
    {
      Others(pid);
      var there := w.path;
      Apply(OpenToFill(pid));
      if there.None? {
        return None;
      }
      settled := FillOpenedBearer(pid);
    }

    /** From the lock on: is the path still this file, and is it still blank? */
    method FillOpenedBearer(pid: Pid) returns (settled: Option<Outcome>)
      requires Valid() && pid in w.procs && w.procs[pid].FillOpened?
      modifies this
      ensures Valid() && pid in w.procs
      ensures w.procs[pid] == if settled.Some? then Settled(settled.value) else NextTry(old(w).procs[pid].attempt)
    {
      var file := w.procs[pid].file;
      AwaitAlone(pid, file);
      Apply(LockExclusive(pid));
      settled := FillLockedBearer(pid, file);
    }

    method FillLockedBearer(pid: Pid, file: Inode) returns (settled: Option<Outcome>)
      requires Valid() && pid in w.procs && w.procs[pid].FillLocked? && w.procs[pid].file == file
      modifies this
      ensures Valid() && pid in w.procs
      ensures w.procs[pid] == if settled.Some? then Settled(settled.value) else NextTry(old(w).procs[pid].attempt)
    {
      Others(pid);
      var same, content := w.path == Some(file), ContentAt(w, file);
      var token: nat :| true;
      Apply(Check(pid, token));
      if !same {
        return None;
      }
      if content.Whole? {
        return Some(Found(content.token));
      }
      Others(pid);
      Apply(FinishFill(pid));
      return Some(Generated(token));
    }
  }

  lemma {:induction false} RunAppend(w: World, acts: seq<Action>, a: Action)
    ensures Run(w, acts + [a]) == Step(Run(w, acts), a)
    decreases |acts|
  {
    if acts == [] {
      assert [a][1..] == [] && acts + [a] == [a];
      assert Run(w, [a]) == Run(Step(w, a), []);
    } else {
      assert (acts + [a])[1..] == acts[1..] + [a];
      RunAppend(Step(w, acts[0]), acts[1..], a);
    }
  }

  /** The draft is a new file, so its inode is one nothing else has. */
  method UnusedInode(used: set<Inode>) returns (inode: Inode)
    ensures inode !in used
  {
    var left := used;
    inode := 0;
    while left != {}
      invariant left <= used && forall i | i in used :: i in left || i < inode
      decreases |left|
    {
      var i :| i in left;
      inode, left := Max(inode, i + 1), left - {i};
    }
  }
}
