/** Any number of threads inside EnsureForward, StopForward and the restore at start-up,
    interleaved between critical sections. */
module ForwardThreads {
  import opened Basics
  import opened Forwards

  type Tid = int

  datatype Pc =
    | Wanting(f: Forward)                                   // EnsureForward: about to check the table
    | Checked(f: Forward)                                   // the port was not forwarded: about to bind
    | Bound(f: Forward, ln: nat)                            // bound: about to insert
    | Stopping(local: int)                                  // StopForward: about to take the listener out
    | Taking(local: int, ln: nat)                           // taken out: about to close it
    | Starting                                              // restore: about to copy the saved records
    | Restoring(rest: seq<Forward>)
    | Rebound(local: int, ln: nat, rest: seq<Forward>)      // restore: bound, about to insert
    | Discarding(local: int, ln: nat, rest: seq<Forward>)   // restore: already in the table, about to close
    | Done

  datatype State = State(shared: Shared, pc: map<Tid, Pc>)

  /** The next critical section of a thread, or the call it makes outside the lock. `ok` says
      whether the operating system would grant the port if nobody held it. */
  datatype Move = Begin(t: Tid, job: Pc) | Go(t: Tid, ok: bool)

  function PcOf(s: State, t: Tid): Pc {
    if t in s.pc then s.pc[t] else Done
  }

  predicate ValidPort(p: int) {
    0 < p <= 65535
  }

  predicate Job(pc: Pc) {
    (pc.Wanting? && ValidPort(pc.f.local)) || pc.Stopping? || pc.Starting?
  }

  ghost predicate Enabled(s: State, m: Move) {
    match m
    case Begin(t, job) => t !in s.pc && Job(job)
    case Go(t, _) => t in s.pc && !s.pc[t].Done?
  }

  function Set(s: State, t: Tid, shared: Shared, pc: Pc): State {
    State(shared, s.pc[t := pc])
  }

  function Granted(sh: Shared, port: int, ok: bool): bool {
    ok && port !in sh.bound
  }

  function Apply(s: State, m: Move): State {
    match m
    case Begin(t, job) => Set(s, t, s.shared, job)
    case Go(t, ok) =>
      var sh := s.shared;
      match PcOf(s, t)
      case Wanting(f) => Set(s, t, sh, if f.local in sh.lns then Done else Checked(f))
      case Checked(f) =>
        if Granted(sh, f.local, ok) then Set(s, t, Listened(sh, f.local), Bound(f, sh.next)) else Set(s, t, sh, Done)
      case Bound(f, ln) => Set(s, t, Inserted(sh, f, ln), Done)
      case Stopping(local) =>
        Set(s, t, Taken(sh, local), if local in sh.lns then Taking(local, sh.lns[local]) else Done)
      case Taking(local, _) => Set(s, t, Closed(sh, local), Done)
      case Starting => Set(s, t, sh, Restoring(sh.recs))
      case Restoring(rest) =>
        if rest == [] then Set(s, t, sh, Done)
        else if rest[0].local <= 0 || !Granted(sh, rest[0].local, ok) then Set(s, t, sh, Restoring(rest[1..]))
        else Set(s, t, Listened(sh, rest[0].local), Rebound(rest[0].local, sh.next, rest[1..]))
      case Rebound(local, ln, rest) =>
        if local in sh.lns then Set(s, t, sh, Discarding(local, ln, rest))
        else Set(s, t, Restored(sh, local, ln), Restoring(rest))
      case Discarding(local, _, rest) => Set(s, t, Closed(sh, local), Restoring(rest))
      case Done => s
  }

  // --- ownership ---------------------------------------------------------------------

  /** The listener a thread holds between two critical sections, with its port. */
  function Held(pc: Pc): Option<(int, nat)> {
    match pc
    case Bound(f, ln) => Some((f.local, ln))
    case Taking(local, ln) => Some((local, ln))
    case Rebound(local, ln, _) => Some((local, ln))
    case Discarding(local, ln, _) => Some((local, ln))
    case _ => None
  }

  predicate Holds(s: State, t: Tid, port: int) {
    Held(PcOf(s, t)).Some? && Held(PcOf(s, t)).value.0 == port
  }

  ghost predicate TableOk(s: State) {
    forall p :: p in s.shared.lns ==> p in s.shared.bound && s.shared.bound[p] == s.shared.lns[p]
  }

  ghost predicate HoldersOk(s: State) {
    forall t :: Held(PcOf(s, t)).Some? ==>
      var (p, ln) := Held(PcOf(s, t)).value;
      p in s.shared.bound && s.shared.bound[p] == ln && p !in s.shared.lns
  }

  ghost predicate AloneOk(s: State) {
    forall t, u, p :: Holds(s, t, p) && Holds(s, u, p) ==> t == u
  }

  ghost predicate AllHeld(s: State) {
    forall p :: p in s.shared.bound ==> p in s.shared.lns || exists t :: Holds(s, t, p)
  }

  /** Every bound port is held exactly once: by the table, or by one thread between binding and
      inserting, or by one thread between taking out and closing. */
  ghost predicate Owned(s: State) {
    TableOk(s) && HoldersOk(s) && AloneOk(s) && AllHeld(s)
  }

  lemma OthersWait(s: State, m: Move, u: Tid)
    requires Enabled(s, m) && u != m.t
    ensures PcOf(Apply(s, m), u) == PcOf(s, u)
  {
    hide Listened, Inserted, Taken, Restored, Closed, Without;
  }

  lemma TableStep(s: State, m: Move)
    requires TableOk(s) && HoldersOk(s) && Enabled(s, m)
    ensures TableOk(Apply(s, m))
  {
    hide Without;
    assert HoldersOk(s) ==> Held(PcOf(s, m.t)).Some? ==> Held(PcOf(s, m.t)).value.0 !in s.shared.lns;
  }

  /** The mover's own listener after the move. */
  lemma MoverStep(s: State, m: Move)
    requires TableOk(s) && HoldersOk(s) && Enabled(s, m)
    ensures var s' := Apply(s, m); var h := Held(PcOf(s', m.t));
      h.Some? ==> h.value.0 in s'.shared.bound && s'.shared.bound[h.value.0] == h.value.1 && h.value.0 !in s'.shared.lns
  {
    hide Without;
    assert HoldersOk(s) ==> Held(PcOf(s, m.t)).Some? ==> Held(PcOf(s, m.t)).value.0 !in s.shared.lns;
  }

  /** Nobody else's listener is touched. */
  lemma OtherStep(s: State, m: Move, u: Tid, p: int)
    requires TableOk(s) && HoldersOk(s) && AloneOk(s) && Enabled(s, m) && u != m.t && Holds(s, u, p)
    ensures p in Apply(s, m).shared.bound && Apply(s, m).shared.bound[p] == s.shared.bound[p]
    ensures p !in Apply(s, m).shared.lns && !Holds(Apply(s, m), m.t, p)
  {
    hide Without;
    assert !Holds(s, m.t, p);
  }

  /** A bound port does not fall out of everybody's hands. */
  lemma KeptStep(s: State, m: Move, p: int)
    requires TableOk(s) && HoldersOk(s) && Enabled(s, m)
    requires p in Apply(s, m).shared.bound && p !in Apply(s, m).shared.lns && !Holds(Apply(s, m), m.t, p)
    ensures p in s.shared.bound && p !in s.shared.lns && !Holds(s, m.t, p)
  {
    hide Without;
  }

  lemma OwnedStep(s: State, m: Move)
    requires Owned(s) && Enabled(s, m)
    ensures Owned(Apply(s, m))
  {
    var s' := Apply(s, m);
    hide Apply, Enabled;
    TableStep(s, m);
    MoverStep(s, m);
    forall u | u != m.t
      ensures PcOf(s', u) == PcOf(s, u)
    {
      OthersWait(s, m, u);
    }
    forall u, p | u != m.t && Holds(s, u, p)
      ensures p in s'.shared.bound && s'.shared.bound[p] == s.shared.bound[p] && p !in s'.shared.lns
      ensures !Holds(s', m.t, p)
    {
      OtherStep(s, m, u, p);
    }
    forall t | Held(PcOf(s', t)).Some?
      ensures var (p, ln) := Held(PcOf(s', t)).value;
        p in s'.shared.bound && s'.shared.bound[p] == ln && p !in s'.shared.lns
    {
      if t != m.t {
        assert Holds(s, t, Held(PcOf(s, t)).value.0);
      }
    }
    forall t, u, p | Holds(s', t, p) && Holds(s', u, p)
      ensures t == u
    {
      assert t != m.t ==> Holds(s, t, p);
      assert u != m.t ==> Holds(s, u, p);
    }
    forall p | p in s'.shared.bound
      ensures p in s'.shared.lns || exists t :: Holds(s', t, p)
    {
      if p !in s'.shared.lns && !Holds(s', m.t, p) {
        KeptStep(s, m, p);
        var t :| Holds(s, t, p);
        assert Holds(s', t, p);
      }
    }
  }

  // --- runs ------------------------------------------------------------------------------

  ghost predicate Steps(ss: seq<State>, ms: seq<Move>) {
    && |ss| == |ms| + 1
    && forall i :: 0 <= i < |ms| ==> Enabled(ss[i], ms[i]) && ss[i + 1] == Apply(ss[i], ms[i])
  }

  /** A run starts with no thread inside and every bound port in the table; at start-up nothing
      is bound and the table is empty, whatever records were saved. */
  ghost predicate Run(ss: seq<State>, ms: seq<Move>) {
    Steps(ss, ms) && ss[0].pc == map[] && ss[0].shared.lns == ss[0].shared.bound
  }

  lemma {:induction false} RunOwned(ss: seq<State>, ms: seq<Move>, n: nat)
    requires Run(ss, ms) && n < |ss|
    ensures Owned(ss[n])
    ensures forall t :: !PcOf(ss[n], t).Discarding?
  {
    hide Enabled, Apply, Owned;
    if n == 0 {
      StartOwned(ss[0]);
    } else {
      RunOwned(ss, ms, n - 1);
      OwnedStep(ss[n - 1], ms[n - 1]);
      NotDiscarding(ss[n - 1], ms[n - 1]);
    }
  }

  lemma StartOwned(s: State)
    requires s.pc == map[] && s.shared.lns == s.shared.bound
    ensures Owned(s) && forall t :: !PcOf(s, t).Discarding?
  {}

  lemma NotDiscarding(s: State, m: Move)
    requires Owned(s) && Enabled(s, m) && forall t :: !PcOf(s, t).Discarding?
    ensures forall t :: !PcOf(Apply(s, m), t).Discarding?
  {
    forall t
      ensures !PcOf(Apply(s, m), t).Discarding?
    {
      if t != m.t {
        OthersWait(s, m, t);
      } else {
        hide Without;
        assert Held(PcOf(s, t)).Some? ==> Held(PcOf(s, t)).value.0 !in s.shared.lns;
      }
    }
  }

  /** Every bound port has exactly one holder. */
  lemma ExactlyOneHolder(ss: seq<State>, ms: seq<Move>, n: nat, port: int)
    requires Run(ss, ms) && n < |ss| && port in ss[n].shared.bound
    ensures port in ss[n].shared.lns ==>
      ss[n].shared.lns[port] == ss[n].shared.bound[port] && forall t :: !Holds(ss[n], t, port)
    ensures port !in ss[n].shared.lns ==>
      exists t :: Holds(ss[n], t, port) && forall u :: Holds(ss[n], u, port) ==> u == t
  {
    hide Run;
    RunOwned(ss, ms, n);
  }

  /** The insert that does not check again never overwrites a listener, and the check the
      restore makes after binding never finds one. */
  lemma NeverOverwrites(ss: seq<State>, ms: seq<Move>, n: nat, t: Tid)
    requires Run(ss, ms) && n < |ss|
    ensures PcOf(ss[n], t).Bound? ==> PcOf(ss[n], t).f.local !in ss[n].shared.lns
    ensures PcOf(ss[n], t).Rebound? ==> PcOf(ss[n], t).local !in ss[n].shared.lns
    ensures PcOf(ss[n], t).Taking? ==> PcOf(ss[n], t).local in ss[n].shared.bound
    ensures PcOf(ss[n], t).Taking? ==> ss[n].shared.bound[PcOf(ss[n], t).local] == PcOf(ss[n], t).ln
  {
    hide Run;
    RunOwned(ss, ms, n);
    assert Held(PcOf(ss[n], t)).Some? ==> Held(PcOf(ss[n], t)).value.0 !in ss[n].shared.lns;
  }

  // --- records and listeners ------------------------------------------------------------

  predicate InRestore(pc: Pc) {
    pc.Starting? || pc.Restoring? || pc.Rebound? || pc.Discarding?
  }

  ghost predicate NoRestore(s: State) {
    forall t :: !InRestore(PcOf(s, t))
  }

  lemma MatchedStep(s: State, m: Move)
    requires Owned(s) && Matched(s.shared) && NoRestore(s) && Enabled(s, m)
    requires m.Begin? ==> !m.job.Starting?
    ensures Matched(Apply(s, m).shared) && NoRestore(Apply(s, m))
  {
    hide Without, Matched;
    forall t
      ensures !InRestore(PcOf(Apply(s, m), t))
    {
      if t != m.t {
        OthersWait(s, m, t);
      }
      assert !InRestore(PcOf(s, t));
    }
    if m.Go? {
      var sh := s.shared;
      match PcOf(s, m.t)
      case Bound(f, ln) =>
        assert Held(PcOf(s, m.t)).Some?;
        InsertedMatched(sh, f, ln);
      case Stopping(local) => TakenMatched(sh, local);
      case Checked(f) => SameTable(sh, Listened(sh, f.local));
      case Taking(local, _) => SameTable(sh, Closed(sh, local));
      case _ =>
    }
  }

  lemma SameTable(s: Shared, s': Shared)
    requires Matched(s) && s'.lns == s.lns && s'.recs == s.recs
    ensures Matched(s')
  {}

  /** From any state in which records and listeners match, every interleaving of EnsureForward
      and StopForward threads keeps them matched at every release of the lock. */
  lemma {:induction false} AlwaysMatched(ss: seq<State>, ms: seq<Move>, n: nat)
    requires Run(ss, ms) && n < |ss| && Matched(ss[0].shared)
    requires forall i :: 0 <= i < n && ms[i].Begin? ==> !ms[i].job.Starting?
    ensures Matched(ss[n].shared) && NoRestore(ss[n])
  {
    hide Enabled, Apply, Owned, Matched;
    if n == 0 {
      assert forall t :: PcOf(ss[0], t) == Done;
    } else {
      AlwaysMatched(ss, ms, n - 1);
      RunOwned(ss, ms, n - 1);
      MatchedStep(ss[n - 1], ms[n - 1]);
    }
  }

  // --- restore ----------------------------------------------------------------------------

  ghost predicate Saved(fs: seq<Forward>) {
    DistinctLocals(fs) && forall f :: f in fs ==> ValidPort(f.local)
  }

  /** How far thread t has got with the saved list when it runs alone: i records restored, and
      one more bound if it is between binding and inserting. */
  ghost predicate RestoredUpTo(s: State, t: Tid, fs: seq<Forward>, i: nat) {
    && i <= |fs| && s.pc.Keys == {t} && s.shared.recs == fs && s.shared.lns.Keys == Locals(fs[..i])
    && match s.pc[t]
       case Starting => i == 0 && s.shared.bound.Keys == {}
       case Restoring(rest) => rest == fs[i..] && s.shared.bound.Keys == Locals(fs[..i])
       case Rebound(local, _, rest) =>
         i < |fs| && local == fs[i].local && rest == fs[i + 1..] && s.shared.bound.Keys == Locals(fs[..i + 1])
       case Done => i == |fs|
       case _ => false
  }

  lemma LocalsMore(fs: seq<Forward>, i: nat)
    requires i < |fs|
    ensures Locals(fs[..i + 1]) == Locals(fs[..i]) + {fs[i].local}
  {
    assert fs[..i + 1] == fs[..i] + [fs[i]];
    assert fs[i] in fs[..i + 1];
    assert forall f :: f in fs[..i] ==> f in fs[..i + 1];
  }

  lemma LocalsSnoc(fs: seq<Forward>, i: nat)
    requires i < |fs| && DistinctLocals(fs)
    ensures Locals(fs[..i + 1]) == Locals(fs[..i]) + {fs[i].local}
    ensures fs[i].local !in Locals(fs[..i])
  {
    LocalsMore(fs, i);
    forall f | f in fs[..i]
      ensures f.local != fs[i].local
    {
      var j :| 0 <= j < i && fs[j] == f;
    }
  }

  lemma RestoreStep(s: State, t: Tid, fs: seq<Forward>, i: nat) returns (k: nat)
    requires Saved(fs) && RestoredUpTo(s, t, fs, i) && Enabled(s, Go(t, true))
    ensures RestoredUpTo(Apply(s, Go(t, true)), t, fs, k)
  {
    k := if s.pc[t].Rebound? then i + 1 else i;
    match s.pc[t]
    case Starting => RestoreBegins(s, t, fs);
    case Restoring(rest) => RestoreBinds(s, t, fs, i);
    case Rebound(local, ln, rest) => RestoreInserts(s, t, fs, i);
  }

  lemma RestoreBegins(s: State, t: Tid, fs: seq<Forward>)
    requires Saved(fs) && RestoredUpTo(s, t, fs, 0) && Enabled(s, Go(t, true)) && s.pc[t].Starting?
    ensures RestoredUpTo(Apply(s, Go(t, true)), t, fs, 0)
  {
    assert Locals(fs[..0]) == {};
    hide Locals;
    assert Apply(s, Go(t, true)).pc[t] == Restoring(fs) && fs[0..] == fs;
  }

  lemma RestoreBinds(s: State, t: Tid, fs: seq<Forward>, i: nat)
    requires Saved(fs) && RestoredUpTo(s, t, fs, i) && Enabled(s, Go(t, true)) && s.pc[t].Restoring?
    ensures RestoredUpTo(Apply(s, Go(t, true)), t, fs, i)
  {
    hide Locals;
    var s' := Apply(s, Go(t, true));
    if i < |fs| {
      LocalsSnoc(fs, i);
      assert fs[i] in fs;
      assert fs[i..][0] == fs[i] && fs[i..][1..] == fs[i + 1..];
      assert s'.pc[t] == Rebound(fs[i].local, s.shared.next, fs[i + 1..]);
      assert s'.shared.bound.Keys == s.shared.bound.Keys + {fs[i].local};
    }
  }

  lemma RestoreInserts(s: State, t: Tid, fs: seq<Forward>, i: nat)
    requires Saved(fs) && RestoredUpTo(s, t, fs, i) && Enabled(s, Go(t, true)) && s.pc[t].Rebound?
    ensures RestoredUpTo(Apply(s, Go(t, true)), t, fs, i + 1)
  {
    hide Locals;
    var s' := Apply(s, Go(t, true));
    LocalsSnoc(fs, i);
    assert s'.shared.lns.Keys == s.shared.lns.Keys + {fs[i].local};
  }

  /** Restoring a saved list alone, with every port free and granted, gives every record its
      listener. */
  lemma {:induction false} RestoreMatches(ss: seq<State>, ms: seq<Move>, n: nat, t: Tid) returns (k: nat)
    requires Run(ss, ms) && 0 < n < |ss| && ss[0].shared.lns == map[] && Saved(ss[0].shared.recs)
    requires ms[0] == Begin(t, Starting) && forall i :: 0 < i < |ms| ==> ms[i] == Go(t, true)
    ensures RestoredUpTo(ss[n], t, ss[0].shared.recs, k)
    ensures PcOf(ss[n], t).Done? ==> Matched(ss[n].shared)
  {
    var fs := ss[0].shared.recs;
    if n == 1 {
      k := 0;
      assert Locals(fs[..0]) == {};
      assert ss[1] == Apply(ss[0], ms[0]);
    } else {
      hide Enabled, Apply, RestoredUpTo, Saved;
      k := RestoreMatches(ss, ms, n - 1, t);
      k := RestoreStep(ss[n - 1], t, fs, k);
    }
    if PcOf(ss[n], t).Done? {
      RestoreDone(ss[n], t, fs, k);
    }
  }

  lemma RestoreDone(s: State, t: Tid, fs: seq<Forward>, k: nat)
    requires Saved(fs) && RestoredUpTo(s, t, fs, k) && PcOf(s, t).Done?
    ensures Matched(s.shared)
  {
    assert fs[..|fs|] == fs;
  }

  /** A run from a saved list at start-up that comes to rest with records and listeners apart. */
  ghost predicate EndsUnmatched(ss: seq<State>, ms: seq<Move>) {
    Run(ss, ms) && ss[0].shared.lns == map[] && Saved(ss[0].shared.recs)
    && (forall t :: PcOf(ss[|ms|], t) == Done) && !Matched(ss[|ms|].shared)
  }

  lemma Then(ss: seq<State>, ms: seq<Move>, m: Move, s: State) returns (ss': seq<State>, ms': seq<Move>)
    requires Run(ss, ms) && Enabled(ss[|ms|], m) && s == Apply(ss[|ms|], m)
    ensures Run(ss', ms') && |ms'| == |ms| + 1 && ss'[|ms'|] == s && ss'[0] == ss[0]
  {
    hide Enabled, Apply;
    ss', ms' := ss + [s], ms + [m];
  }

  lemma StartRun(sh: Shared) returns (ss: seq<State>, ms: seq<Move>)
    requires sh.lns == sh.bound
    ensures Run(ss, ms) && |ms| == 0 && ss[0] == State(sh, map[])
  {
    ss, ms := [State(sh, map[])], [];
  }

  lemma SelectNone(f: Forward, keep: Forward -> bool)
    requires !keep(f)
    ensures Select([f], keep) == []
  {
    assert [f][1..] == [];
  }

  /** The record is stopped after the restore has copied it. */
  lemma StoppedAfterCopy(f: Forward) returns (ss: seq<State>, ms: seq<Move>)
    requires f.local == 80
    ensures Run(ss, ms) && ss[0] == State(Shared(map[], [f], map[], 0), map[])
    ensures ss[|ms|] == State(Shared(map[], [], map[], 0), map[1 := Restoring([f]), 2 := Done])
  {
    hide Run;
    var sh, gone := Shared(map[], [f], map[], 0), Shared(map[], [], map[], 0);
    SelectNone(f, (g: Forward) => g.local != 80);
    var none: map<int, nat> := map[];
    assert none - {80} == none;
    assert Taken(sh, 80) == gone;
    hide Without, Taken, Inserted, Closed;
    ss, ms := StartRun(sh);
    ss, ms := Then(ss, ms, Begin(1, Starting), State(sh, map[1 := Starting]));
    ss, ms := Then(ss, ms, Go(1, true), State(sh, map[1 := Restoring([f])]));
    ss, ms := Then(ss, ms, Begin(2, Stopping(80)), State(sh, map[1 := Restoring([f]), 2 := Stopping(80)]));
    ss, ms := Then(ss, ms, Go(2, true), State(gone, map[1 := Restoring([f]), 2 := Done]));
  }

  /** The match is lost when a forward is stopped between the copy and its restoring: the
      listener comes back without its record. */
  lemma StopDuringRestore()
    ensures exists ss, ms :: EndsUnmatched(ss, ms)
  {
    hide Run, Without, Taken, Inserted, Closed, EndsUnmatched, Matched;
    var f := Forward(80, 80, "m", false);
    var reopened := Shared(map[], [], map[80 := 0], 1);
    var back := Shared(map[80 := 0], [], map[80 := 0], 1);
    var ss, ms := StoppedAfterCopy(f);
    assert [f][1..] == [];
    ss, ms := Then(ss, ms, Go(1, true), State(reopened, map[1 := Rebound(80, 0, []), 2 := Done]));
    ss, ms := Then(ss, ms, Go(1, true), State(back, map[1 := Restoring([]), 2 := Done]));
    ss, ms := Then(ss, ms, Go(1, true), State(back, map[1 := Done, 2 := Done]));
    LeftApart(ss, ms, f);
  }

  lemma LeftApart(ss: seq<State>, ms: seq<Move>, f: Forward)
    requires Run(ss, ms) && ss[0] == State(Shared(map[], [f], map[], 0), map[]) && f.local == 80
    requires ss[|ms|] == State(Shared(map[80 := 0], [], map[80 := 0], 1), map[1 := Done, 2 := Done])
    ensures EndsUnmatched(ss, ms)
  {
    assert 80 in ss[|ms|].shared.lns.Keys && 80 !in Locals([]);
  }
}
