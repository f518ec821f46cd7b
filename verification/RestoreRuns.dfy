/** The restore at start-up with any number of stops around it. No forward can be started yet:
    peers are known only once the hub answers, and the daemon connects after restoring. */
module RestoreRuns {
  import opened Basics
  import opened Forwards
  import opened ForwardThreads

  /** A start-up: any list of records, nothing bound, thread r restores once, each port granted or
      not, and the other threads stop forwards. */
  ghost predicate StartUp(ss: seq<State>, ms: seq<Move>, r: Tid) {
    && Run(ss, ms) && ss[0].shared.lns == map[]
    && forall i :: 0 <= i < |ms| ==> Fits(ms[i], r)
  }

  /** Thread r only restores, the others only stop. */
  ghost predicate Fits(m: Move, r: Tid) {
    m.Begin? ==> if m.t == r then m.job.Starting? else m.job.Stopping?
  }

  /** Before move n the operating system grants thread r every port it asks for. */
  ghost predicate AllGranted(ms: seq<Move>, n: nat, r: Tid) {
    forall i :: 0 <= i < n <= |ms| && ms[i].Go? && ms[i].t == r ==> ms[i].ok
  }

  /** Move m takes port p out of the table and its record with it. */
  predicate Stops(s: State, m: Move, p: int) {
    m.Go? && PcOf(s, m.t) == Stopping(p)
  }

  /** Move m puts the listener the restore bound for port p into the table. */
  predicate Inserts(s: State, m: Move, p: int) {
    m.Go? && PcOf(s, m.t).Rebound? && PcOf(s, m.t).local == p
  }

  /** Thread r copies the saved list. */
  predicate Copies(s: State, m: Move, r: Tid) {
    m.Go? && m.t == r && PcOf(s, r).Starting?
  }

  /** Every thread but r only stops. */
  ghost predicate OnlyStops(s: State, r: Tid) {
    forall t :: t != r ==> PcOf(s, t).Stopping? || PcOf(s, t).Taking? || PcOf(s, t).Done?
  }

  /** Where thread r is once it has copied the list and dealt with its first j records. */
  ghost predicate Place(pc: Pc, fs: seq<Forward>, j: nat) {
    j <= |fs| &&
    match pc
    case Restoring(rest) => rest == fs[j..]
    case Rebound(local, _, rest) => j < |fs| && 0 < local == fs[j].local && rest == fs[j + 1..]
    case Done => j == |fs|
    case _ => false
  }

  /** Only ports thread r has bound are bound. */
  ghost predicate BoundOnly(s: State, r: Tid, fs: seq<Forward>, j: nat)
    requires j <= |fs|
  {
    forall p :: p in s.shared.bound ==>
      p in Locals(fs[..j]) || (PcOf(s, r).Rebound? && PcOf(s, r).local == p)
  }

  // --- before the copy --------------------------------------------------------------------

  ghost predicate Before(s: State, r: Tid) {
    && (r in s.pc ==> s.pc[r].Starting?)
    && (forall t :: t != r ==> PcOf(s, t).Stopping? || PcOf(s, t).Done?)
    && s.shared.lns == map[] && s.shared.bound == map[]
  }

  lemma BeforeStep(s: State, m: Move, r: Tid)
    requires Before(s, r) && Enabled(s, m) && Fits(m, r) && !Copies(s, m, r)
    ensures Before(Apply(s, m), r)
  {
    var s' := Apply(s, m);
    forall t | t != m.t
      ensures PcOf(s', t) == PcOf(s, t)
    {
      OthersWait(s, m, t);
    }
    if m.Go? {
      assert PcOf(s, m.t).Stopping?;
      hide Without;
      assert s.shared.lns - {PcOf(s, m.t).local} == s.shared.lns;
    }
  }

  // --- after the copy --------------------------------------------------------------------

  lemma CopyStep(s: State, m: Move, r: Tid)
    requires Before(s, r) && Enabled(s, m) && Copies(s, m, r)
    ensures var s' := Apply(s, m);
      && s'.shared == s.shared && OnlyStops(s', r)
      && Place(PcOf(s', r), s.shared.recs, 0) && BoundOnly(s', r, s.shared.recs, 0)
  {
    var s' := Apply(s, m);
    forall t | t != m.t
      ensures PcOf(s', t) == PcOf(s, t)
    {
      OthersWait(s, m, t);
    }
    assert s.shared.recs[0..] == s.shared.recs;
  }

  lemma StopsOnly(s: State, m: Move, r: Tid)
    requires OnlyStops(s, r) && Enabled(s, m) && Fits(m, r)
    ensures OnlyStops(Apply(s, m), r)
  {
    hide Without;
    forall t | t != r
      ensures PcOf(Apply(s, m), t).Stopping? || PcOf(Apply(s, m), t).Taking? || PcOf(Apply(s, m), t).Done?
    {
      if t != m.t {
        OthersWait(s, m, t);
      }
    }
  }

  /** A move of thread r after the copy. */
  lemma RestorerMoves(s: State, m: Move, r: Tid, fs: seq<Forward>, j: nat) returns (k: nat)
    requires Enabled(s, m) && Fits(m, r) && m.t == r && Place(PcOf(s, r), fs, j) && r in s.pc
    requires BoundOnly(s, r, fs, j) && TableOk(s) && HoldersOk(s)
    ensures m.Go? && j <= k <= j + 1 && k <= |fs|
    ensures Place(PcOf(Apply(s, m), r), fs, k) && BoundOnly(Apply(s, m), r, fs, k)
    ensures m.ok && Saved(fs) ==> k == j || Inserts(s, m, fs[j].local)
  {
    hide Locals, TableOk;
    k := if PcOf(s, r).Rebound? || Passed(s, m, r) then j + 1 else j;
    if j < |fs| {
      LocalsMore(fs, j);
      if Saved(fs) { LocalsSnoc(fs, j); }
      assert fs[j] in fs && fs[j..][0] == fs[j] && fs[j..][1..] == fs[j + 1..];
    }
    match PcOf(s, r)
    case Restoring(rest) =>
    case Rebound(local, ln, rest) => assert Held(PcOf(s, r)).Some?;
    case Done =>
  }

  /** Thread r leaves a record without a listener. */
  predicate Passed(s: State, m: Move, r: Tid) {
    && m.Go? && PcOf(s, r).Restoring? && PcOf(s, r).rest != []
    && (PcOf(s, r).rest[0].local <= 0 || !Granted(s.shared, PcOf(s, r).rest[0].local, m.ok))
  }

  /** A move of another thread binds nothing. */
  lemma OthersMove(s: State, m: Move, r: Tid, fs: seq<Forward>, j: nat)
    requires Enabled(s, m) && Fits(m, r) && m.t != r && OnlyStops(s, r) && j <= |fs| && BoundOnly(s, r, fs, j)
    ensures PcOf(Apply(s, m), r) == PcOf(s, r) && BoundOnly(Apply(s, m), r, fs, j)
  {
    hide Locals, Without;
    OthersWait(s, m, r);
  }

  /** What a move does to one port's listener and to the records: an insert brings the listener into
      the table, a stop takes it and the port's records out, and nothing else changes either. */
  lemma PortChange(s: State, m: Move, r: Tid, p: int)
    requires Enabled(s, m) && Fits(m, r) && OnlyStops(s, r) && HoldersOk(s)
    requires !PcOf(s, r).Wanting? && !PcOf(s, r).Checked? && !PcOf(s, r).Bound?
    ensures p in Apply(s, m).shared.lns <==> Inserts(s, m, p) || (p in s.shared.lns && !Stops(s, m, p))
    ensures Apply(s, m).shared.recs == Select(s.shared.recs, Spared(s, m))
  {
    assert Held(PcOf(s, m.t)).Some? ==> Held(PcOf(s, m.t)).value.0 !in s.shared.lns;
    if m.Go? && PcOf(s, m.t).Stopping? {
      var local := PcOf(s, m.t).local;
      SelectSame(s.shared.recs, (f: Forward) => f.local != local, Spared(s, m));
    } else {
      SelectAll(s.shared.recs, Spared(s, m));
    }
    hide Select;
  }

  /** The records whose port move m does not stop. */
  ghost function Spared(s: State, m: Move): Forward -> bool {
    (f: Forward) => !Stops(s, m, f.local)
  }

  // --- runs ----------------------------------------------------------------------------------

  /** Until a copy happens, nothing is bound. */
  lemma {:induction false} RunBefore(ss: seq<State>, ms: seq<Move>, n: nat, r: Tid)
    requires StartUp(ss, ms, r) && n < |ss| && forall i :: 0 <= i < n ==> !Copies(ss[i], ms[i], r)
    ensures Before(ss[n], r)
  {
    hide Enabled, Apply, Before, Copies, Fits;
    if n == 0 {
      NothingYet(ss[0], r);
    } else {
      RunBefore(ss, ms, n - 1, r);
      BeforeStep(ss[n - 1], ms[n - 1], r);
    }
  }

  lemma NothingYet(s: State, r: Tid)
    requires s.pc == map[] && s.shared.lns == map[] && s.shared.bound == map[]
    ensures Before(s, r)
  {}

  /** Move c is the first copy. */
  ghost predicate CopiedAt(ss: seq<State>, ms: seq<Move>, c: nat, r: Tid) {
    && |ss| == |ms| + 1 && c < |ms| && Copies(ss[c], ms[c], r)
    && forall i :: 0 <= i < c ==> !Copies(ss[i], ms[i], r)
  }

  /** The first q records of the copied list have all been put into the table since. */
  ghost predicate AllInserted(ss: seq<State>, ms: seq<Move>, c: nat, n: nat, j: nat)
    requires |ss| == |ms| + 1 && c < n < |ss| && j <= |ss[c].shared.recs|
  {
    forall q :: 0 <= q < j ==> WasInserted(ss, ms, c, n, ss[c].shared.recs[q].local)
  }

  ghost predicate WasInserted(ss: seq<State>, ms: seq<Move>, c: nat, n: nat, p: int)
    requires |ss| == |ms| + 1 && n < |ss|
  {
    exists i: nat :: InsertedAt(ss, ms, c, n, i, p)
  }

  ghost predicate InsertedAt(ss: seq<State>, ms: seq<Move>, c: nat, n: nat, i: nat, p: int)
    requires |ss| == |ms| + 1 && n < |ss|
  {
    c < i < n && Inserts(ss[i], ms[i], p)
  }

  ghost predicate Progress(ss: seq<State>, ms: seq<Move>, c: nat, n: nat, j: nat, r: Tid)
    requires |ss| == |ms| + 1 && c < n < |ss|
  {
    var s, fs := ss[n], ss[c].shared.recs;
    && j <= |fs| && r in s.pc && OnlyStops(s, r) && Place(PcOf(s, r), fs, j) && BoundOnly(s, r, fs, j)
    && (Saved(fs) && AllGranted(ms, n, r) ==> AllInserted(ss, ms, c, n, j))
  }

  lemma {:induction false} RunRestored(ss: seq<State>, ms: seq<Move>, c: nat, n: nat, r: Tid) returns (j: nat)
    requires StartUp(ss, ms, r) && CopiedAt(ss, ms, c, r) && c < n < |ss|
    ensures Progress(ss, ms, c, n, j, r)
  {
    hide Enabled, Apply, Saved, Copies, Fits, Owned;
    var s, m, fs := ss[n - 1], ms[n - 1], ss[c].shared.recs;
    assert Enabled(s, m) && ss[n] == Apply(s, m) && Fits(m, r);
    if n - 1 == c {
      RunBefore(ss, ms, c, r);
      AfterCopy(s, m, r);
      j := 0;
    } else {
      j := RunRestored(ss, ms, c, n - 1, r);
      RunOwned(ss, ms, n - 1);
      j := RestoredMore(ss, ms, c, n - 1, n, j, r);
    }
  }

  lemma AfterCopy(s: State, m: Move, r: Tid)
    requires Before(s, r) && Enabled(s, m) && Copies(s, m, r)
    ensures var s' := Apply(s, m);
      && r in s'.pc && OnlyStops(s', r)
      && Place(PcOf(s', r), s.shared.recs, 0) && BoundOnly(s', r, s.shared.recs, 0)
  {
    CopyStep(s, m, r);
  }

  lemma RestoredMore(ss: seq<State>, ms: seq<Move>, c: nat, m: nat, n: nat, j: nat, r: Tid) returns (k: nat)
    requires StartUp(ss, ms, r) && c < m && m + 1 == n < |ss| && Progress(ss, ms, c, m, j, r) && Owned(ss[m])
    ensures Progress(ss, ms, c, n, k, r)
  {
    hide Enabled, Apply, Saved, Fits, Place, OnlyStops, Inserts, TableOk, HoldersOk, AloneOk, AllHeld;
    var s, mv, fs := ss[m], ms[m], ss[c].shared.recs;
    MoveAt(ss, ms, m, r);
    StopsOnly(s, mv, r);
    StillIn(s, mv, r);
    if mv.t == r {
      k := RestorerMoves(s, mv, r, fs, j);
    } else {
      OthersMove(s, mv, r, fs, j);
      k := j;
    }
    forall q | 0 <= q < k && Saved(fs) && AllGranted(ms, n, r)
      ensures WasInserted(ss, ms, c, n, ss[c].shared.recs[q].local)
    {
      assert AllGranted(ms, m, r);
      if q < j {
        var i: nat :| InsertedAt(ss, ms, c, m, i, fs[q].local);
        assert InsertedAt(ss, ms, c, n, i, fs[q].local);
      } else {
        assert InsertedAt(ss, ms, c, n, m, fs[q].local);
      }
    }
  }

  lemma MoveAt(ss: seq<State>, ms: seq<Move>, m: nat, r: Tid)
    requires StartUp(ss, ms, r) && m < |ms|
    ensures |ss| == |ms| + 1 && Enabled(ss[m], ms[m]) && ss[m + 1] == Apply(ss[m], ms[m]) && Fits(ms[m], r)
  {
    hide Enabled, Apply, Fits;
  }

  lemma StillIn(s: State, m: Move, r: Tid)
    requires r in s.pc
    ensures r in Apply(s, m).pc
  {
    hide Listened, Inserted, Taken, Restored, Closed, Without;
  }

  // --- when records and listeners match ---------------------------------------------------------

  /** Port p is not stopped after move a and before move n. */
  ghost predicate NoStop(ss: seq<State>, ms: seq<Move>, a: nat, n: nat, p: int)
    requires |ss| == |ms| + 1 && n < |ss|
  {
    forall k :: a < k < n ==> !Stops(ss[k], ms[k], p)
  }

  ghost predicate Back(ss: seq<State>, ms: seq<Move>, c: nat, n: nat, i: nat, p: int)
    requires |ss| == |ms| + 1 && n < |ss|
  {
    InsertedAt(ss, ms, c, n, i, p) && NoStop(ss, ms, i, n, p)
  }

  /** The records whose port is not stopped after move a and before move n. */
  ghost function Unstopped(ss: seq<State>, ms: seq<Move>, a: nat, n: nat): Forward -> bool
    requires |ss| == |ms| + 1 && n < |ss|
  {
    (f: Forward) => NoStop(ss, ms, a, n, f.local)
  }

  /** After the copy a port is in the table exactly when it was inserted and not stopped since, and
      the records are those of the copy, in order, whose ports were not stopped since. */
  lemma {:induction false} PortState(ss: seq<State>, ms: seq<Move>, c: nat, n: nat, p: int, r: Tid)
    requires StartUp(ss, ms, r) && CopiedAt(ss, ms, c, r) && c < n < |ss|
    ensures p in ss[n].shared.lns <==> exists i: nat :: Back(ss, ms, c, n, i, p)
    ensures ss[n].shared.recs == Select(ss[c].shared.recs, Unstopped(ss, ms, c, n))
  {
    hide Enabled, Apply, Copies, Fits, Owned, Stops, Inserts, Select;
    if n == c + 1 {
      RunBefore(ss, ms, c, r);
      MoveAt(ss, ms, c, r);
      CopyChangesNothing(ss[c], ms[c], r);
      SelectAll(ss[c].shared.recs, Unstopped(ss, ms, c, n));
    } else {
      var m := n - 1;
      PortState(ss, ms, c, m, p, r);
      var j := RunRestored(ss, ms, c, m, r);
      RunOwned(ss, ms, m);
      MoveAt(ss, ms, m, r);
      PortChanges(ss[m], ms[m], r, ss[c].shared.recs, j, p);
      BackMore(ss, ms, c, m, n, p);
      SelectTwice(ss[c].shared.recs, Unstopped(ss, ms, c, m), Spared(ss[m], ms[m]), Unstopped(ss, ms, c, n));
    }
  }

  lemma CopyChangesNothing(s: State, m: Move, r: Tid)
    requires Before(s, r) && Enabled(s, m) && Copies(s, m, r)
    ensures Apply(s, m).shared == s.shared && s.shared.lns == map[]
  {}

  lemma PortChanges(s: State, m: Move, r: Tid, fs: seq<Forward>, j: nat, p: int)
    requires Enabled(s, m) && Fits(m, r) && OnlyStops(s, r) && Owned(s) && Place(PcOf(s, r), fs, j)
    ensures p in Apply(s, m).shared.lns <==> Inserts(s, m, p) || (p in s.shared.lns && !Stops(s, m, p))
    ensures Apply(s, m).shared.recs == Select(s.shared.recs, Spared(s, m))
  {
    hide Enabled, Apply, Fits, OnlyStops, Stops, Inserts, Select;
    PortChange(s, m, r, p);
  }

  lemma BackMore(ss: seq<State>, ms: seq<Move>, c: nat, m: nat, n: nat, p: int)
    requires |ss| == |ms| + 1 && c < m && m + 1 == n < |ss|
    ensures (exists i: nat :: Back(ss, ms, c, n, i, p)) <==>
      Inserts(ss[m], ms[m], p) || ((exists i: nat :: Back(ss, ms, c, m, i, p)) && !Stops(ss[m], ms[m], p))
  {
    hide Inserts, Stops;
    if Inserts(ss[m], ms[m], p) {
      assert Back(ss, ms, c, n, m, p);
    } else {
      forall i: nat
        ensures Back(ss, ms, c, n, i, p) <==> Back(ss, ms, c, m, i, p) && !Stops(ss[m], ms[m], p)
      {
      }
    }
  }

  /** Only saved ports come back, and only those that are ports. */
  lemma OnlySaved(ss: seq<State>, ms: seq<Move>, c: nat, n: nat, p: int, r: Tid)
    requires StartUp(ss, ms, r) && CopiedAt(ss, ms, c, r) && c < n < |ss| && p in ss[n].shared.lns
    ensures p > 0 && p in Locals(ss[c].shared.recs)
  {
    hide Enabled, Apply, Copies, Fits, Stops, Inserts, Run, Locals, Select;
    PortState(ss, ms, c, n, p, r);
    var i: nat :| Back(ss, ms, c, n, i, p);
    InsertedIsSaved(ss, ms, c, i, r, p);
  }

  /** A saved port whose last stop since the copy fell before the restore put its listener back. */
  ghost predicate CameBack(ss: seq<State>, ms: seq<Move>, c: nat, n: nat, k: nat, i: nat, p: int)
    requires |ss| == |ms| + 1 && n < |ss|
  {
    c < k < i < n && Stops(ss[k], ms[k], p) && Inserts(ss[i], ms[i], p) && NoStop(ss, ms, k, n, p)
  }

  ghost predicate Returned(ss: seq<State>, ms: seq<Move>, c: nat, n: nat, p: int)
    requires |ss| == |ms| + 1 && n < |ss|
  {
    exists k: nat, i: nat :: CameBack(ss, ms, c, n, k, i, p)
  }

  /** A saved port the restore has not put back, not stopped since the copy. */
  ghost predicate StillOut(ss: seq<State>, ms: seq<Move>, c: nat, n: nat, p: int)
    requires |ss| == |ms| + 1 && c < n < |ss|
  {
    p in Locals(ss[c].shared.recs) && NoStop(ss, ms, c, n, p) && !WasInserted(ss, ms, c, n, p)
  }

  /** Two saved records for one port, not stopped since the copy. */
  ghost predicate Doubled(ss: seq<State>, ms: seq<Move>, c: nat, n: nat, i: nat, j: nat)
    requires |ss| == |ms| + 1 && c < n < |ss|
  {
    var fs := ss[c].shared.recs;
    i < j < |fs| && fs[i].local == fs[j].local && NoStop(ss, ms, c, n, fs[i].local)
  }

  /** At any time after the copy records and listeners match exactly when no port came back after its
      last stop, no saved port is still out, and none was saved twice. */
  lemma MatchedIff(ss: seq<State>, ms: seq<Move>, c: nat, n: nat, r: Tid)
    requires StartUp(ss, ms, r) && CopiedAt(ss, ms, c, r) && c < n < |ss|
    ensures Matched(ss[n].shared) <==>
      && (forall p: int :: !Returned(ss, ms, c, n, p) && !StillOut(ss, ms, c, n, p))
      && (forall i: nat, j: nat :: !Doubled(ss, ms, c, n, i, j))
  {
    hide Enabled, Apply, Copies, Fits, Stops, Inserts, Run, Locals, Select, DistinctLocals, Returned, StillOut,
      Doubled;
    var s, keep := ss[n].shared, Unstopped(ss, ms, c, n);
    PortState(ss, ms, c, n, 0, r);
    SelectDistinctIff(ss[c].shared.recs, keep);
    NoneDoubled(ss, ms, c, n);
    forall p
      ensures PortMatched(s, p) <==> !Returned(ss, ms, c, n, p) && !StillOut(ss, ms, c, n, p)
    {
      PortMatches(ss, ms, c, n, r, p);
    }
    AllMatched(s);
  }

  ghost predicate PortMatched(s: Shared, p: int) {
    p in Locals(s.recs) <==> p in s.lns.Keys
  }

  lemma AllMatched(s: Shared)
    ensures Locals(s.recs) == s.lns.Keys <==> forall p :: PortMatched(s, p)
  {
    hide Locals;
    if forall p :: PortMatched(s, p) {
      forall p
        ensures p in Locals(s.recs) <==> p in s.lns.Keys
      {
        assert PortMatched(s, p);
      }
    }
  }

  lemma NoneDoubled(ss: seq<State>, ms: seq<Move>, c: nat, n: nat)
    requires |ss| == |ms| + 1 && c < n < |ss|
    ensures NoneTwice(ss[c].shared.recs, Unstopped(ss, ms, c, n)) <==>
      forall i: nat, j: nat :: !Doubled(ss, ms, c, n, i, j)
  {
    hide NoStop;
    var fs, keep := ss[c].shared.recs, Unstopped(ss, ms, c, n);
    if !NoneTwice(fs, keep) {
      var i, j :| 0 <= i < j < |fs| && keep(fs[i]) && fs[i].local == fs[j].local;
      assert Doubled(ss, ms, c, n, i, j);
    }
  }

  lemma PortMatches(ss: seq<State>, ms: seq<Move>, c: nat, n: nat, r: Tid, p: int)
    requires StartUp(ss, ms, r) && CopiedAt(ss, ms, c, r) && c < n < |ss|
    ensures PortMatched(ss[n].shared, p) <==> !Returned(ss, ms, c, n, p) && !StillOut(ss, ms, c, n, p)
  {
    hide Enabled, Apply, Copies, Fits, Stops, Inserts, Run, Locals, Select;
    PortState(ss, ms, c, n, p, r);
    LocalsLeft(ss[c].shared.recs, Unstopped(ss, ms, c, n), p, NoStop(ss, ms, c, n, p));
    if k: nat, i: nat :| CameBack(ss, ms, c, n, k, i, p) {
      assert Back(ss, ms, c, n, i, p);
    }
    if i: nat :| Back(ss, ms, c, n, i, p) {
      InsertedIsSaved(ss, ms, c, i, r, p);
      var k := StoppedBefore(ss, ms, c, n, i, p);
    } else if NoStop(ss, ms, c, n, p) {
      assert forall i: nat :: InsertedAt(ss, ms, c, n, i, p) ==> Back(ss, ms, c, n, i, p);
    }
  }

  lemma LocalsLeft(fs: seq<Forward>, keep: Forward -> bool, p: int, kept: bool)
    requires forall f :: f in fs && f.local == p ==> keep(f) == kept
    ensures p in Locals(Select(fs, keep)) <==> p in Locals(fs) && kept
  {
    forall f
      ensures f in Select(fs, keep) <==> f in fs && keep(f)
    {
      SelectMembers(fs, keep, f);
    }
  }

  /** Once a restore of a list as the daemon saves it is through, every port granted, nothing is
      still out; records and listeners then match exactly when no port came back after its last
      stop. */
  lemma GrantedMatchedIff(ss: seq<State>, ms: seq<Move>, c: nat, n: nat, r: Tid)
    requires StartUp(ss, ms, r) && CopiedAt(ss, ms, c, r) && c < n < |ss| && PcOf(ss[n], r).Done?
    requires Saved(ss[c].shared.recs) && AllGranted(ms, n, r)
    ensures Matched(ss[n].shared) <==> forall p: int :: !Returned(ss, ms, c, n, p)
  {
    hide Enabled, Apply, Copies, Fits, Stops, Inserts, Run, Locals, Returned, Matched;
    MatchedIff(ss, ms, c, n, r);
    assert Saved(ss[c].shared.recs) ==> forall i: nat, j: nat :: !Doubled(ss, ms, c, n, i, j);
    forall p
      ensures !StillOut(ss, ms, c, n, p)
    {
      if p in Locals(ss[c].shared.recs) {
        var i := SavedIsInserted(ss, ms, c, n, r, p);
      }
    }
  }

  /** A port that is back and was stopped since the copy was stopped before it came back. */
  lemma StoppedBefore(ss: seq<State>, ms: seq<Move>, c: nat, n: nat, i: nat, p: int) returns (k: nat)
    requires |ss| == |ms| + 1 && n < |ss| && Back(ss, ms, c, n, i, p)
    ensures NoStop(ss, ms, c, n, p) || CameBack(ss, ms, c, n, k, i, p)
  {
    hide Stops, Inserts;
    k := 0;
    if !NoStop(ss, ms, c, n, p) {
      k := LastStop(ss, ms, c, n, p);
      NotBoth(ss[i], ms[i], p);
    }
  }

  lemma NotBoth(s: State, m: Move, p: int)
    ensures !(Stops(s, m, p) && Inserts(s, m, p))
  {}

  lemma {:induction false} LastStop(ss: seq<State>, ms: seq<Move>, c: nat, n: nat, p: int) returns (k: nat)
    requires |ss| == |ms| + 1 && n < |ss| && !NoStop(ss, ms, c, n, p)
    ensures c < k < n && Stops(ss[k], ms[k], p) && NoStop(ss, ms, k, n, p)
  {
    hide Stops;
    k := n - 1;
    if !Stops(ss[k], ms[k], p) {
      k := LastStop(ss, ms, c, n - 1, p);
    }
  }

  /** What the restore inserts is a saved port. */
  lemma InsertedIsSaved(ss: seq<State>, ms: seq<Move>, c: nat, i: nat, r: Tid, p: int)
    requires StartUp(ss, ms, r) && CopiedAt(ss, ms, c, r) && c < i < |ms| && Inserts(ss[i], ms[i], p)
    ensures p > 0 && p in Locals(ss[c].shared.recs)
  {
    hide Enabled, Apply, Copies, Fits, Saved, Run, BoundOnly;
    var j := RunRestored(ss, ms, c, i, r);
    assert ms[i].t == r;
    assert ss[c].shared.recs[j] in ss[c].shared.recs;
  }

  lemma SavedIsInserted(ss: seq<State>, ms: seq<Move>, c: nat, n: nat, r: Tid, p: int) returns (i: nat)
    requires StartUp(ss, ms, r) && CopiedAt(ss, ms, c, r) && c < n < |ss| && PcOf(ss[n], r).Done?
    requires Saved(ss[c].shared.recs) && AllGranted(ms, n, r) && p in Locals(ss[c].shared.recs)
    ensures InsertedAt(ss, ms, c, n, i, p)
  {
    hide Enabled, Apply, Copies, Fits, Saved, Run, BoundOnly, InsertedAt;
    var fs := ss[c].shared.recs;
    var j := RunRestored(ss, ms, c, n, r);
    var f :| f in fs && f.local == p;
    var q: nat :| q < |fs| && fs[q] == f;
    assert WasInserted(ss, ms, c, n, fs[q].local);
    i :| InsertedAt(ss, ms, c, n, i, p);
  }
}
