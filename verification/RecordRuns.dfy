/** The records in runs of any threads: starts, stops and restores. */
module RecordRuns {
  import opened Basics
  import opened Forwards
  import opened ForwardThreads
  import opened RestoreRuns

  /** Move m adds a record for port p, with its listener. */
  predicate Adds(s: State, m: Move, p: int) {
    m.Go? && PcOf(s, m.t).Bound? && PcOf(s, m.t).f.local == p
  }

  ghost predicate AddedAt(ss: seq<State>, ms: seq<Move>, n: nat, i: nat, p: int)
    requires |ss| == |ms| + 1 && n < |ss|
  {
    i < n && Adds(ss[i], ms[i], p) && NoStop(ss, ms, i, n, p)
  }

  /** A record of port p was added and not stopped since. */
  ghost predicate Added(ss: seq<State>, ms: seq<Move>, n: nat, p: int)
    requires |ss| == |ms| + 1 && n < |ss|
  {
    exists i: nat :: AddedAt(ss, ms, n, i, p)
  }

  /** The first records are still those at the start that were not stopped, in order; behind them is
      one for every port added. */
  ghost predicate Split(ss: seq<State>, ms: seq<Move>, n: nat, later: seq<Forward>)
    requires |ss| == |ms| + 1 && n < |ss|
  {
    && ss[n].shared.recs == Select(ss[0].shared.recs, Unstopped(ss, ms, 0, n)) + later
    && DistinctLocals(later) && forall p :: p in Locals(later) <==> Added(ss, ms, n, p)
  }

  // --- one move ---------------------------------------------------------------------------------

  lemma AddedMore(ss: seq<State>, ms: seq<Move>, m: nat, n: nat, p: int)
    requires |ss| == |ms| + 1 && m + 1 == n < |ss|
    ensures Added(ss, ms, n, p) <==> Adds(ss[m], ms[m], p) || (Added(ss, ms, m, p) && !Stops(ss[m], ms[m], p))
  {
    hide Adds, Stops;
    if Adds(ss[m], ms[m], p) {
      assert AddedAt(ss, ms, n, m, p);
    } else {
      assert forall i: nat :: AddedAt(ss, ms, n, i, p) <==> AddedAt(ss, ms, m, i, p) && !Stops(ss[m], ms[m], p);
    }
  }

  /** A move adds one record, or takes a port's records out, or leaves the records alone. */
  lemma RecordsMove(s: State, m: Move)
    requires Enabled(s, m)
    ensures var recs' := Apply(s, m).shared.recs;
      if m.Go? && PcOf(s, m.t).Bound? then recs' == s.shared.recs + [PcOf(s, m.t).f]
      else recs' == Select(s.shared.recs, Spared(s, m))
  {
    if m.Go? && PcOf(s, m.t).Stopping? {
      var local := PcOf(s, m.t).local;
      SelectSame(s.shared.recs, (f: Forward) => f.local != local, Spared(s, m));
    } else {
      SelectAll(s.shared.recs, Spared(s, m));
    }
    hide Select;
  }

  /** A listener stays until its port is stopped, and one is never added where there is one. */
  lemma ListenersMove(s: State, m: Move, p: int)
    requires Enabled(s, m) && HoldersOk(s)
    ensures p in s.shared.lns && !Stops(s, m, p) ==> p in Apply(s, m).shared.lns
    ensures Adds(s, m, p) ==> p !in s.shared.lns && p in Apply(s, m).shared.lns
  {
    hide Without;
    assert Held(PcOf(s, m.t)).Some? ==> Held(PcOf(s, m.t)).value.0 !in s.shared.lns;
  }

  lemma {:induction false} SelectAppend(xs: seq<Forward>, ys: seq<Forward>, keep: Forward -> bool)
    ensures Select(xs + ys, keep) == Select(xs, keep) + Select(ys, keep)
  {
    if ys == [] {
      assert xs + ys == xs;
    } else {
      var n := |ys| - 1;
      assert xs + ys == (xs + ys[..n]) + [ys[n]] && ys == ys[..n] + [ys[n]];
      SelectAppend(xs, ys[..n], keep);
      SelectSnoc(xs + ys[..n], ys[n], keep);
      SelectSnoc(ys[..n], ys[n], keep);
    }
  }

  // --- runs -------------------------------------------------------------------------------------

  lemma {:induction false} AddedListens(ss: seq<State>, ms: seq<Move>, n: nat, p: int)
    requires Run(ss, ms) && n < |ss|
    ensures Added(ss, ms, n, p) ==> p in ss[n].shared.lns
  {
    hide Enabled, Apply, Adds, Stops, Owned;
    if n > 0 {
      var m := n - 1;
      AddedListens(ss, ms, m, p);
      RunOwned(ss, ms, m);
      OwnedHolders(ss[m]);
      AddedMore(ss, ms, m, n, p);
      ListenersMove(ss[m], ms[m], p);
    }
  }

  lemma OwnedHolders(s: State)
    requires Owned(s)
    ensures HoldersOk(s)
  {}

  lemma {:induction false} RecordsSplit(ss: seq<State>, ms: seq<Move>, n: nat) returns (later: seq<Forward>)
    requires Run(ss, ms) && n < |ss|
    ensures Split(ss, ms, n, later)
  {
    hide Enabled, Apply, Owned, Split;
    if n == 0 {
      later := [];
      SplitStart(ss, ms);
    } else {
      var m := n - 1;
      later := RecordsSplit(ss, ms, m);
      RunOwned(ss, ms, m);
      OwnedHolders(ss[m]);
      later := SplitMore(ss, ms, m, n, later);
    }
  }

  lemma SplitStart(ss: seq<State>, ms: seq<Move>)
    requires |ss| == |ms| + 1
    ensures Split(ss, ms, 0, [])
  {
    hide Stops, Adds;
    SelectAll(ss[0].shared.recs, Unstopped(ss, ms, 0, 0));
    assert ss[0].shared.recs + [] == ss[0].shared.recs;
  }

  lemma SplitMore(ss: seq<State>, ms: seq<Move>, m: nat, n: nat, later: seq<Forward>) returns (later': seq<Forward>)
    requires Run(ss, ms) && m + 1 == n < |ss| && Split(ss, ms, m, later) && HoldersOk(ss[m])
    requires Enabled(ss[m], ms[m]) && ss[n] == Apply(ss[m], ms[m])
    ensures Split(ss, ms, n, later')
  {
    hide Enabled, Apply, Select, Stops, HoldersOk, Locals;
    NoStopAtStart(ss, ms);
    var s, mv, first := ss[m], ms[m], ss[0].shared.recs;
    RecordsMove(s, mv);
    forall p
      ensures Added(ss, ms, n, p) <==> Adds(s, mv, p) || (Added(ss, ms, m, p) && !Stops(s, mv, p))
    {
      AddedMore(ss, ms, m, n, p);
    }
    SelectTwice(first, Unstopped(ss, ms, 0, m), Spared(s, mv), Unstopped(ss, ms, 0, n));
    if mv.Go? && PcOf(s, mv.t).Bound? {
      var f := PcOf(s, mv.t).f;
      AddsStopsNone(s, mv);
      SelectSame(first, Unstopped(ss, ms, 0, m), Unstopped(ss, ms, 0, n));
      later' := later + [f];
      assert ss[n].shared.recs == Select(first, Unstopped(ss, ms, 0, n)) + later';
      ListenersMove(s, mv, f.local);
      AddedListens(ss, ms, m, f.local);
      OneMoreDistinct(later, f);
    } else {
      later' := Select(later, Spared(s, mv));
      SelectAppend(Select(first, Unstopped(ss, ms, 0, m)), later, Spared(s, mv));
      SelectDistinct(later, Spared(s, mv));
      forall p
        ensures p in Locals(later') <==> p in Locals(later) && !Stops(s, mv, p)
      {
        LocalsLeft(later, Spared(s, mv), p, !Stops(s, mv, p));
      }
    }
  }

  lemma NoStopAtStart(ss: seq<State>, ms: seq<Move>)
    requires Run(ss, ms) && ms != []
    ensures forall p :: !Stops(ss[0], ms[0], p)
  {
    hide Apply;
  }

  lemma AddsStopsNone(s: State, m: Move)
    requires m.Go? && PcOf(s, m.t).Bound?
    ensures forall p :: !Stops(s, m, p)
  {}

  lemma OneMoreDistinct(fs: seq<Forward>, f: Forward)
    requires DistinctLocals(fs) && f.local !in Locals(fs)
    ensures DistinctLocals(fs + [f]) && forall p :: p in Locals(fs + [f]) <==> p in Locals(fs) || p == f.local
  {
    assert forall i :: 0 <= i < |fs| ==> fs[i] in fs;
    assert forall g :: g in fs + [f] <==> g in fs || g == f;
  }

  /** A port that had a record at the start, was given another one, and was not stopped. */
  ghost predicate Twice(ss: seq<State>, ms: seq<Move>, n: nat, p: int)
    requires |ss| == |ms| + 1 && n < |ss|
  {
    p in Locals(ss[0].shared.recs) && NoStop(ss, ms, 0, n, p) && Added(ss, ms, n, p)
  }

  /** From a saved list with one record per port, a port has two records exactly when it had one at
      the start, was started again, and has not been stopped: its listener must have been missing,
      because the restore could not bind it. */
  lemma RecordedTwiceIff(ss: seq<State>, ms: seq<Move>, n: nat)
    requires Run(ss, ms) && n < |ss| && DistinctLocals(ss[0].shared.recs)
    ensures DistinctLocals(ss[n].shared.recs) <==> forall p: int :: !Twice(ss, ms, n, p)
  {
    hide Enabled, Apply, Select, Stops, Locals, DistinctLocals, Added, NoStop;
    var later := RecordsSplit(ss, ms, n);
    var first, keep := ss[0].shared.recs, Unstopped(ss, ms, 0, n);
    SelectDistinct(first, keep);
    BothDistinct(Select(first, keep), later);
    forall p
      ensures p in Locals(Select(first, keep)) <==> p in Locals(first) && NoStop(ss, ms, 0, n, p)
    {
      LocalsLeft(first, keep, p, NoStop(ss, ms, 0, n, p));
    }
    assert forall p: int :: Twice(ss, ms, n, p) <==> p in Locals(Select(first, keep)) && p in Locals(later);
  }

  lemma BothDistinct(xs: seq<Forward>, ys: seq<Forward>)
    requires DistinctLocals(xs) && DistinctLocals(ys)
    ensures DistinctLocals(xs + ys) <==> forall p :: p in Locals(xs) ==> p !in Locals(ys)
  {
    var all := xs + ys;
    assert forall i :: 0 <= i < |xs| ==> all[i] == xs[i];
    assert forall j :: 0 <= j < |ys| ==> all[|xs| + j] == ys[j];
    if forall p :: p in Locals(xs) ==> p !in Locals(ys) {
      forall i, j | 0 <= i < |xs| && 0 <= j < |ys|
        ensures xs[i].local != ys[j].local
      {
        assert xs[i].local in Locals(xs) && ys[j].local in Locals(ys);
      }
      assert forall k :: |xs| <= k < |all| ==> all[k] == ys[k - |xs|];
    } else if DistinctLocals(all) {
      forall f, g | f in xs && g in ys
        ensures f.local != g.local
      {
        var i :| 0 <= i < |xs| && xs[i] == f;
        var j :| 0 <= j < |ys| && ys[j] == g;
        assert all[i].local != all[|xs| + j].local;
      }
    }
  }

  /** A run from a saved list that comes to rest with two records for a port. */
  ghost predicate EndsDoubled(ss: seq<State>, ms: seq<Move>) {
    && Run(ss, ms) && ss[0].shared.lns == map[] && Saved(ss[0].shared.recs)
    && (forall t :: PcOf(ss[|ms|], t) == Done) && !DistinctLocals(ss[|ms|].shared.recs)
  }

  /** The restore cannot bind the port of the saved forward. */
  lemma LeftOut(f: Forward) returns (ss: seq<State>, ms: seq<Move>)
    requires f.local == 80
    ensures Run(ss, ms) && ss[0] == State(Shared(map[], [f], map[], 0), map[])
    ensures ss[|ms|] == State(Shared(map[], [f], map[], 0), map[1 := Done])
  {
    hide Run;
    var out := Shared(map[], [f], map[], 0);
    assert [f][1..] == [];
    ss, ms := StartRun(out);
    ss, ms := Then(ss, ms, Begin(1, Starting), State(out, map[1 := Starting]));
    ss, ms := Then(ss, ms, Go(1, true), State(out, map[1 := Restoring([f])]));
    ss, ms := Then(ss, ms, Go(1, false), State(out, map[1 := Restoring([])]));
    ss, ms := Then(ss, ms, Go(1, true), State(out, map[1 := Done]));
  }

  /** The port of a saved forward cannot be bound as the daemon starts, and the forward is started
      again later. */
  lemma StartedAgain()
    ensures exists ss, ms :: EndsDoubled(ss, ms)
  {
    hide Run, Without, Taken, Closed, Restored;
    var f := Forward(80, 80, "m", false);
    var out := Shared(map[], [f], map[], 0);
    var held := Shared(map[], [f], map[80 := 0], 1);
    var twice := Shared(map[80 := 0], [f, f], map[80 := 0], 1);
    assert [f] + [f] == [f, f];
    var ss, ms := LeftOut(f);
    ss, ms := Then(ss, ms, Begin(2, Wanting(f)), State(out, map[1 := Done, 2 := Wanting(f)]));
    ss, ms := Then(ss, ms, Go(2, true), State(out, map[1 := Done, 2 := Checked(f)]));
    ss, ms := Then(ss, ms, Go(2, true), State(held, map[1 := Done, 2 := Bound(f, 0)]));
    ss, ms := Then(ss, ms, Go(2, true), State(twice, map[1 := Done, 2 := Done]));
    assert twice.recs[0].local == twice.recs[1].local;
    assert EndsDoubled(ss, ms);
  }
}
