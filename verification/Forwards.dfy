/** The forward table: listeners, saved records and the operating system's port table. */
module Forwards {

  datatype Forward = Forward(local: int, remote: int, machine: string, auto: bool)

  /** What the threads share: `lns` is the table of listeners by local port, `recs` the saved
      records, and `bound` the ports bound by the daemon with the listener that holds each. */
  datatype Shared = Shared(lns: map<int, nat>, recs: seq<Forward>, bound: map<int, nat>, next: nat)

  function Select(fs: seq<Forward>, keep: Forward -> bool): seq<Forward> {
    if fs == [] then []
    else (if keep(fs[0]) then [fs[0]] else []) + Select(fs[1..], keep)
  }

  function Without(fs: seq<Forward>, local: int): seq<Forward> {
    Select(fs, (f: Forward) => f.local != local)
  }

  lemma {:induction false} SelectMembers(fs: seq<Forward>, keep: Forward -> bool, f: Forward)
    ensures f in Select(fs, keep) <==> f in fs && keep(f)
  {
    if fs != [] {
      SelectMembers(fs[1..], keep, f);
      assert fs == [fs[0]] + fs[1..];
    }
  }

  lemma {:induction false} SelectSame(fs: seq<Forward>, p: Forward -> bool, q: Forward -> bool)
    requires forall f :: f in fs ==> p(f) == q(f)
    ensures Select(fs, p) == Select(fs, q)
  {
    if fs != [] {
      assert fs[0] in fs;
      assert forall f :: f in fs[1..] ==> f in fs;
      SelectSame(fs[1..], p, q);
    }
  }

  lemma {:induction false} SelectTwice(fs: seq<Forward>, p: Forward -> bool, q: Forward -> bool, both: Forward -> bool)
    requires forall f :: both(f) == (p(f) && q(f))
    ensures Select(Select(fs, p), q) == Select(fs, both)
  {
    if fs != [] {
      SelectTwice(fs[1..], p, q, both);
      var rest := Select(fs[1..], p);
      if p(fs[0]) {
        assert ([fs[0]] + rest)[1..] == rest;
      } else {
        assert [] + rest == rest;
      }
    }
  }

  lemma {:induction false} SelectSnoc(fs: seq<Forward>, f: Forward, keep: Forward -> bool)
    ensures Select(fs + [f], keep) == Select(fs, keep) + (if keep(f) then [f] else [])
  {
    if fs == [] {
      assert fs + [f] == [f];
      assert [f][1..] == [];
    } else {
      assert (fs + [f])[1..] == fs[1..] + [f];
      SelectSnoc(fs[1..], f, keep);
      var head, last := if keep(fs[0]) then [fs[0]] else [], if keep(f) then [f] else [];
      assert head + (Select(fs[1..], keep) + last) == (head + Select(fs[1..], keep)) + last;
    }
  }

  lemma {:induction false} SelectAll(fs: seq<Forward>, keep: Forward -> bool)
    requires forall f :: f in fs ==> keep(f)
    ensures Select(fs, keep) == fs
  {
    if fs != [] {
      assert fs[0] in fs;
      SelectAll(fs[1..], keep);
    }
  }

  ghost function Locals(fs: seq<Forward>): set<int> {
    set f | f in fs :: f.local
  }

  ghost predicate DistinctLocals(fs: seq<Forward>) {
    forall i, j :: 0 <= i < j < |fs| ==> fs[i].local != fs[j].local
  }

  lemma {:induction false} SelectDistinct(fs: seq<Forward>, keep: Forward -> bool)
    requires DistinctLocals(fs)
    ensures DistinctLocals(Select(fs, keep))
  {
    if fs != [] {
      SelectDistinct(fs[1..], keep);
      var rest := Select(fs[1..], keep);
      forall j | 0 <= j < |rest|
        ensures rest[j].local != fs[0].local
      {
        SelectMembers(fs[1..], keep, rest[j]);
      }
    }
  }

  /** No record that is kept has another of its port after it. */
  ghost predicate NoneTwice(fs: seq<Forward>, keep: Forward -> bool) {
    forall i, j :: 0 <= i < j < |fs| && keep(fs[i]) ==> fs[i].local != fs[j].local
  }

  /** What is selected by port has one record per port exactly when no port kept has two. */
  lemma {:induction false} SelectDistinctIff(fs: seq<Forward>, keep: Forward -> bool)
    requires forall f, g :: f in fs && g in fs && f.local == g.local ==> keep(f) == keep(g)
    ensures DistinctLocals(Select(fs, keep)) <==> NoneTwice(fs, keep)
  {
    hide NoneTwice, DistinctLocals;
    if fs == [] {
      EmptyDistinct(keep);
    } else {
      var f, t := fs[0], fs[1..];
      assert fs == [f] + t;
      SelectDistinctIff(t, keep);
      forall g
        ensures g in Select(t, keep) <==> g in t && keep(g)
      {
        SelectMembers(t, keep, g);
      }
      HeadDistinct(f, Select(t, keep));
      HeadNoneTwice(f, t, keep);
      assert [] + Select(t, keep) == Select(t, keep);
    }
  }

  lemma EmptyDistinct(keep: Forward -> bool)
    ensures DistinctLocals([]) && NoneTwice([], keep)
  {}

  lemma HeadDistinct(f: Forward, rest: seq<Forward>)
    ensures DistinctLocals([f] + rest) <==> DistinctLocals(rest) && forall g :: g in rest ==> g.local != f.local
  {
    HeadNoneTwice(f, rest, (g: Forward) => true);
  }

  lemma HeadNoneTwice(f: Forward, t: seq<Forward>, keep: Forward -> bool)
    ensures NoneTwice([f] + t, keep) <==>
      NoneTwice(t, keep) && (keep(f) ==> forall g :: g in t ==> g.local != f.local)
  {
    var fs := [f] + t;
    assert fs[0] == f && forall i :: 0 <= i < |t| ==> fs[i + 1] == t[i];
    if NoneTwice(fs, keep) {
      forall i, j | 0 <= i < j < |t| && keep(t[i])
        ensures t[i].local != t[j].local
      {
        assert fs[i + 1].local != fs[j + 1].local;
      }
      forall g | keep(f) && g in t
        ensures g.local != f.local
      {
        var j :| 0 <= j < |t| && t[j] == g;
        assert fs[0].local != fs[j + 1].local;
      }
    }
  }

  // --- the critical sections as functions -----------------------------------------

  function Listened(s: Shared, port: int): Shared {
    s.(bound := s.bound[port := s.next], next := s.next + 1)
  }

  function Inserted(s: Shared, f: Forward, ln: nat): Shared {
    s.(lns := s.lns[f.local := ln], recs := s.recs + [f])
  }

  function Taken(s: Shared, local: int): Shared {
    s.(lns := s.lns - {local}, recs := Without(s.recs, local))
  }

  function Restored(s: Shared, local: int, ln: nat): Shared {
    s.(lns := s.lns[local := ln])
  }

  function Closed(s: Shared, port: int): Shared {
    s.(bound := s.bound - {port})
  }

  /** Records and listeners agree: one record per listener, one listener per record. */
  ghost predicate Matched(s: Shared) {
    DistinctLocals(s.recs) && Locals(s.recs) == s.lns.Keys
  }

  lemma InsertedMatched(s: Shared, f: Forward, ln: nat)
    requires Matched(s) && f.local !in s.lns
    ensures Matched(Inserted(s, f, ln))
  {
    var s' := Inserted(s, f, ln);
    forall i, j | 0 <= i < j < |s'.recs|
      ensures s'.recs[i].local != s'.recs[j].local
    {
      assert s.recs[i] in s.recs;
    }
    assert forall g :: g in s'.recs <==> g in s.recs || g == f;
    assert f in s'.recs;
  }

  lemma TakenMatched(s: Shared, local: int)
    requires Matched(s)
    ensures Matched(Taken(s, local))
  {
    SelectDistinct(s.recs, (f: Forward) => f.local != local);
    forall f
      ensures f in Without(s.recs, local) <==> f in s.recs && f.local != local
    {
      SelectMembers(s.recs, (f: Forward) => f.local != local, f);
    }
  }
}
