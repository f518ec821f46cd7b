/** The forward table as the daemon keeps it: a map of listeners and a slice of records that
    is appended to and compacted in place. Each critical section is one method. */
module ForwardTable {
  import opened Basics
  import opened Forwards

  class Table {
    var lns: map<int, nat>
    var slots: array<Forward>
    var len: nat
    var bound: map<int, nat>
    var next: nat

    ghost predicate Valid()
      reads this
    {
      len <= slots.Length
    }

    ghost function View(): Shared
      requires Valid()
      reads this, slots
    {
      Shared(lns, slots[..len], bound, next)
    }

    constructor (saved: seq<Forward>)
      ensures Valid() && fresh(slots) && View() == Shared(map[], saved, map[], 0)
    {
      lns, bound, next := map[], map[], 0;
      var a := new Forward[|saved|](i requires 0 <= i < |saved| => saved[i]);
      slots, len := a, |saved|;
    }

    method Listen(port: int, granted: bool) returns (ln: Option<nat>)
      requires Valid()
      modifies this`bound, this`next
      ensures Valid()
      ensures ln == if granted && port !in old(bound) then Some(old(next)) else None
      ensures View() == if ln.Some? then Listened(old(View()), port) else old(View())
    {
      if !granted || port in bound {
        return None;
      }
      bound := bound[port := next];
      next := next + 1;
      return Some(next - 1);
    }

    method CloseListener(port: int)
      requires Valid()
      modifies this`bound
      ensures Valid() && View() == Closed(old(View()), port)
    {
      bound := bound - {port};
    }

    method Append(f: Forward)
      requires Valid()
      modifies this`slots, this`len, slots
      ensures Valid() && (slots == old(slots) || fresh(slots))
      ensures View() == old(View()).(recs := old(View()).recs + [f])
    {
      if len == slots.Length {
        var bigger := new Forward[2 * len + 1](_ => f);
        forall i | 0 <= i < len {
          bigger[i] := slots[i];
        }
        slots := bigger;
      }
      slots[len] := f;
      len := len + 1;
    }

    /** The critical section after binding. */
    method Insert(f: Forward, ln: nat)
      requires Valid()
      modifies this`lns, this`slots, this`len, slots
      ensures Valid() && (slots == old(slots) || fresh(slots))
      ensures View() == Inserted(old(View()), f, ln)
    {
      lns := lns[f.local := ln];
      Append(f);
    }

    /** The slice is compacted over itself: kept records move to the front, in order. */
    method Compact(local: int)
      requires Valid()
      modifies this`len, slots
      ensures Valid() && slots[..len] == Without(old(slots[..len]), local)
    {
      hide Select;
      ghost var recs := slots[..len];
      var kept, i := 0, 0;
      NoneSelected(local);
      while i < len
        invariant 0 <= kept <= i <= len == |recs| <= slots.Length
        invariant slots[i..len] == recs[i..]
        invariant slots[..kept] == Without(recs[..i], local)
      {
        var f := slots[i];
        assert f == recs[i] && recs[..i] + [f] == recs[..i + 1];
        SelectSnoc(recs[..i], f, (g: Forward) => g.local != local);
        if f.local != local {
          slots[kept] := f;
          kept := kept + 1;
        }
        i := i + 1;
      }
      len := kept;
      assert recs[..i] == recs;
    }

    /** The critical section of a stop. */
    method Take(local: int) returns (ln: Option<nat>)
      requires Valid()
      modifies this`lns, this`len, slots
      ensures Valid()
      ensures ln == if local in old(lns) then Some(old(lns)[local]) else None
      ensures View() == Taken(old(View()), local)
    {
      ln := if local in lns then Some(lns[local]) else None;
      if ln.Some? {
        lns := lns - {local};
      } else {
        assert lns - {local} == lns;
      }
      Compact(local);
    }

    /** EnsureForward with nobody else inside. */
    method EnsureForward(f: Forward, granted: bool) returns (ok: bool)
      requires Valid()
      modifies this, slots
      ensures Valid() && (slots == old(slots) || fresh(slots))
      ensures ok <==>
        0 < f.local <= 65535 && 0 < f.remote <= 65535 && f.local !in old(lns) && granted && f.local !in old(bound)
      ensures View() == if ok then Inserted(Listened(old(View()), f.local), f, old(next)) else old(View())
    {
      if f.local <= 0 || f.local > 65535 || f.remote <= 0 || f.remote > 65535 {
        return false;
      }
      if f.local in lns {
        return false;
      }
      var ln := Listen(f.local, granted);
      if ln.None? {
        return false;
      }
      Insert(f, ln.value);
      ok := true;
    }

    /** StopForward with nobody else inside. */
    method StopForward(local: int) returns (ok: bool)
      requires Valid()
      modifies this`lns, this`len, this`bound, slots
      ensures Valid() && ok == (local in old(lns))
      ensures View() == if ok then Closed(Taken(old(View()), local), local) else Taken(old(View()), local)
    {
      var ln := Take(local);
      if ln.None? {
        return false;
      }
      CloseListener(local);
      ok := true;
    }

    /** The restore of the saved records with nobody else inside: a port that is not granted
        is skipped, and so is one that is already in the table or bound. */
    method RestoreForwards(granted: set<int>)
      requires Valid()
      modifies this`lns, this`bound, this`next
      ensures Valid() && View().recs == old(View()).recs
      ensures lns.Keys == old(lns.Keys) + Restorable(View().recs, granted, old(bound))
      ensures bound.Keys == old(bound.Keys) + (Restorable(View().recs, granted, old(bound)) - old(lns.Keys))
      ensures forall p :: p in old(lns) ==> lns[p] == old(lns)[p]
      ensures forall p :: p in old(bound) ==> bound[p] == old(bound)[p]
      ensures forall p :: p in lns && p !in old(lns) ==> lns[p] == bound[p]
      ensures AllGranted(View().recs, granted) && DistinctLocals(View().recs) ==>
        old(lns) == map[] && old(bound) == map[] ==> Matched(View())
    {
      hide Restorable, AllGranted, Matched, DistinctLocals, Locals, Back;
      NoneRestorable(granted, bound);
      NoneBack(lns, bound);
      ghost var taken, before := bound, lns;
      var forwards := slots[..len];
      var i := 0;
      while i < |forwards|
        invariant 0 <= i <= |forwards|
        invariant Back(before, taken, Restorable(forwards[..i], granted, taken), lns, bound)
      {
        var f := forwards[i];
        ghost var done := Restorable(forwards[..i], granted, taken);
        OneMoreRestored(forwards, i, granted, taken);
        OneMoreBack(before, taken, done, lns, bound, f.local, next);
        if f.local > 0 {
          ghost var held := bound;
          var ln := Listen(f.local, f.local in granted);
          if ln.Some? {
            if f.local in lns {
              CloseListener(f.local);
              assert bound == held;
            } else {
              lns := lns[f.local := ln.value];
            }
          }
        }
        i := i + 1;
      }
      assert forwards[..i] == forwards;
      BackMeans(before, taken, Restorable(forwards, granted, taken), lns, bound);
      if taken == map[] && before == map[] {
        AllRestorable(View(), granted, taken);
      }
    }
  }

  /** The ports of a saved list that can be bound again. */
  ghost function Restorable(fs: seq<Forward>, granted: set<int>, bound: map<int, nat>): set<int> {
    set f | f in fs && f.local > 0 && f.local in granted && f.local !in bound :: f.local
  }

  /** The table and the port table once the ports in `done` have come back. */
  ghost predicate Back(before: map<int, nat>, taken: map<int, nat>, done: set<int>,
                       lns: map<int, nat>, bound: map<int, nat>) {
    && lns.Keys == before.Keys + done && bound.Keys == taken.Keys + (done - before.Keys)
    && (forall p :: p in before ==> lns[p] == before[p])
    && (forall p :: p in taken ==> bound[p] == taken[p])
    && (forall p :: p in lns && p !in before ==> p in bound && lns[p] == bound[p])
  }

  lemma NoneBack(lns: map<int, nat>, bound: map<int, nat>)
    ensures Back(lns, bound, {}, lns, bound)
  {}

  lemma BackMeans(before: map<int, nat>, taken: map<int, nat>, done: set<int>, lns: map<int, nat>, bound: map<int, nat>)
    requires Back(before, taken, done, lns, bound)
    ensures lns.Keys == before.Keys + done && bound.Keys == taken.Keys + (done - before.Keys)
    ensures forall p :: p in before ==> lns[p] == before[p]
    ensures forall p :: p in taken ==> bound[p] == taken[p]
    ensures forall p :: p in lns && p !in before ==> p in bound && lns[p] == bound[p]
  {}

  /** A bound port is left alone, a free one in the table too, and another one enters both. */
  lemma OneMoreBack(before: map<int, nat>, taken: map<int, nat>, done: set<int>,
                    lns: map<int, nat>, bound: map<int, nat>, port: int, ln: nat)
    requires Back(before, taken, done, lns, bound) && done !! taken.Keys
    ensures Back(before, taken, done + {}, lns, bound)
    ensures port in bound && port !in taken ==> Back(before, taken, done + {port}, lns, bound)
    ensures port !in bound && port in lns ==> Back(before, taken, done + {port}, lns, bound)
    ensures port !in bound && port !in lns ==>
      Back(before, taken, done + {port}, lns[port := ln], bound[port := ln])
    ensures port in taken ==> port in bound
  {
    assert done + {} == done;
    if (port in bound && port !in taken) || (port !in bound && port in lns) {
      assert before.Keys + (done + {port}) == before.Keys + done;
    }
  }

  lemma NoneRestorable(granted: set<int>, bound: map<int, nat>)
    ensures Restorable([], granted, bound) == {}
  {}

  lemma OneMoreRestored(fs: seq<Forward>, i: nat, granted: set<int>, bound: map<int, nat>)
    requires i < |fs|
    ensures Restorable(fs[..i + 1], granted, bound) == Restorable(fs[..i], granted, bound)
      + if fs[i].local > 0 && fs[i].local in granted && fs[i].local !in bound then {fs[i].local} else {}
    ensures Restorable(fs[..i], granted, bound) !! bound.Keys
  {
    assert fs[..i + 1] == fs[..i] + [fs[i]];
    assert fs[i] in fs[..i + 1];
    assert forall f :: f in fs[..i + 1] <==> f in fs[..i] || f == fs[i];
  }

  lemma AllRestorable(s: Shared, granted: set<int>, bound: map<int, nat>)
    requires bound == map[] && s.lns.Keys == Restorable(s.recs, granted, bound)
    ensures AllGranted(s.recs, granted) && DistinctLocals(s.recs) ==> Matched(s)
  {}

  lemma NoneSelected(local: int)
    ensures Without([], local) == []
  {}

  /** A saved list every port of which the operating system grants. */
  ghost predicate AllGranted(fs: seq<Forward>, granted: set<int>) {
    forall f :: f in fs ==> f.local > 0 && f.local in granted
  }

  // --- the auto-forward tick ----------------------------------------------------------

  /** What a tick keeps: manual forwards, those on a machine whose query failed, and those
      whose remote port a running container still publishes. `live` has no entry for a machine
      whose query failed. */
  predicate Keeps(f: Forward, live: map<string, set<int>>) {
    !f.auto || f.machine !in live || f.remote in live[f.machine]
  }

  function Outside(gone: set<int>): Forward -> bool {
    (f: Forward) => f.local !in gone
  }

  lemma OneMore(fs: seq<Forward>, gone: set<int>, local: int)
    ensures Without(Select(fs, Outside(gone)), local) == Select(fs, Outside(gone + {local}))
  {
    SelectTwice(fs, Outside(gone), (f: Forward) => f.local != local,
      Outside(gone + {local}));
  }

  ghost function Dead(fs: seq<Forward>, live: map<string, set<int>>): set<int> {
    set f | f in fs && !Keeps(f, live) :: f.local
  }

  /** With one record per port, dropping the ports of dead forwards drops the dead forwards. */
  lemma DeadDropped(fs: seq<Forward>, live: map<string, set<int>>)
    requires DistinctLocals(fs)
    ensures Select(fs, Outside(Dead(fs, live))) == Select(fs, (f: Forward) => Keeps(f, live))
  {
    forall f | f in fs
      ensures f.local !in Dead(fs, live) <==> Keeps(f, live)
    {
      if f.local in Dead(fs, live) {
        var g :| g in fs && !Keeps(g, live) && g.local == f.local;
        var i :| 0 <= i < |fs| && fs[i] == f;
        var j :| 0 <= j < |fs| && fs[j] == g;
        assert i == j;
      }
    }
    SelectSame(fs, Outside(Dead(fs, live)), (f: Forward) => Keeps(f, live));
  }

  function IsAuto(): Forward -> bool {
    (f: Forward) => f.auto
  }

  function OnMachine(m: string): Forward -> bool {
    (f: Forward) => f.machine == m
  }

  /** The forwards of `autos` by machine, each group in their order. */
  ghost predicate Grouped(groups: map<string, seq<Forward>>, autos: seq<Forward>) {
    && (forall m :: m in groups <==> exists f :: f in autos && f.machine == m)
    && (forall m :: m in groups ==> groups[m] == Select(autos, OnMachine(m)))
  }

  method GroupByMachine(autos: seq<Forward>) returns (groups: map<string, seq<Forward>>)
    ensures Grouped(groups, autos)
  {
    hide Grouped;
    groups := map[];
    NothingGrouped();
    var i := 0;
    while i < |autos|
      invariant 0 <= i <= |autos|
      invariant Grouped(groups, autos[..i])
    {
      var f := autos[i];
      var group := if f.machine in groups then groups[f.machine] else [];
      assert autos[..i + 1] == autos[..i] + [f];
      OneMoreGrouped(groups, autos[..i], f);
      groups := groups[f.machine := group + [f]];
      i := i + 1;
    }
    assert autos[..|autos|] == autos;
  }

  lemma NothingGrouped()
    ensures Grouped(map[], [])
  {}

  lemma OneMoreGrouped(groups: map<string, seq<Forward>>, fs: seq<Forward>, f: Forward)
    requires Grouped(groups, fs)
    ensures Grouped(groups[f.machine := (if f.machine in groups then groups[f.machine] else []) + [f]], fs + [f])
  {
    hide Select;
    forall m
      ensures Select(fs + [f], OnMachine(m)) == Select(fs, OnMachine(m)) + if f.machine == m then [f] else []
    {
      SelectSnoc(fs, f, OnMachine(m));
    }
    if f.machine !in groups {
      NoneOn(fs, f.machine);
    }
  }

  lemma {:induction false} NoneOn(fs: seq<Forward>, m: string)
    requires forall f :: f in fs ==> f.machine != m
    ensures Select(fs, OnMachine(m)) == []
  {
    if fs != [] {
      assert fs[0] in fs;
      assert forall f :: f in fs[1..] ==> f in fs;
      NoneOn(fs[1..], m);
    }
  }

  /** The table after the forwards on the given ports have been stopped, those without a listener
      losing their records only. */
  ghost function Stopped(s: Shared, gone: set<int>): Shared {
    Shared(s.lns - gone, Select(s.recs, Outside(gone)), s.bound - (gone * s.lns.Keys), s.next)
  }

  lemma NothingStopped(s: Shared)
    ensures Stopped(s, {}) == s
  {
    SelectAll(s.recs, Outside({}));
    assert {} * s.lns.Keys == {};
    assert s.lns - {} == s.lns && s.bound - {} == s.bound;
  }

  /** Stopping one more port. */
  lemma OneStopped(s: Shared, gone: set<int>, local: int)
    ensures var s' := Stopped(s, gone);
      (if local in s'.lns then Closed(Taken(s', local), local) else Taken(s', local)) == Stopped(s, gone + {local})
  {
    OneMore(s.recs, gone, local);
    assert s.lns - gone - {local} == s.lns - (gone + {local});
    var keys := s.lns.Keys;
    if local in keys && local !in gone {
      assert s.bound - (gone * keys) - {local} == s.bound - ((gone + {local}) * keys);
    } else {
      assert gone * keys == (gone + {local}) * keys;
    }
  }

  /** Stopping ports keeps records and listeners matched. */
  lemma StoppedMatched(s: Shared, gone: set<int>)
    requires Matched(s)
    ensures Matched(Stopped(s, gone))
  {
    SelectDistinct(s.recs, Outside(gone));
    forall f
      ensures f in Select(s.recs, Outside(gone)) <==> f in s.recs && f.local !in gone
    {
      SelectMembers(s.recs, Outside(gone), f);
    }
  }

  method CollectAutos(table: Table) returns (autos: seq<Forward>)
    requires table.Valid()
    ensures autos == Select(table.View().recs, IsAuto())
  {
    ghost var recs := table.slots[..table.len];
    hide Select;
    NoneAuto();
    autos := [];
    var i := 0;
    while i < table.len
      invariant 0 <= i <= table.len
      invariant autos == Select(recs[..i], IsAuto())
    {
      var f := table.slots[i];
      assert recs[..i + 1] == recs[..i] + [f];
      SelectSnoc(recs[..i], f, IsAuto());
      if f.auto {
        autos := autos + [f];
      }
      i := i + 1;
    }
    assert recs[..i] == recs;
  }

  lemma NoneAuto()
    ensures Select([], IsAuto()) == []
  {}

  /** Which forwards are in which group. */
  lemma GroupMembers(fs: seq<Forward>, autos: seq<Forward>, groups: map<string, seq<Forward>>)
    requires autos == Select(fs, IsAuto()) && Grouped(groups, autos)
    ensures forall f :: f in autos <==> f in fs && f.auto
    ensures forall m, f :: m in groups ==> (f in groups[m] <==> f in autos && f.machine == m)
    ensures forall f :: f in autos ==> f.machine in groups
  {
    hide Select;
    forall f
      ensures f in autos <==> f in fs && f.auto
    {
      SelectMembers(fs, IsAuto(), f);
    }
    forall m, f | m in groups
      ensures f in groups[m] <==> f in autos && f.machine == m
    {
      SelectMembers(autos, OnMachine(m), f);
    }
  }

  /** The forwards of one machine whose remote port nothing publishes any more. */
  ghost function Unpublished(group: seq<Forward>, ports: set<int>): set<int> {
    set f | f in group && f.remote !in ports :: f.local
  }

  method StopGroup(table: Table, group: seq<Forward>, ports: set<int>, ghost before: Shared, ghost gone: set<int>)
    requires table.Valid() && table.View() == Stopped(before, gone)
    modifies table`lns, table`len, table`bound, table.slots
    ensures table.Valid() && table.View() == Stopped(before, gone + Unpublished(group, ports))
  {
    hide Stopped;
    var i := 0;
    assert gone + Unpublished(group[..0], ports) == gone;
    while i < |group|
      invariant 0 <= i <= |group|
      invariant table.Valid() && table.View() == Stopped(before, gone + Unpublished(group[..i], ports))
    {
      var f := group[i];
      assert group[..i + 1] == group[..i] + [f];
      ghost var now := gone + Unpublished(group[..i], ports);
      if f.remote !in ports {
        OneStopped(before, now, f.local);
        var ok := table.StopForward(f.local);
        assert gone + Unpublished(group[..i + 1], ports) == now + {f.local};
      } else {
        assert gone + Unpublished(group[..i + 1], ports) == now;
      }
      i := i + 1;
    }
    assert group[..i] == group;
  }

  /** The dead forwards on machines already handled. */
  ghost function DeadSoFar(fs: seq<Forward>, live: map<string, set<int>>, todo: set<string>): set<int> {
    set f | f in fs && !Keeps(f, live) && f.machine !in todo :: f.local
  }

  lemma MachineDone(fs: seq<Forward>, autos: seq<Forward>, groups: map<string, seq<Forward>>,
                    live: map<string, set<int>>, todo: set<string>, m: string)
    requires autos == Select(fs, IsAuto()) && Grouped(groups, autos) && m in groups && m in todo
    ensures DeadSoFar(fs, live, todo - {m})
         == DeadSoFar(fs, live, todo) + if m in live then Unpublished(groups[m], live[m]) else {}
  {
    GroupMembers(fs, autos, groups);
    hide Grouped, Select;
    var now := DeadSoFar(fs, live, todo) + if m in live then Unpublished(groups[m], live[m]) else {};
    forall f | f in fs && !Keeps(f, live) && f.machine !in todo - {m}
      ensures f.local in now
    {
      if f.machine == m {
        assert f in groups[m] && f.remote !in live[m];
      }
    }
    if m in live {
      forall f | f in groups[m] && f.remote !in live[m]
        ensures f.local in DeadSoFar(fs, live, todo - {m})
      {
        assert f in fs && !Keeps(f, live) && f.machine !in todo - {m};
      }
    }
  }

  lemma NothingDoneYet(fs: seq<Forward>, autos: seq<Forward>, groups: map<string, seq<Forward>>,
                       live: map<string, set<int>>)
    requires autos == Select(fs, IsAuto()) && Grouped(groups, autos)
    ensures DeadSoFar(fs, live, groups.Keys) == {}
    ensures DeadSoFar(fs, live, {}) == Dead(fs, live)
  {
    GroupMembers(fs, autos, groups);
    hide Grouped, Select;
    forall f | f in fs && !Keeps(f, live)
      ensures f.machine in groups.Keys
    {
      assert f in autos;
    }
  }

  /** What is kept and what is dead, spelled out. */
  lemma KeepsMeans(fs: seq<Forward>, live: map<string, set<int>>)
    ensures Select(fs, (f: Forward) => Keeps(f, live))
         == Select(fs, (f: Forward) => f.auto && f.machine in live ==> f.remote in live[f.machine])
    ensures Dead(fs, live)
         == set f | f in fs && f.auto && f.machine in live && f.remote !in live[f.machine] :: f.local
  {
    SelectSame(fs, (f: Forward) => Keeps(f, live),
               (f: Forward) => f.auto && f.machine in live ==> f.remote in live[f.machine]);
  }

  /** One tick with nobody else inside, in any order of the machines: the ports of dead forwards
      lose their records and the listeners they have, which, with one record per port, leaves
      exactly the forwards that are to be kept, in their order. */
  method Tick(table: Table, live: map<string, set<int>>)
    requires table.Valid()
    modifies table`lns, table`len, table`bound, table.slots
    ensures table.Valid() && table.View() == Stopped(old(table.View()), Dead(old(table.View()).recs, live))
    ensures DistinctLocals(old(table.View()).recs) ==>
      table.View().recs == Select(old(table.View()).recs,
                                  (f: Forward) => f.auto && f.machine in live ==> f.remote in live[f.machine])
    ensures table.View().lns == old(table.View()).lns
      - (set f | f in old(table.View()).recs && f.auto && f.machine in live && f.remote !in live[f.machine] :: f.local)
    ensures Matched(old(table.View())) ==> Matched(table.View())
  {
    ghost var before := table.View();
    KeepsMeans(before.recs, live);
    var autos := CollectAutos(table);
    if DistinctLocals(before.recs) {
      DeadDropped(before.recs, live);
    }
    NothingStopped(before);
    var byMachine := GroupByMachine(autos);
    NothingDoneYet(before.recs, autos, byMachine, live);
    hide Grouped, Dead, DeadSoFar, Keeps, Matched;
    var todo := byMachine.Keys;
    while todo != {}
      invariant todo <= byMachine.Keys && table.Valid()
      invariant table.View() == Stopped(before, DeadSoFar(before.recs, live, todo))
      decreases todo
    {
      var m :| m in todo;
      MachineDone(before.recs, autos, byMachine, live, todo, m);
      if m in live {
        StopGroup(table, byMachine[m], live[m], before, DeadSoFar(before.recs, live, todo));
      } else {
        assert DeadSoFar(before.recs, live, todo) + {} == DeadSoFar(before.recs, live, todo);
      }
      todo := todo - {m};
    }
    if Matched(before) {
      StoppedMatched(before, Dead(before.recs, live));
    }
  }
}
