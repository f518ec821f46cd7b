/** The hub's registry at the granularity of its lock: every session runs in its own thread,
    and only what is done while the lock is held is indivisible. `int` stands for a session. */
module HubLocks {
  import opened Basics

  type Sid = int

  datatype Pc =
    | Reading                              // between two messages
    | Listing                              // about to build the machine list for a broadcast
    | Sending(online: set<string>)         // list built, about to take the lock again
    | InLoop(online: set<string>, rest: set<string>) // holding the lock, sending to each client
    | Asked                                // about to build the list for a list request
    | Replying(online: set<string>)        // list built, about to answer
    | Holding(target: Sid)                 // a relay target looked up, the lock released
    | Leaving                              // the read loop has returned
    | Unregistered                         // removed from the registry, queue still open
    | LastListing                          // queue closed
    | LastSending(online: set<string>)
    | LastInLoop(online: set<string>, rest: set<string>)
    | Done

  datatype Locks = Locks(
    holder: set<Sid>,               // the thread that holds the lock, if any
    clients: map<string, Sid>,
    ids: map<Sid, string>,
    pc: map<Sid, Pc>,
    closed: set<Sid>,               // sessions whose send queue is closed
    view: map<Sid, set<string>>)    // the online set last put on each session's queue

  /** `lost` says that a send gave up after the hub's five seconds. */
  datatype Move =
    | Accept(s: Sid)
    | Register(s: Sid, id: string)
    | Announce(s: Sid)              // a pairing or a revocation was stored: broadcast
    | Ask(s: Sid)                   // a list request
    | List(s: Sid)
    | Enter(s: Sid)
    | SendOne(s: Sid, k: string, lost: bool)
    | Leave(s: Sid)
    | Answer(s: Sid, lost: bool)
    | Lookup(s: Sid, to: string)
    | RelaySend(s: Sid)
    | Hangup(s: Sid)
    | Unregister(s: Sid)
    | Close(s: Sid)

  const START := Locks({}, map[], map[], map[], {}, map[])

  function PcOf(l: Locks, s: Sid): Pc {
    if s in l.pc then l.pc[s] else Done
  }

  function Id(l: Locks, s: Sid): string {
    if s in l.ids then l.ids[s] else ""
  }

  function Drop(clients: map<string, Sid>, id: string): map<string, Sid> {
    if id != "" then clients - {id} else clients
  }

  ghost predicate Enabled(l: Locks, m: Move) {
    var pc := PcOf(l, m.s);
    match m
    case Accept(s) => s !in l.pc
    case Register(s, id) => pc == Reading && id != "" && l.holder == {}
    case Announce(s) => pc == Reading && Id(l, s) != ""
    case Ask(_) => pc == Reading
    case List(_) => (pc == Listing || pc == LastListing || pc == Asked) && l.holder == {}
    case Enter(_) => (pc.Sending? || pc.LastSending?) && l.holder == {}
    case SendOne(_, k, _) => (pc.InLoop? || pc.LastInLoop?) && k in pc.rest
    case Leave(_) => (pc.InLoop? || pc.LastInLoop?) && pc.rest == {}
    case Answer(_, _) => pc.Replying?
    case Lookup(_, to) => pc == Reading && l.holder == {} && to in l.clients
    case RelaySend(_) => pc.Holding?
    case Hangup(_) => pc == Reading
    case Unregister(_) => pc == Leaving && l.holder == {}
    case Close(_) => pc == Unregistered
  }

  function At(l: Locks, s: Sid, pc: Pc): Locks {
    l.(pc := l.pc[s := pc])
  }

  /** The place after building a list of the registered machines. */
  function Listed(l: Locks, pc: Pc): Pc {
    if pc == Asked then Replying(l.clients.Keys)
    else if pc == LastListing then LastSending(l.clients.Keys)
    else Sending(l.clients.Keys)
  }

  function Apply(l: Locks, m: Move): Locks {
    match m
    case Accept(s) => At(l, s, Reading).(ids := l.ids[s := ""])
    case Register(s, id) =>
      At(l, s, Listing).(clients := Drop(l.clients, Id(l, s))[id := s], ids := l.ids[s := id])
    case Announce(s) => At(l, s, Listing)
    case Ask(s) => At(l, s, Asked)
    case List(s) => At(l, s, Listed(l, PcOf(l, s)))
    case Enter(s) =>
      At(l, s, match PcOf(l, s)
               case Sending(online) => InLoop(online, l.clients.Keys)
               case LastSending(online) => LastInLoop(online, l.clients.Keys)
               case other => other).(holder := {s})
    case SendOne(s, k, lost) =>
      (match PcOf(l, s)
       case InLoop(online, rest) => At(l, s, InLoop(online, rest - {k})).(view := Seen(l, m))
       case LastInLoop(online, rest) => At(l, s, LastInLoop(online, rest - {k})).(view := Seen(l, m))
       case _ => l)
    case Leave(s) => At(l, s, if PcOf(l, s).LastInLoop? then Done else Reading).(holder := {})
    case Answer(s, lost) => At(l, s, Reading).(view := Seen(l, m))
    case Lookup(s, to) => if to in l.clients then At(l, s, Holding(l.clients[to])) else l
    case RelaySend(s) => At(l, s, Reading)
    case Hangup(s) => At(l, s, Leaving)
    case Unregister(s) => At(l, s, Unregistered).(clients := Drop(l.clients, Id(l, s)))
    case Close(s) => At(l, s, if Id(l, s) != "" then LastListing else Done).(closed := l.closed + {s})
  }

  /** The list a thread has built and not yet finished sending. */
  function Carries(pc: Pc): Option<set<string>> {
    match pc
    case Sending(online) => Some(online)
    case InLoop(online, _) => Some(online)
    case Replying(online) => Some(online)
    case LastSending(online) => Some(online)
    case LastInLoop(online, _) => Some(online)
    case _ => None
  }

  /** The session on whose queue a move puts a list, if it does. */
  function PutsOn(l: Locks, m: Move): Option<Sid> {
    if m.SendOne? && !m.lost && m.k in l.clients then Some(l.clients[m.k])
    else if m.Answer? && !m.lost then Some(m.s)
    else None
  }

  function Seen(l: Locks, m: Move): map<Sid, set<string>> {
    var to, list := PutsOn(l, m), Carries(PcOf(l, m.s));
    if to.Some? && list.Some? then l.view[to.value := list.value] else l.view
  }

  /** The session a move offers a message, whether or not the send gives up. */
  ghost predicate SendsTo(l: Locks, m: Move, t: Sid) {
    match m
    case SendOne(_, k, _) => k in l.clients && t == l.clients[k]
    case Answer(s, _) => t == s
    case RelaySend(s) => PcOf(l, s).Holding? && t == PcOf(l, s).target
    case _ => false
  }

  // --- invariant -------------------------------------------------------------------

  /** A thread that has not yet unregistered its session. */
  predicate Active(pc: Pc) {
    pc.Reading? || pc.Listing? || pc.Sending? || pc.InLoop? || pc.Asked? || pc.Replying? || pc.Holding? || pc.Leaving?
  }

  predicate Looping(pc: Pc) {
    pc.InLoop? || pc.LastInLoop?
  }

  ghost predicate ClientsOk(l: Locks) {
    forall k :: k in l.clients ==> k != "" && Id(l, l.clients[k]) == k && Active(PcOf(l, l.clients[k]))
  }

  ghost predicate ClosedOk(l: Locks) {
    forall s :: s in l.closed ==> s in l.pc && !Active(l.pc[s]) && l.pc[s] != Unregistered
  }

  ghost predicate LockOk(l: Locks) {
    && (forall s :: s in l.holder <==> Looping(PcOf(l, s)))
    && (forall s, t :: s in l.holder && t in l.holder ==> s == t)
    && (forall s :: Looping(PcOf(l, s)) ==> PcOf(l, s).rest <= l.clients.Keys)
  }

  ghost predicate Inv(l: Locks) {
    ClientsOk(l) && ClosedOk(l) && LockOk(l)
  }

  lemma ClientsStep(l: Locks, m: Move)
    requires ClientsOk(l) && LockOk(l) && Enabled(l, m)
    ensures ClientsOk(Apply(l, m))
  {
    hide Seen, LockOk;
    if !m.Accept? && !m.Register? && !m.Unregister? && !m.Close? {
      MovesOnly(l, m);
    }
  }

  /** A move between registering and unregistering changes neither the registry nor whether its
      thread is active. */
  lemma MovesOnly(l: Locks, m: Move)
    requires Enabled(l, m) && !m.Accept? && !m.Register? && !m.Unregister? && !m.Close?
    ensures Apply(l, m).clients == l.clients && Apply(l, m).ids == l.ids
    ensures forall t :: Active(PcOf(l, t)) ==> Active(PcOf(Apply(l, m), t))
  {
    hide Seen;
  }

  lemma ClosedStep(l: Locks, m: Move)
    requires ClosedOk(l) && Enabled(l, m)
    ensures ClosedOk(Apply(l, m))
  {
    hide Seen, Drop;
  }

  lemma OthersWait(l: Locks, m: Move, t: Sid)
    requires Enabled(l, m) && t != m.s
    ensures PcOf(Apply(l, m), t) == PcOf(l, t)
  {
    hide Seen, Drop;
  }

  lemma LockStep(l: Locks, m: Move)
    requires LockOk(l) && Enabled(l, m)
    ensures LockOk(Apply(l, m))
  {
    hide Seen;
    var l' := Apply(l, m);
    forall t | t != m.s
      ensures PcOf(l', t) == PcOf(l, t)
    {
      OthersWait(l, m, t);
    }
    assert l.holder != {} && !(m.s in l.holder) ==> l'.clients == l.clients && l'.holder == l.holder;
    assert m.s in l.holder ==> l'.clients == l.clients;
    assert Looping(PcOf(l', m.s)) ==> PcOf(l', m.s).rest <= l'.clients.Keys;
    forall t | Looping(PcOf(l', t))
      ensures PcOf(l', t).rest <= l'.clients.Keys
    {
    }
  }

  lemma InvStep(l: Locks, m: Move)
    requires Inv(l) && Enabled(l, m)
    ensures Inv(Apply(l, m))
  {
    hide Enabled, Apply, ClientsOk, ClosedOk, LockOk;
    ClientsStep(l, m);
    ClosedStep(l, m);
    LockStep(l, m);
  }

  ghost predicate Run(ls: seq<Locks>, ms: seq<Move>) {
    && |ls| == |ms| + 1 && ls[0] == START
    && forall i :: 0 <= i < |ms| ==> Enabled(ls[i], ms[i]) && ls[i + 1] == Apply(ls[i], ms[i])
  }

  lemma {:induction false} RunInv(ls: seq<Locks>, ms: seq<Move>, n: nat)
    requires Run(ls, ms) && n < |ls|
    ensures Inv(ls[n])
  {
    hide Enabled, Apply;
    if n > 0 {
      RunInv(ls, ms, n - 1);
      InvStep(ls[n - 1], ms[n - 1]);
    }
  }

  /** In every reachable state a registered session is registered once, under its own id, and
      its queue is open; so a message sent while the registry is walked never meets a closed
      queue. The only send that can is a relay, whose target was looked up before. */
  lemma RegistrySafe(ls: seq<Locks>, ms: seq<Move>, n: nat)
    requires Run(ls, ms) && n < |ls|
    ensures forall k, k' ::
      k in ls[n].clients && k' in ls[n].clients && ls[n].clients[k] == ls[n].clients[k'] ==> k == k'
    ensures forall k :: k in ls[n].clients ==> Id(ls[n], ls[n].clients[k]) == k && ls[n].clients[k] !in ls[n].closed
    ensures n < |ms| ==> forall t :: SendsTo(ls[n], ms[n], t) && t in ls[n].closed ==> ms[n].RelaySend?
  {
    hide Enabled, Apply;
    RunInv(ls, ms, n);
    if n < |ms| {
      SendsOpen(ls[n], ms[n]);
    }
  }

  lemma SendsOpen(l: Locks, m: Move)
    requires Inv(l) && Enabled(l, m)
    ensures forall t :: SendsTo(l, m, t) && t in l.closed ==> m.RelaySend?
  {}

  lemma GoneStep(l: Locks, m: Move, s: Sid)
    requires Enabled(l, m) && s in l.pc && !Active(l.pc[s])
    ensures s in Apply(l, m).pc && !Active(Apply(l, m).pc[s])
  {
    hide Seen, Drop;
  }

  /** A session that has left is never in the registry again. */
  lemma {:induction false} GoneForGood(ls: seq<Locks>, ms: seq<Move>, n: nat, k: nat, s: Sid)
    requires Run(ls, ms) && n <= k < |ls| && s in ls[n].pc && !Active(ls[n].pc[s])
    ensures s in ls[k].pc && !Active(ls[k].pc[s])
    ensures forall id :: id in ls[k].clients ==> ls[k].clients[id] != s
  {
    hide Enabled, Apply;
    if k > n {
      GoneForGood(ls, ms, n, k - 1, s);
      GoneStep(ls[k - 1], ms[k - 1], s);
    }
    RunInv(ls, ms, k);
  }

  // --- when a relay meets a closed queue -----------------------------------------------

  /** A queue is closed exactly when its session has closed it. */
  lemma {:induction false} ClosedIff(ls: seq<Locks>, ms: seq<Move>, n: nat, t: Sid)
    requires Run(ls, ms) && n < |ls|
    ensures t in ls[n].closed <==> exists j :: 0 <= j < n && ms[j] == Close(t)
  {
    hide Enabled;
    if n > 0 {
      ClosedIff(ls, ms, n - 1, t);
      ClosedMore(ls[n - 1], ms[n - 1]);
      assert ms[n - 1] == Close(t) || ms[n - 1] != Close(t);
    }
  }

  lemma ClosedMore(l: Locks, m: Move)
    ensures Apply(l, m).closed == if m.Close? then l.closed + {m.s} else l.closed
  {
    hide Seen, Drop;
  }

  /** Move i is the lookup for which session s sends at move n. */
  ghost predicate LookedUp(ms: seq<Move>, i: nat, n: nat, s: Sid) {
    i < n <= |ms| && ms[i].Lookup? && ms[i].s == s && forall j :: i < j < n ==> ms[j].s != s
  }

  /** A session that holds a target looked it up with its last move, when the target's queue was
      open and the target registered. */
  lemma {:induction false} HeldSince(ls: seq<Locks>, ms: seq<Move>, n: nat, s: Sid) returns (i: nat)
    requires Run(ls, ms) && n < |ls| && PcOf(ls[n], s).Holding?
    ensures LookedUp(ms, i, n, s) && ms[i].to in ls[i].clients && ls[i].clients[ms[i].to] == PcOf(ls[n], s).target
  {
    hide Enabled;
    assert n > 0;
    var l, m := ls[n - 1], ms[n - 1];
    HoldingBy(l, m, s);
    if m.s == s {
      i := n - 1;
    } else {
      i := HeldSince(ls, ms, n - 1, s);
    }
  }

  lemma HoldingBy(l: Locks, m: Move, s: Sid)
    requires Enabled(l, m) && PcOf(Apply(l, m), s).Holding?
    ensures if m.s != s then PcOf(l, s) == PcOf(Apply(l, m), s)
            else m.Lookup? && m.to in l.clients && l.clients[m.to] == PcOf(Apply(l, m), s).target
  {
    hide Seen, Drop;
  }

  /** Every relay has its lookup, and it meets a closed queue exactly when its target closed the
      queue after that lookup, and never while the target is still registered. */
  lemma RelayMeetsClosedIff(ls: seq<Locks>, ms: seq<Move>, n: nat, s: Sid) returns (i: nat)
    requires Run(ls, ms) && n < |ms| && ms[n] == RelaySend(s)
    ensures LookedUp(ms, i, n, s) && PcOf(ls[n], s).Holding?
    ensures var t := PcOf(ls[n], s).target;
      && (t in ls[n].closed <==> exists j :: i < j < n && ms[j] == Close(t))
      && (t in ls[n].clients.Values ==> t !in ls[n].closed)
  {
    hide Enabled, Apply, ClientsOk, ClosedOk, LockOk;
    SendHolds(ls, ms, n);
    i := HeldSince(ls, ms, n, s);
    var t := PcOf(ls[n], s).target;
    RunInv(ls, ms, i);
    RunInv(ls, ms, n);
    OpenClient(ls[i], ms[i].to);
    ClosedIff(ls, ms, n, t);
    ClosedIff(ls, ms, i, t);
    if t in ls[n].clients.Values {
      var k :| k in ls[n].clients && ls[n].clients[k] == t;
      OpenClient(ls[n], k);
    }
  }

  lemma SendHolds(ls: seq<Locks>, ms: seq<Move>, n: nat)
    requires Run(ls, ms) && n < |ms| && ms[n].RelaySend?
    ensures PcOf(ls[n], ms[n].s).Holding?
  {}

  lemma OpenClient(l: Locks, k: string)
    requires Inv(l) && k in l.clients
    ensures l.clients[k] !in l.closed
  {}

  // --- when a session is up to date ------------------------------------------------------

  /** Move i built the list that session t still carries before move n. */
  ghost predicate BuiltAt(ms: seq<Move>, n: nat, i: nat, t: Sid) {
    i < n <= |ms| && ms[i] == List(t) && forall j :: i < j < n ==> ms[j] != List(t)
  }

  /** Move j is the last before move n to put a list on the queue of session s. */
  ghost predicate LastPut(ls: seq<Locks>, ms: seq<Move>, n: nat, j: nat, s: Sid) {
    && |ls| == |ms| + 1 && j < n < |ls| && PutsOn(ls[j], ms[j]) == Some(s)
    && forall k :: j < k < n ==> PutsOn(ls[k], ms[k]) != Some(s)
  }

  lemma CarriesStep(l: Locks, m: Move, t: Sid)
    requires Enabled(l, m) && Carries(PcOf(Apply(l, m), t)).Some?
    ensures if m == List(t) then Carries(PcOf(Apply(l, m), t)) == Some(l.clients.Keys)
            else Carries(PcOf(Apply(l, m), t)) == Carries(PcOf(l, t))
  {
    hide Seen, Drop;
  }

  /** A list being sent is the registry as it was when the thread built it. */
  lemma {:induction false} ListIsOld(ls: seq<Locks>, ms: seq<Move>, n: nat, t: Sid) returns (i: nat)
    requires Run(ls, ms) && n < |ls| && Carries(PcOf(ls[n], t)).Some?
    ensures BuiltAt(ms, n, i, t) && Carries(PcOf(ls[n], t)) == Some(ls[i].clients.Keys)
  {
    hide Enabled, Apply;
    assert n > 0;
    CarriesStep(ls[n - 1], ms[n - 1], t);
    if ms[n - 1] == List(t) {
      i := n - 1;
    } else {
      i := ListIsOld(ls, ms, n - 1, t);
    }
  }

  lemma ViewStep(l: Locks, m: Move)
    requires Enabled(l, m)
    ensures PutsOn(l, m).Some? ==> Carries(PcOf(l, m.s)).Some?
    ensures Apply(l, m).view ==
      if PutsOn(l, m).Some? then l.view[PutsOn(l, m).value := Carries(PcOf(l, m.s)).value] else l.view
  {
    hide Drop, Listed;
  }

  /** What a session was last sent is what the last move to put a list on its queue carried. */
  lemma {:induction false} ViewIsLastPut(ls: seq<Locks>, ms: seq<Move>, n: nat, s: Sid)
    requires Run(ls, ms) && n < |ls|
    ensures s in ls[n].view <==> exists j: nat :: LastPut(ls, ms, n, j, s)
    ensures forall j: nat :: LastPut(ls, ms, n, j, s) ==> Carries(PcOf(ls[j], ms[j].s)) == Some(ls[n].view[s])
  {
    hide Enabled, Apply, PutsOn, Carries;
    if n > 0 {
      ViewIsLastPut(ls, ms, n - 1, s);
      ViewStep(ls[n - 1], ms[n - 1]);
      PutOneMore(ls, ms, n - 1, n, s);
    }
  }

  lemma PutOneMore(ls: seq<Locks>, ms: seq<Move>, m: nat, n: nat, s: Sid)
    requires Run(ls, ms) && m + 1 == n < |ls|
    ensures forall j: nat :: LastPut(ls, ms, n, j, s) <==>
      if PutsOn(ls[m], ms[m]) == Some(s) then j == m else LastPut(ls, ms, m, j, s)
  {
    hide Enabled, Apply, PutsOn;
  }

  /** The session's queue ends, as far as lists go, with the registry's present keys. */
  ghost predicate UpToDate(l: Locks, s: Sid) {
    s in l.view && l.view[s] == l.clients.Keys
  }

  /** A session is up to date exactly when the last list put on its queue, by a broadcast or as an
      answer, was built when the registry had its present keys. */
  lemma UpToDateIff(ls: seq<Locks>, ms: seq<Move>, n: nat, s: Sid)
    requires Run(ls, ms) && n < |ls|
    ensures UpToDate(ls[n], s) <==>
      exists j: nat, i: nat ::
        LastPut(ls, ms, n, j, s) && BuiltAt(ms, j, i, ms[j].s) && ls[i].clients.Keys == ls[n].clients.Keys
  {
    hide Enabled, Apply, Run, PutsOn, Carries;
    ViewIsLastPut(ls, ms, n, s);
    if j: nat :| LastPut(ls, ms, n, j, s) {
      var i := ListIsOld(ls, ms, j, ms[j].s);
      OnePut(ls, ms, n, j, s);
      assert forall i': nat :: BuiltAt(ms, j, i', ms[j].s) ==> i' == i;
    }
  }

  lemma OnePut(ls: seq<Locks>, ms: seq<Move>, n: nat, j: nat, s: Sid)
    requires LastPut(ls, ms, n, j, s)
    ensures forall j': nat :: LastPut(ls, ms, n, j', s) ==> j' == j
  {
    hide PutsOn;
  }

  /** In particular a list built after the last registration and the last departure is right. */
  lemma {:induction false} QuietRegistry(ls: seq<Locks>, ms: seq<Move>, i: nat, n: nat)
    requires Run(ls, ms) && i <= n < |ls| && forall k :: i <= k < n ==> !ms[k].Register? && !ms[k].Unregister?
    ensures ls[n].clients.Keys == ls[i].clients.Keys
  {
    hide Enabled;
    if i < n {
      QuietRegistry(ls, ms, i, n - 1);
      SameClients(ls[n - 1], ms[n - 1]);
    }
  }

  lemma SameClients(l: Locks, m: Move)
    requires !m.Register? && !m.Unregister?
    ensures Apply(l, m).clients == l.clients
  {
    hide Seen;
  }

  // --- two runs that show what the lock does not give --------------------------------

  ghost predicate MeetsClosedQueue(ls: seq<Locks>, ms: seq<Move>, n: nat, t: Sid) {
    Run(ls, ms) && n < |ms| && SendsTo(ls[n], ms[n], t) && t in ls[n].closed
  }

  lemma Then(ls: seq<Locks>, ms: seq<Move>, m: Move, l: Locks) returns (ls': seq<Locks>, ms': seq<Move>)
    requires Run(ls, ms) && Enabled(ls[|ms|], m) && l == Apply(ls[|ms|], m)
    ensures Run(ls', ms') && |ms'| == |ms| + 1 && |ls'| == |ms| + 2 && ls'[|ms'|] == l
    ensures ls'[|ms|] == ls[|ms|] && ms'[|ms|] == m
  {
    hide Enabled, Apply;
    ls', ms' := ls + [l], ms + [m];
  }

  lemma StartRun() returns (ls: seq<Locks>, ms: seq<Move>)
    ensures Run(ls, ms) && |ms| == 0 && ls[0] == START
  {
    ls, ms := [START], [];
  }

  /** The places of sessions 1 and 2. */
  function Two(first: Pc, second: Pc): map<Sid, Pc> {
    map[1 := first, 2 := second]
  }

  /** Session 1 registered as a, session 2 only connected. */
  function Alone(holder: set<Sid>, pc: map<Sid, Pc>, view: map<Sid, set<string>>): Locks {
    Locks(holder, map["a" := 1], map[1 := "a", 2 := ""], pc, {}, view)
  }

  /** Sessions 1 and 2 registered as a and b. */
  function Paired(holder: set<Sid>, pc: map<Sid, Pc>, view: map<Sid, set<string>>): Locks {
    Locks(holder, map["a" := 1, "b" := 2], map[1 := "a", 2 := "b"], pc, {}, view)
  }

  /** Session 1 is registered as a and has built its list; session 2 is connected. */
  lemma FirstListed() returns (ls: seq<Locks>, ms: seq<Move>)
    ensures Run(ls, ms)
    ensures ls[|ms|] == Alone({}, Two(Sending({"a"}), Reading), map[])
  {
    hide Run;
    ls, ms := StartRun();
    ls, ms := Then(ls, ms, Accept(1), Locks({}, map[], map[1 := ""], map[1 := Reading], {}, map[]));
    ls, ms := Then(ls, ms, Accept(2), Locks({}, map[], map[1 := "", 2 := ""], Two(Reading, Reading), {}, map[]));
    assert map["a" := 1].Keys == {"a"};
    ls, ms := Then(ls, ms, Register(1, "a"), Alone({}, Two(Listing, Reading), map[]));
    ls, ms := Then(ls, ms, List(1), Alone({}, Two(Sending({"a"}), Reading), map[]));
  }

  /** Session 2 has looked session 1 up for a relay. */
  lemma TargetHeld() returns (ls: seq<Locks>, ms: seq<Move>)
    ensures Run(ls, ms)
    ensures ls[|ms|] == Alone({}, Two(Reading, Holding(1)), map[1 := {"a"}])
  {
    hide Run;
    ls, ms := FirstListed();
    var view := map[1 := {"a"}];
    assert map["a" := 1].Keys == {"a"} && {"a"} - {"a"} == {};
    ls, ms := Then(ls, ms, Enter(1), Alone({1}, Two(InLoop({"a"}, {"a"}), Reading), map[]));
    ls, ms := Then(ls, ms, SendOne(1, "a", false), Alone({1}, Two(InLoop({"a"}, {}), Reading), view));
    ls, ms := Then(ls, ms, Leave(1), Alone({}, Two(Reading, Reading), view));
    ls, ms := Then(ls, ms, Lookup(2, "a"), Alone({}, Two(Reading, Holding(1)), view));
  }

  /** And session 1 left the registry. */
  lemma TargetGone() returns (ls: seq<Locks>, ms: seq<Move>)
    ensures Run(ls, ms)
    ensures ls[|ms|] == Locks({}, map[], map[1 := "a", 2 := ""], Two(Unregistered, Holding(1)), {}, map[1 := {"a"}])
  {
    hide Run;
    ls, ms := TargetHeld();
    var ids, view := map[1 := "a", 2 := ""], map[1 := {"a"}];
    ls, ms := Then(ls, ms, Hangup(1), Alone({}, Two(Leaving, Holding(1)), view));
    ls, ms := Then(ls, ms, Unregister(1), Locks({}, map[], ids, Two(Unregistered, Holding(1)), {}, view));
  }

  /** A relay can meet a closed queue: the target leaves between lookup and send. */
  lemma RelayMeetsClosedQueue()
    ensures exists ls, ms, n: nat, t :: MeetsClosedQueue(ls, ms, n, t)
  {
    hide Run;
    var ls, ms := TargetGone();
    var ids, view := map[1 := "a", 2 := ""], map[1 := {"a"}];
    var none: map<string, Sid> := map[];
    ls, ms := Then(ls, ms, Close(1), Locks({}, none, ids, Two(LastListing, Holding(1)), {1}, view));
    var n := |ms|;
    ls, ms := Then(ls, ms, RelaySend(2), Locks({}, none, ids, Two(LastListing, Reading), {1}, view));
    assert MeetsClosedQueue(ls, ms, n, 1);
  }

  /** Nobody is busy, yet a registered session was last sent another online set than the
      registry's. */
  ghost predicate Stale(l: Locks, s: Sid) {
    && (forall t :: t in l.pc ==> l.pc[t] == Reading)
    && s in l.clients.Values && s in l.view && l.view[s] != l.clients.Keys
  }

  ghost predicate ReachesStale(ls: seq<Locks>, ms: seq<Move>, n: nat, s: Sid) {
    Run(ls, ms) && n < |ls| && Stale(ls[n], s)
  }

  /** A list built before another session registered can be sent after that session's own:
      with handlers interleaved, the machine list in force can be an old one. */
  lemma OldListSentLast()
    ensures exists ls, ms, n: nat, s :: ReachesStale(ls, ms, n, s)
  {
    hide Run, Stale;
    var ls, ms := FirstListed();
    BothKeys();
    ls, ms := Then(ls, ms, Register(2, "b"), Paired({}, Two(Sending({"a"}), Listing), map[]));
    ls, ms := Then(ls, ms, List(2), Paired({}, Two(Sending({"a"}), Sending({"a", "b"})), map[]));
    ls, ms := SecondSends(ls, ms);
    ls, ms := FirstHalfSent(ls, ms);
    ls, ms := FirstSendsLate(ls, ms);
    OldView(ls[|ms|]);
    assert ReachesStale(ls, ms, |ms|, 2);
  }

  lemma BothKeys()
    ensures map["a" := 1, "b" := 2].Keys == {"a", "b"} && {"a", "b"} - {"a"} == {"b"} && {"b"} - {"b"} == {}
  {}

  lemma FirstHalfSent(ls0: seq<Locks>, ms0: seq<Move>) returns (ls: seq<Locks>, ms: seq<Move>)
    requires Run(ls0, ms0)
    requires ls0[|ms0|] == Paired({}, Two(Sending({"a"}), Reading), map[1 := {"a", "b"}, 2 := {"a", "b"}])
    ensures Run(ls, ms)
    ensures ls[|ms|] == Paired({1}, Two(InLoop({"a"}, {"b"}), Reading), map[1 := {"a"}, 2 := {"a", "b"}])
  {
    hide Run;
    var both := {"a", "b"};
    BothKeys();
    ls, ms := Then(ls0, ms0, Enter(1), Paired({1}, Two(InLoop({"a"}, both), Reading), map[1 := both, 2 := both]));
    ls, ms := Then(ls, ms, SendOne(1, "a", false),
      Paired({1}, Two(InLoop({"a"}, {"b"}), Reading), map[1 := {"a"}, 2 := both]));
  }

  lemma FirstSendsLate(ls0: seq<Locks>, ms0: seq<Move>) returns (ls: seq<Locks>, ms: seq<Move>)
    requires Run(ls0, ms0)
    requires ls0[|ms0|] == Paired({1}, Two(InLoop({"a"}, {"b"}), Reading), map[1 := {"a"}, 2 := {"a", "b"}])
    ensures Run(ls, ms) && |ls| == |ms| + 1
    ensures ls[|ms|] == Paired({}, Two(Reading, Reading), map[1 := {"a"}, 2 := {"a"}])
  {
    hide Run;
    var view := map[1 := {"a"}, 2 := {"a"}];
    BothKeys();
    ls, ms := Then(ls0, ms0, SendOne(1, "b", false), Paired({1}, Two(InLoop({"a"}, {}), Reading), view));
    ls, ms := Then(ls, ms, Leave(1), Paired({}, Two(Reading, Reading), view));
  }

  lemma OldView(l: Locks)
    requires l == Paired({}, Two(Reading, Reading), map[1 := {"a"}, 2 := {"a"}])
    ensures Stale(l, 2)
  {
    assert "b" in l.clients && "b" !in {"a"};
    assert l.clients["b"] == 2;
  }

  lemma SecondSends(ls0: seq<Locks>, ms0: seq<Move>) returns (ls: seq<Locks>, ms: seq<Move>)
    requires Run(ls0, ms0)
    requires ls0[|ms0|] == Paired({}, Two(Sending({"a"}), Sending({"a", "b"})), map[])
    ensures Run(ls, ms)
    ensures ls[|ms|] == Paired({}, Two(Sending({"a"}), Reading), map[1 := {"a", "b"}, 2 := {"a", "b"}])
  {
    hide Run;
    var first, both := Sending({"a"}), {"a", "b"};
    BothKeys();
    ls, ms := Then(ls0, ms0, Enter(2), Paired({2}, Two(first, InLoop(both, both)), map[]));
    ls, ms := Then(ls, ms, SendOne(2, "a", false), Paired({2}, Two(first, InLoop(both, {"b"})), map[1 := both]));
    var view := map[1 := both, 2 := both];
    ls, ms := Then(ls, ms, SendOne(2, "b", false), Paired({2}, Two(first, InLoop(both, {})), view));
    ls, ms := Then(ls, ms, Leave(2), Paired({}, Two(first, Reading), view));
  }
}
