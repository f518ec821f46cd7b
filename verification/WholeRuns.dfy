/** Whole runs of daemons and hub, and what holds of every channel in them. */
module WholeRuns {
  import opened Basics
  import opened Endpoint
  import opened DaemonModel
  import opened SealedText
  import opened RelaySystem
  import opened RelayHub
  import C = Channel
  import H = HubModel
  import HR = HubRuns
  import R = RelayRuns
  import A = RelayAsked

  ghost predicate WholeStart<S>(w: Whole<S>) {
    && HR.Init(w.hub) && w.drawn == {} && w.owner == map[] && w.conn == map[] && w.read == map[]
    && forall id :: id in w.daemons ==> w.daemons[id] == Daemon(id, map[], [])
  }

  ghost predicate WholeRun<S>(ws: seq<Whole<S>>, moves: seq<Move<S>>, k: Codec) {
    && |ws| == |moves| + 1 && WholeStart(ws[0])
    && forall i :: 0 <= i < |moves| ==> Possible(ws[i], moves[i]) && ws[i + 1] == Next(ws[i], moves[i], k)
  }

  /** No move before n lost or refused anything of the channel. */
  ghost predicate AllCalm<S>(ws: seq<Whole<S>>, moves: seq<Move<S>>, n: nat, cid: string, k: Codec)
    requires WholeRun(ws, moves, k) && n < |ws|
  {
    forall i :: 0 <= i < n ==> Calm(ws[i], moves[i], cid, k)
  }

  // --- in step with the relay system ---------------------------------------------------------------

  /** The run of the relay system goes where the whole goes, move by move: it is at `at[i]` when the
      whole is at i, and what lies between is the step that move i is, or the losses it causes. */
  ghost predicate Tracks<S>(ws: seq<Whole<S>>, moves: seq<Move<S>>, n: nat, k: Codec,
                            ss: seq<System>, acts: seq<Act>, at: seq<nat>)
    requires WholeRun(ws, moves, k) && n < |ws|
  {
    && R.Run(ss, acts) && |at| == n + 1 && at[0] == 0 && at[n] == |acts|
    && (forall i :: 0 <= i <= n ==> at[i] <= |acts| && WholeOk(ws[i]) && Rel(ws[i], ss[at[i]], k))
    && (forall i :: 0 <= i < n ==> Does(ws[i], moves[i], acts, at[i], at[i + 1]))
  }

  /** Whatever the hub, the sessions and the network do, what the daemons go through is a run of the
      relay system, and a channel of which nothing was lost is undisturbed in it. */
  lemma {:induction false} InRelaySystem<S>(ws: seq<Whole<S>>, moves: seq<Move<S>>, n: nat, k: Codec)
    returns (ss: seq<System>, acts: seq<Act>, at: seq<nat>)
    requires WholeRun(ws, moves, k) && Inverts(k) && n < |ws|
    ensures Tracks(ws, moves, n, k, ss, acts, at)
    ensures forall cid :: cid in ss[|acts|].opens && AllCalm(ws, moves, n, cid, k) ==> ss[|acts|].opens[cid].clean
  {
    hide Possible, Next, WholeStart, WholeOk, Inverts, Rel, Calm, Enabled, Step, Start, Does, Leads, R.Run;
    if n == 0 {
      ss, acts, at := [EmptySystem(ws[0])], [], [0];
      StartsEmpty(ws[0], k);
    } else {
      ss, acts, at := InRelaySystem(ws, moves, n - 1, k);
      RunLengths(ss, acts);
      var w, a, before, done, s := ws[n - 1], moves[n - 1], ss, acts, ss[|acts|];
      WholeStep(w, a, k);
      ss, acts := Simulated(before, done, w, a, k);
      forall i | 0 <= i < n - 1
        ensures Does(ws[i], moves[i], acts, at[i], at[i + 1])
      {
        DoesStill(ws[i], moves[i], done, acts, at[i], at[i + 1]);
      }
      RunLengths(ss, acts);
      LeadsTo(w, a, s, ss[|acts|], k);
      at := at + [|acts|];
      forall cid | cid in ss[|acts|].opens && AllCalm(ws, moves, n, cid, k)
        ensures ss[|acts|].opens[cid].clean
      {
        assert Calm(w, a, cid, k) && AllCalm(ws, moves, n - 1, cid, k);
        NewOrOld(w, a, s, ss[|acts|], cid, k);
      }
    }
  }

  lemma DoesStill<S>(w: Whole<S>, a: Move<S>, acts: seq<Act>, acts': seq<Act>, p: nat, q: nat)
    requires Possible(w, a) && Does(w, a, acts, p, q) && acts <= acts'
    ensures Does(w, a, acts', p, q)
  {
    hide StepOf;
  }

  lemma RunLengths(ss: seq<System>, acts: seq<Act>)
    requires R.Run(ss, acts)
    ensures |ss| == |acts| + 1
  {
    hide Start, Enabled, Step;
  }

  lemma LeadsTo<S>(w: Whole<S>, a: Move<S>, s: System, s': System, k: Codec)
    requires Possible(w, a) && Leads(w, a, s, s', k)
    ensures Rel(Next(w, a, k), s', k)
  {
    hide Rel, Next, Calm, CleanKept;
  }

  function EmptySystem<S>(w: Whole<S>): System {
    System(w.daemons, map id | id in w.daemons :: [], map[])
  }

  lemma StartsEmpty<S>(w: Whole<S>, k: Codec)
    requires WholeStart(w)
    ensures R.Run([EmptySystem(w)], []) && Rel(w, EmptySystem(w), k) && WholeOk(w)
  {
    HR.InitOk(w.hub);
  }

  lemma NewOrOld<S>(w: Whole<S>, a: Move<S>, s: System, s': System, cid: string, k: Codec)
    requires Rel(w, s, k) && Possible(w, a) && Leads(w, a, s, s', k) && Calm(w, a, cid, k) && cid in s'.opens
    requires cid in s.opens ==> s.opens[cid].clean
    ensures s'.opens[cid].clean
  {
    hide HandleMessage, LocalStep, OpenChannel, H.Handle, H.Leave, Allowed, InboxOf, Passes;
  }

  lemma {:induction false} InOrder<S>(ws: seq<Whole<S>>, moves: seq<Move<S>>, n: nat, k: Codec,
                                      ss: seq<System>, acts: seq<Act>, at: seq<nat>, i: nat, j: nat)
    requires WholeRun(ws, moves, k) && n < |ws| && Tracks(ws, moves, n, k, ss, acts, at) && i <= j <= n
    ensures at[i] <= at[j] <= |acts|
    decreases j
  {
    hide Possible, Next, WholeStart, WholeOk, Rel, R.Run, StepOf;
    if i < j {
      InOrder(ws, moves, n, k, ss, acts, at, i, j - 1);
    }
  }

  /** Every step of the relay system belongs to a move. */
  lemma {:induction false} MoveOf(at: seq<nat>, n: nat, m: nat) returns (i: nat)
    requires n < |at| && at[0] <= m < at[n]
    ensures i < n && at[i] <= m < at[i + 1]
  {
    i := n - 1;
    if m < at[n - 1] {
      i := MoveOf(at, n - 1, m);
    }
  }

  /** Move i when it is a step: what that step is and where it is taken. */
  lemma StepTaken<S>(ws: seq<Whole<S>>, moves: seq<Move<S>>, n: nat, k: Codec,
                     ss: seq<System>, acts: seq<Act>, at: seq<nat>, i: nat)
    requires WholeRun(ws, moves, k) && n < |ws| && Tracks(ws, moves, n, k, ss, acts, at) && i < n
    requires StepOf(ws[i], moves[i]).Some?
    ensures at[i] < |acts| && |ss| == |acts| + 1 && at[i + 1] == at[i] + 1 <= at[n]
    ensures acts[at[i]] == StepOf(ws[i], moves[i]).value && Enabled(ss[at[i]], acts[at[i]])
    ensures Rel(ws[i], ss[at[i]], k) && Rel(ws[n], ss[at[n]], k)
  {
    hide Possible, Next, WholeStart, WholeOk, Rel, StepOf, Enabled, Step, Start;
    InOrder(ws, moves, n, k, ss, acts, at, i + 1, n);
  }

  /** A step that is no loss is that of a move. */
  lemma MoveTaken<S>(ws: seq<Whole<S>>, moves: seq<Move<S>>, n: nat, k: Codec,
                     ss: seq<System>, acts: seq<Act>, at: seq<nat>, m: nat) returns (i: nat)
    requires WholeRun(ws, moves, k) && n < |ws| && Tracks(ws, moves, n, k, ss, acts, at)
    requires m < |acts| && !acts[m].LoseAt?
    ensures i < n && at[i] == m && StepOf(ws[i], moves[i]) == Some(acts[m])
    ensures |ss| == |acts| + 1 && Enabled(ss[m], acts[m]) && Rel(ws[i], ss[m], k)
  {
    hide Possible, Next, WholeStart, WholeOk, Rel, StepOf, Enabled, Step, Start;
    i := MoveOf(at, n, m);
    assert Does(ws[i], moves[i], acts, at[i], at[i + 1]);
  }

  // --- in step with the hub ------------------------------------------------------------------------

  /** The steps of the hub from p to q are the one of the move, if it has one. */
  ghost predicate HubDoes<S>(w: Whole<S>, a: Move<S>, k: Codec, acts: seq<HR.Act<S>>, p: nat, q: nat)
    requires Possible(w, a)
  {
    match HubAct(w, a, k)
    case Some(act) => q == p + 1 <= |acts| && acts[p] == act
    case None => q == p <= |acts|
  }

  /** What the hub goes through is a run of the hub, move by move, so everything proved of those holds
      here. */
  lemma {:induction false} InHubRuns<S>(ws: seq<Whole<S>>, moves: seq<Move<S>>, n: nat, k: Codec)
    returns (hs: seq<H.HubState<S>>, acts: seq<HR.Act<S>>, at: seq<nat>)
    requires WholeRun(ws, moves, k) && n < |ws|
    ensures HR.Run(hs, acts) && |at| == n + 1 && at[0] == 0 && at[n] == |acts|
    ensures forall i :: 0 <= i <= n ==> at[i] <= |acts| && hs[at[i]] == ws[i].hub
    ensures forall i :: 0 <= i < n ==> HubDoes(ws[i], moves[i], k, acts, at[i], at[i + 1])
  {
    hide Possible, Next, HR.Step, HR.Init, HubAct;
    if n == 0 {
      hs, acts, at := [ws[0].hub], [], [0];
      HubStarts(ws[0]);
    } else {
      hs, acts, at := InHubRuns(ws, moves, n - 1, k);
      HubSteps(ws[n - 1], moves[n - 1], k);
      var act, done := HubAct(ws[n - 1], moves[n - 1], k), acts;
      if act.Some? {
        hs, acts := hs + [ws[n].hub], acts + [act.value];
      }
      forall i | 0 <= i < n - 1
        ensures HubDoes(ws[i], moves[i], k, acts, at[i], at[i + 1])
      {
        assert HubDoes(ws[i], moves[i], k, done, at[i], at[i + 1]);
      }
      assert HubDoes(ws[n - 1], moves[n - 1], k, acts, at[n - 1], |acts|);
      at := at + [|acts|];
    }
  }

  lemma HubStarts<S>(w: Whole<S>)
    requires WholeStart(w)
    ensures HR.Init(w.hub)
  {}

  // --- bytes ---------------------------------------------------------------------------------------

  /** The two ends of a channel and everything on its way between them; no other machine has an end. */
  ghost predicate EndToEnd<S>(w: Whole<S>, cid: string, cons: string, prov: string, calm: bool, k: Codec) {
    && cons in w.daemons && prov in w.daemons && cons != prov
    && OnlyEnds(w, cid, cons, prov)
    && var c, p := EndAt(w.daemons[cons], cid), EndAt(w.daemons[prov], cid);
    && c.Present? && !c.ch.provider
    && C.Streams(c, Due(InboxOf(w, cons, k), cid) + Sent(w.daemons[prov].send, cid), p, calm)
    && C.Streams(p, Due(InboxOf(w, prov, k), cid) + Sent(w.daemons[cons].send, cid), c, calm)
    && (calm && !c.ch.kind.Caps? && !Live(c) ==> C.Held(c) == Flat(ReadOf(p)) && !Live(p))
  }

  ghost predicate OnlyEnds<S>(w: Whole<S>, cid: string, cons: string, prov: string) {
    forall id :: id in w.daemons && EndAt(w.daemons[id], cid).Present? ==>
      id == if EndAt(w.daemons[id], cid).ch.provider then prov else cons
  }

  /** From the move that opens a channel on, both directions between opener and peer carry their bytes
      in order; and when no move lost or refused anything of it, nothing is missing. */
  lemma WholeBytes<S>(ws: seq<Whole<S>>, moves: seq<Move<S>>, i: nat, n: nat, k: Codec)
    requires WholeRun(ws, moves, k) && Inverts(k) && i < n < |ws| && moves[i].OpenTo?
    ensures var a := moves[i]; EndToEnd(ws[n], a.cid, a.me, a.peer, AllCalm(ws, moves, n, a.cid, k), k)
  {
    hide Possible, Next, WholeStart, WholeOk, Inverts, Start, Enabled, Step, InboxOf, AllCalm, EndToEnd;
    var a := moves[i];
    var ss, acts, at := InRelaySystem(ws, moves, n, k);
    StepTaken(ws, moves, n, k, ss, acts, at, i);
    R.OpenedBy(ss, acts, at[i], |acts|);
    BothEnds(ss, acts, ws[n], a.cid, AllCalm(ws, moves, n, a.cid, k), k);
  }

  /** And every channel drawn was opened by a move. */
  lemma {:induction false} OpenedByMove<S>(ws: seq<Whole<S>>, moves: seq<Move<S>>, n: nat, cid: string, k: Codec)
    returns (i: nat)
    requires WholeRun(ws, moves, k) && n < |ws| && cid in ws[n].drawn
    ensures i < n && moves[i].OpenTo? && moves[i].cid == cid
  {
    hide Possible, H.Handle, H.Leave, HandleMessage, LocalStep, OpenChannel;
    i := n - 1;
    if cid in ws[n - 1].drawn {
      i := OpenedByMove(ws, moves, n - 1, cid, k);
    }
  }

  lemma BothEnds<S>(ss: seq<System>, acts: seq<Act>, w: Whole<S>, cid: string, calm: bool, k: Codec)
    requires R.Run(ss, acts) && Rel(w, ss[|acts|], k) && cid in ss[|acts|].opens
    requires calm ==> ss[|acts|].opens[cid].clean
    ensures EndToEnd(w, cid, ss[|acts|].opens[cid].cons, ss[|acts|].opens[cid].prov, calm, k)
  {
    hide Enabled, Step, Start, C.Streams, InboxOf, Sent, Due, R.Undisturbed, R.KeysKnown, C.Held, C.Inv, DaemonOk,
      InboxOk, OnlyEnds;
    var m := |acts|;
    var s, p := ss[m], ss[m].opens[cid];
    R.RunOk(ss, acts, m, cid);
    R.FlagsMean(ss, acts, m, cid);
    R.BytesInOrder(ss, acts, m, cid);
    RolesOnly(s, w, cid, k);
    var c, e := EndAt(s.daemons[p.cons], cid), EndAt(s.daemons[p.prov], cid);
    StreamsWeaken(c, Flight(s, p.prov, p.cons, cid), e, p.clean, calm);
    StreamsWeaken(e, Flight(s, p.cons, p.prov, cid), c, p.clean, calm);
    if calm && c.Present? && !c.ch.kind.Caps? && !Live(c) {
      R.DeliveredInFull(ss, acts, m, cid);
    }
  }

  lemma RolesOnly<S>(s: System, w: Whole<S>, cid: string, k: Codec)
    requires Routed(s) && Rel(w, s, k) && cid in s.opens && C.Inv(View(s, cid))
    ensures OnlyEnds(w, cid, s.opens[cid].cons, s.opens[cid].prov)
    ensures s.opens[cid].cons in s.daemons && EndAt(s.daemons[s.opens[cid].cons], cid).Present?
    ensures !EndAt(s.daemons[s.opens[cid].cons], cid).ch.provider
  {
    hide Routed, C.DirsOk, C.ClosesOk, C.CloseLast, C.CapsOk, C.StaysOk, EndOk;
    R.EndOfView(s, s.opens[cid].cons, cid);
    C.PresentConsumer(View(s, cid));
    forall id | id in w.daemons && EndAt(w.daemons[id], cid).Present?
      ensures id == if EndAt(w.daemons[id], cid).ch.provider then s.opens[cid].prov else s.opens[cid].cons
    {
      R.EndOfView(s, id, cid);
      R.SideByRole(s, id, cid);
    }
  }

  lemma StreamsWeaken(rcv: End, flight: seq<Frame>, snd: End, clean: bool, calm: bool)
    requires C.Streams(rcv, flight, snd, clean) && (calm ==> clean)
    ensures C.Streams(rcv, flight, snd, calm)
  {}

  // --- what happens to a channel over time ---------------------------------------------------------

  function WholeEnd<S>(w: Whole<S>, me: string, cid: string): End {
    if me in w.daemons then EndAt(w.daemons[me], cid) else Absent(0)
  }

  /** No channel reopens at any machine. */
  lemma NeverReopened<S>(ws: seq<Whole<S>>, moves: seq<Move<S>>, i: nat, n: nat, me: string, cid: string, k: Codec)
    requires WholeRun(ws, moves, k) && Inverts(k) && i <= n < |ws|
    ensures C.Stage(WholeEnd(ws[i], me, cid)) <= C.Stage(WholeEnd(ws[n], me, cid))
  {
    hide WholeRun, WholeOk, Inverts, R.Run, C.Stage, Does, InboxOf;
    var ss, acts, at := InRelaySystem(ws, moves, n, k);
    InOrder(ws, moves, n, k, ss, acts, at, i, n);
    RunLengths(ss, acts);
    R.NeverReopened(ss, acts, at[i], at[n], me, cid);
  }

  /** A daemon handles a relay frame for a channel it has already closed, from a machine whose key it
      does not know. */
  ghost predicate Repeats<S>(w: Whole<S>, a: Move<S>, me: string, cid: string)
    requires Possible(w, a)
  {
    && a.Deliver? && a.id == me && Unread(w, me)[0].Relayed? && Unread(w, me)[0].channel == cid && !a.env.keyKnown
    && WholeEnd(w, me, cid).closes >= 1
  }

  lemma RepeatsAsStep<S>(w: Whole<S>, a: Move<S>, s: System, me: string, cid: string, k: Codec)
    requires Possible(w, a) && Rel(w, s, k) && StepOf(w, a).Some? && Enabled(s, StepOf(w, a).value)
    ensures R.Repeats(s, StepOf(w, a).value, me, cid) <==> Repeats(w, a, me, cid)
  {
    hide Allowed, Passes, Rejects, Unread, Deliveries;
    if a.Deliver? {
      FirstDelivery(Unread(w, a.id), k);
    }
  }

  lemma NoStepNoRepeat<S>(w: Whole<S>, a: Move<S>, me: string, cid: string)
    requires Possible(w, a)
    ensures Repeats(w, a, me, cid) ==> StepOf(w, a).Some?
  {
    hide Allowed, Passes, Rejects, Unread;
  }

  /** A daemon has sent a second close of a channel exactly when it has handled such a frame. */
  lemma SecondCloseIff<S>(ws: seq<Whole<S>>, moves: seq<Move<S>>, n: nat, me: string, cid: string, k: Codec)
    requires WholeRun(ws, moves, k) && Inverts(k) && n < |ws|
    ensures WholeEnd(ws[n], me, cid).closes > 1 <==> exists i :: 0 <= i < n && Repeats(ws[i], moves[i], me, cid)
  {
    hide Possible, Next, WholeStart, WholeOk, Inverts, Enabled, Step, Start, Does, InboxOf, Repeats, R.Repeats, StepOf;
    var ss, acts, at := InRelaySystem(ws, moves, n, k);
    R.SecondCloseIff(ss, acts, at[n], me, cid);
    if i: nat :| i < n && Repeats(ws[i], moves[i], me, cid) {
      NoStepNoRepeat(ws[i], moves[i], me, cid);
      StepTaken(ws, moves, n, k, ss, acts, at, i);
      RepeatsAsStep(ws[i], moves[i], ss[at[i]], me, cid, k);
    }
    if m: nat :| m < |acts| && R.Repeats(ss[m], acts[m], me, cid) {
      RepeatIsNoLoss(ss[m], acts[m], me, cid);
      var i := MoveTaken(ws, moves, n, k, ss, acts, at, m);
      RepeatsAsStep(ws[i], moves[i], ss[m], me, cid, k);
    }
  }

  lemma RepeatIsNoLoss(s: System, a: Act, me: string, cid: string)
    requires Enabled(s, a)
    ensures R.Repeats(s, a, me, cid) ==> !a.LoseAt?
  {
    hide Enabled;
  }

  /** Where the relay system is when move o has opened a channel and the whole is at n. */
  lemma OpenedMove<S>(ws: seq<Whole<S>>, moves: seq<Move<S>>, n: nat, k: Codec,
                      ss: seq<System>, acts: seq<Act>, at: seq<nat>, o: nat, i: nat)
    requires WholeRun(ws, moves, k) && n < |ws| && Tracks(ws, moves, n, k, ss, acts, at) && o < i <= n
    requires moves[o].OpenTo?
    ensures at[o] < at[i] <= |acts| && acts[at[o]].OpenTo? && acts[at[o]].me == moves[o].me
    ensures acts[at[o]].peer == moves[o].peer
    ensures A.OpenedFor(ss, acts, at[o], at[i], moves[o].cid, moves[o].service, moves[o].dial)
  {
    hide Possible, Next, WholeStart, WholeOk, Rel, Enabled, Step, Start;
    StepTaken(ws, moves, n, k, ss, acts, at, o);
    InOrder(ws, moves, n, k, ss, acts, at, o + 1, i);
    InOrder(ws, moves, n, k, ss, acts, at, i, n);
  }

  /** With the real hub in the middle, too, a channel opened for docker hands over every byte taken. */
  lemma DockerHandsOver<S>(ws: seq<Whole<S>>, moves: seq<Move<S>>, o: nat, n: nat, me: string, k: Codec)
    requires WholeRun(ws, moves, k) && Inverts(k) && o < n < |ws| && moves[o].OpenTo? && moves[o].service.Docker?
    requires me == moves[o].me || me == moves[o].peer
    ensures var e := WholeEnd(ws[n], me, moves[o].cid);
      e.Present? ==>
        if e.ch.attached then e.ch.written == Flat(e.ch.got) && e.ch.buf == []
        else e.ch.buf == Flat(e.ch.got) && e.ch.written == []
  {
    hide Possible, Next, WholeStart, WholeOk, Inverts, Start, Enabled, Step, InboxOf, Flat, Does;
    var ss, acts, at := InRelaySystem(ws, moves, n, k);
    OpenedMove(ws, moves, n, k, ss, acts, at, o, n);
    A.DockerHandsOver(ss, acts, at[o], at[n], moves[o].cid, moves[o].dial, me);
  }

  /** And one opened for an address is lossless at its opener, at every time after the connection is
      attached, exactly when its buffer was empty as it was. */
  lemma TcpLosslessIff<S>(ws: seq<Whole<S>>, moves: seq<Move<S>>, o: nat, i: nat, n: nat, k: Codec)
    requires WholeRun(ws, moves, k) && Inverts(k) && o < i < n < |ws| && moves[o].OpenTo? && moves[o].service.Tcp?
    requires moves[i] == Move<S>.LocalAt(moves[o].me, moves[o].cid, Attach)
    ensures WholeEnd(ws[i], moves[o].me, moves[o].cid).Present?
    ensures var e := WholeEnd(ws[n], moves[o].me, moves[o].cid);
      && e.Present?
      && (e.ch.written == Flat(e.ch.got) <==> WholeEnd(ws[i], moves[o].me, moves[o].cid).ch.buf == [])
  {
    hide Possible, Next, WholeStart, WholeOk, Inverts, Start, Enabled, Step, InboxOf, Flat, Does;
    var ss, acts, at := InRelaySystem(ws, moves, n, k);
    OpenedMove(ws, moves, n, k, ss, acts, at, o, i);
    IsStep(ws[i], moves[i]);
    StepTaken(ws, moves, n, k, ss, acts, at, i);
    A.TcpLosslessIff(ss, acts, at[o], at[i], at[n], moves[o].cid, moves[o].dial);
  }

  lemma IsStep<S>(w: Whole<S>, a: Move<S>)
    requires Possible(w, a) && a.LocalAt?
    ensures StepOf(w, a) == Some(Act.LocalAt(a.me, a.cid, a.op))
  {
    hide Allowed;
  }

  /** A daemon attaches a connection to a channel it has already closed. */
  ghost predicate AttachesLate<S>(w: Whole<S>, a: Move<S>, me: string, cid: string) {
    a == Move<S>.LocalAt(me, cid, Attach) && !Live(WholeEnd(w, me, cid))
  }

  /** A daemon has a connection open without its channel exactly when it was attached too late. */
  lemma OrphanedIff<S>(ws: seq<Whole<S>>, moves: seq<Move<S>>, n: nat, me: string, cid: string, k: Codec)
    requires WholeRun(ws, moves, k) && Inverts(k) && n < |ws|
    ensures C.Orphaned(WholeEnd(ws[n], me, cid)) <==>
      exists i :: 0 <= i < n && AttachesLate(ws[i], moves[i], me, cid)
  {
    hide Possible, Next, WholeStart, WholeOk, Inverts, Enabled, Step, Start, Does, InboxOf, C.Orphaned, Live;
    var ss, acts, at := InRelaySystem(ws, moves, n, k);
    R.OrphanedIff(ss, acts, at[n], me, cid);
    if i: nat :| i < n && AttachesLate(ws[i], moves[i], me, cid) {
      StepTaken(ws, moves, n, k, ss, acts, at, i);
      assert R.AttachesLate(ss[at[i]], acts[at[i]], me, cid);
    }
    if m: nat :| m < |acts| && R.AttachesLate(ss[m], acts[m], me, cid) {
      var i := MoveTaken(ws, moves, n, k, ss, acts, at, m);
      assert AttachesLate(ws[i], moves[i], me, cid);
    }
  }
}
