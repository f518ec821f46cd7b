/** Seen from one channel id, every step of the whole system is a step of that channel or nothing:
    queues shared by many channels, a hub that serialises them and messages of other channels
    neither reorder nor mix what one channel carries. */
module RelayViews {
  import opened Basics
  import opened Endpoint
  import opened DaemonModel
  import opened RelaySystem
  import C = Channel

  // --- queues of many channels ------------------------------------------------------------

  lemma {:induction false} SentAppend(xs: seq<Packet>, ys: seq<Packet>, cid: string)
    ensures Sent(xs + ys, cid) == Sent(xs, cid) + Sent(ys, cid)
  {
    if ys == [] {
      assert xs + ys == xs;
    } else {
      var n := |xs + ys| - 1;
      assert (xs + ys)[..n] == xs + ys[..|ys| - 1];
      SentAppend(xs, ys[..|ys| - 1], cid);
    }
  }

  lemma {:induction false} DueAppend(xs: seq<Delivery>, ys: seq<Delivery>, cid: string)
    ensures Due(xs + ys, cid) == Due(xs, cid) + Due(ys, cid)
  {
    if ys == [] {
      assert xs + ys == xs;
    } else {
      var n := |xs + ys| - 1;
      assert (xs + ys)[..n] == xs + ys[..|ys| - 1];
      DueAppend(xs, ys[..|ys| - 1], cid);
    }
  }

  lemma SentOne(p: Packet, cid: string)
    ensures Sent([p], cid) == if p.channel == cid then [FrameSent(p)] else []
  {
    assert [p][..0] == [];
  }

  lemma DueOne(m: Delivery, cid: string)
    ensures Due([m], cid) == if m.channel == cid then [FrameOf(m)] else []
  {
    assert [m][..0] == [];
  }

  lemma SentFirst(q: seq<Packet>, cid: string)
    requires q != []
    ensures Sent(q, cid) == if q[0].channel == cid then [FrameSent(q[0])] + Sent(q[1..], cid) else Sent(q[1..], cid)
  {
    hide Sent;
    assert q == [q[0]] + q[1..];
    SentAppend([q[0]], q[1..], cid);
    SentOne(q[0], cid);
  }

  lemma DueMore(q: seq<Delivery>, m: Delivery, cid: string)
    ensures Due(q + [m], cid) == if m.channel == cid then Due(q, cid) + [FrameOf(m)] else Due(q, cid)
  {
    hide Due;
    DueAppend(q, [m], cid);
    DueOne(m, cid);
  }

  /** Taking message i out of an inbox. */
  lemma DueWithout(q: seq<Delivery>, i: nat, cid: string)
    requires i < |q|
    ensures |Due(q[..i], cid)| <= |Due(q, cid)|
    ensures if q[i].channel == cid
            then |Due(q[..i], cid)| < |Due(q, cid)| && Due(q, cid)[|Due(q[..i], cid)|] == FrameOf(q[i])
                 && Due(C.Remove(q, i), cid) == C.Remove(Due(q, cid), |Due(q[..i], cid)|)
            else Due(C.Remove(q, i), cid) == Due(q, cid)
  {
    hide Due;
    assert q == q[..i] + [q[i]] + q[i + 1..];
    DueAppend(q[..i] + [q[i]], q[i + 1..], cid);
    DueAppend(q[..i], [q[i]], cid);
    DueAppend(q[..i], q[i + 1..], cid);
    DueOne(q[i], cid);
    if q[i].channel == cid {
      C.RemoveMiddle(Due(q[..i], cid), FrameOf(q[i]), Due(q[i + 1..], cid));
    }
  }

  /** Frames that seal and open to themselves. */
  predicate Plain(fs: seq<Frame>) {
    forall i :: 0 <= i < |fs| ==> !fs[i].Refused? && (fs[i].Open? ==> !fs[i].service.NoService?)
  }

  /** What a daemon seals for a channel is what the other side finds in the boxes. */
  lemma {:induction false} SentPackets(me: string, to: string, cid: string, fs: seq<Frame>, c: string)
    requires Plain(fs)
    ensures Sent(Packets(me, to, cid, fs), c) == if c == cid then fs else []
  {
    hide Sent, Packets, PacketOf, FrameSent;
    NoPackets(me, to, cid, c);
    if fs != [] {
      var front, f := fs[..|fs| - 1], fs[|fs| - 1];
      SentPackets(me, to, cid, front, c);
      var p := PacketOf(me, to, cid, f);
      LastPacket(me, to, cid, fs);
      SentAppend(Packets(me, to, cid, front), [p], c);
      SentOne(p, c);
      assert front + [f] == fs;
    }
  }

  lemma NoPackets(me: string, to: string, cid: string, c: string)
    ensures Packets(me, to, cid, []) == [] && Sent([], c) == []
  {}

  lemma LastPacket(me: string, to: string, cid: string, fs: seq<Frame>)
    requires Plain(fs) && fs != []
    ensures var front, p := fs[..|fs| - 1], PacketOf(me, to, cid, fs[|fs| - 1]);
      && Packets(me, to, cid, fs) == Packets(me, to, cid, front) + [p]
      && p.channel == cid && FrameSent(p) == fs[|fs| - 1]
  {}

  // --- one machine's picture of a channel -----------------------------------------------------

  datatype Pic = Pic(end: End, sent: seq<Frame>, due: seq<Frame>)

  function PicOf(s: System, me: string, cid: string): Pic
    requires me in s.daemons && me in s.inbox
  {
    Pic(EndAt(s.daemons[me], cid), Sent(s.daemons[me].send, cid), Due(s.inbox[me], cid))
  }

  function ChanOf(x: Pic, y: Pic, p: Party): C.Chan {
    C.Chan(x.end, y.end, y.due + x.sent, x.due + y.sent, true, p.clean, p.keyed)
  }

  lemma ViewOf(s: System, cid: string)
    requires Routed(s) && cid in s.opens
    ensures var p := s.opens[cid];
      && p.cons in s.daemons && p.cons in s.inbox && p.prov in s.daemons && p.prov in s.inbox && p.cons != p.prov
      && View(s, cid) == ChanOf(PicOf(s, p.cons, cid), PicOf(s, p.prov, cid), p)
  {
    hide DaemonOk, InboxOk, Sent, Due, EndAt;
  }

  /** A daemon's own step, seen from each channel. */
  lemma PutPic(d: Daemon, cid: string, peer: string, o: Out, c: string)
    requires Plain(o.frames)
    ensures EndAt(Put(d, cid, peer, o), c) == if c == cid then o.end else EndAt(d, c)
    ensures Sent(Put(d, cid, peer, o).send, c) == Sent(d.send, c) + if c == cid then o.frames else []
  {
    hide Sent, Packets;
    SentAppend(d.send, Packets(d.me, peer, cid, o.frames), c);
    SentPackets(d.me, peer, cid, o.frames, c);
  }

  lemma PlainReceive(e: End, f: Frame, env: Env)
    ensures Plain(Receive(e, f, env).frames)
  {
    hide Receive;
    C.SentByReceive(e, f, env);
  }

  lemma PlainLocal(e: End, op: LocalOp)
    requires Allowed(e, op)
    ensures Plain(Local(e, op).frames)
  {
    hide Local;
    C.SentLocally(e, op);
  }

  // --- the channel's own step ---------------------------------------------------------------

  function RoleOf(s: System, me: string, cid: string): C.Role
    requires cid in s.opens
  {
    if me == s.opens[cid].cons then C.Consumer else C.Provider
  }

  function Other(r: C.Role): C.Role {
    if r.Consumer? then C.Provider else C.Consumer
  }

  /** What a step of the system is for one channel. */
  function ActOf(s: System, a: Act, cid: string): Option<C.Act>
    requires Enabled(s, a)
  {
    match a
    case OpenTo(_, _, c, service, dial, sealOk) => if c == cid then Some(C.OpenAct(service, dial, sealOk)) else None
    case LocalAt(me, c, op) => if c == cid && cid in s.opens then Some(C.LocalAct(RoleOf(s, me, cid), op)) else None
    case Hub(me, verdict) =>
      var p := s.daemons[me].send[0];
      if p.channel != cid || cid !in s.opens || verdict.Forward? || p.to !in s.inbox then None
      else
        var r, i := Other(RoleOf(s, me, cid)), |Due(s.inbox[p.to], cid)|;
        if verdict.Ignore? then Some(C.Lose(r, i)) else Some(C.Refuse(r, i, |Due(s.inbox[me], cid)|))
    case Handle(me, env) =>
      if s.inbox[me][0].channel == cid && cid in s.opens then Some(C.Deliver(RoleOf(s, me, cid), env)) else None
    case LoseAt(me, i) =>
      if s.inbox[me][i].channel != cid || cid !in s.opens then None
      else Some(C.Lose(RoleOf(s, me, cid), |Due(s.inbox[me][..i], cid)|))
  }

  ghost predicate Follows(s: System, a: Act, cid: string)
    requires Enabled(s, a)
  {
    match ActOf(s, a, cid)
    case None => View(Step(s, a), cid) == View(s, cid)
    case Some(ca) => C.Enabled(View(s, cid), ca) && View(Step(s, a), cid) == C.Step(View(s, cid), ca)
  }

  /** Before and after a step, the view is put together from the same two machines' pictures. */
  lemma BothViews(s: System, a: Act, cid: string)
    requires Routed(s) && Enabled(s, a) && cid in s.opens
    ensures var s', p := Step(s, a), s.opens[cid];
      && cid in s'.opens && s'.opens[cid].cons == p.cons && s'.opens[cid].prov == p.prov && p.cons != p.prov
      && p.cons in s.daemons && p.cons in s.inbox && p.prov in s.daemons && p.prov in s.inbox
      && p.cons in s'.daemons && p.cons in s'.inbox && p.prov in s'.daemons && p.prov in s'.inbox
      && View(s, cid) == ChanOf(PicOf(s, p.cons, cid), PicOf(s, p.prov, cid), p)
      && View(s', cid) == ChanOf(PicOf(s', p.cons, cid), PicOf(s', p.prov, cid), s'.opens[cid])
  {
    hide View, PicOf, Step, Enabled, Routed, ChanOf, OpensOk;
    RoutedStep(s, a);
    StepExtends(s, a);
    ViewOf(s, cid);
    ViewOf(Step(s, a), cid);
  }

  lemma ChanPut(x: Pic, y: Pic, o: Out, p: Party)
    ensures ChanOf(Pic(o.end, x.sent + o.frames, x.due), y, p)
         == C.Chan(o.end, y.end, (y.due + x.sent) + o.frames, x.due + y.sent, true, p.clean, p.keyed)
    ensures ChanOf(y, Pic(o.end, x.sent + o.frames, x.due), p)
         == C.Chan(y.end, o.end, x.due + y.sent, (y.due + x.sent) + o.frames, true, p.clean, p.keyed)
  {
    assert y.due + (x.sent + o.frames) == (y.due + x.sent) + o.frames;
  }

  function ChannelOf(s: System, a: Act): string
    requires Enabled(s, a)
  {
    match a
    case OpenTo(_, _, cid, _, _, _) => cid
    case LocalAt(_, cid, _) => cid
    case Hub(me, _) => s.daemons[me].send[0].channel
    case Handle(me, _) => s.inbox[me][0].channel
    case LoseAt(me, i) => s.inbox[me][i].channel
  }

  // --- steps of other channels ----------------------------------------------------------------

  lemma PutElsewhere(d: Daemon, cid: string, peer: string, o: Out, c: string)
    requires Plain(o.frames) && c != cid
    ensures EndAt(Put(d, cid, peer, o), c) == EndAt(d, c) && Sent(Put(d, cid, peer, o).send, c) == Sent(d.send, c)
  {
    hide Put, EndAt, Sent;
    PutPic(d, cid, peer, o, c);
  }

  lemma HandleElsewhere(d: Daemon, m: Delivery, env: Env, c: string)
    requires c != m.channel
    ensures EndAt(HandleMessage(d, m, env), c) == EndAt(d, c)
    ensures Sent(HandleMessage(d, m, env).send, c) == Sent(d.send, c)
  {
    hide Put, EndAt, Sent, Receive, Answer;
    var e := EndAt(d, m.channel);
    PlainAnswer(e, m, env);
    EndOfRecord(d, m.channel);
    var peer := if m.channel in d.recs then d.recs[m.channel].peer else "";
    PutElsewhere(d, m.channel, peer, Receive(e, FrameOf(m), env), c);
    PutElsewhere(d, m.channel, peer, Answer(e, m, env), c);
    if m.Relayed? { PutElsewhere(d, m.channel, m.from, Answer(e, m, env), c); }
  }

  lemma PlainAnswer(e: End, m: Delivery, env: Env)
    ensures Plain(Answer(e, m, env).frames) && Plain(Receive(e, FrameOf(m), env).frames)
  {
    hide Receive, Take;
    PlainReceive(e, FrameOf(m), env);
    if m.Relayed? { PlainReceive(e, Data(m.data.payload), env); }
  }

  lemma EndOfRecord(d: Daemon, cid: string)
    ensures cid in d.recs ==> EndAt(d, cid) == d.recs[cid].end
    ensures Live(EndAt(d, cid)) ==> cid in d.recs
  {}

  lemma HubElsewhere(s: System, a: Act, cid: string, id: string)
    requires Routed(s) && Enabled(s, a) && a.Hub? && ChannelOf(s, a) != cid && id in s.daemons && id in s.inbox
    ensures var s' := Step(s, a); id in s'.daemons && id in s'.inbox && PicOf(s', id, cid) == PicOf(s, id, cid)
  {
    hide Sent, Due, DaemonOk, InboxOk, OpensOk, Spoil, FrameSent, FrameOf;
    var q := s.daemons[a.me].send;
    SentFirst(q, cid);
    var to := if a.verdict.Forward? then q[0].to else a.me;
    var m := if a.verdict.Forward? then Forwarded(a.me, q[0]) else Failed(q[0].channel);
    DueMore(s.inbox[to], m, cid);
  }

  lemma OthersElsewhere(s: System, a: Act, cid: string, id: string)
    requires Routed(s) && Enabled(s, a) && !a.Hub? && ChannelOf(s, a) != cid && id in s.daemons && id in s.inbox
    ensures var s' := Step(s, a); id in s'.daemons && id in s'.inbox && PicOf(s', id, cid) == PicOf(s, id, cid)
  {
    hide EndAt, Sent, Due, DaemonOk, InboxOk, OpensOk, Spoil, Put, HandleMessage, Receive, Local, OpenEnd, Allowed;
    var d := s.daemons[a.me];
    match a
    case OpenTo(me, peer, c, service, dial, sealOk) =>
      C.OpenedShape(EndAt(d, c), service, dial, sealOk);
      PutElsewhere(d, c, peer, OpenEnd(EndAt(d, c), service, dial, sealOk), cid);
    case LocalAt(me, c, op) =>
      PlainLocal(d.recs[c].end, op);
      PutElsewhere(d, c, d.recs[c].peer, Local(d.recs[c].end, op), cid);
    case Handle(me, env) =>
      var q := s.inbox[me];
      HandleElsewhere(d, q[0], env, cid);
      DueWithout(q, 0, cid);
      assert C.Remove(q, 0) == q[1..];
    case LoseAt(me, i) => DueWithout(s.inbox[me], i, cid);
  }

  lemma Unspoiled(s: System, a: Act, cid: string)
    requires Enabled(s, a) && ChannelOf(s, a) != cid
    ensures cid in Step(s, a).opens <==> cid in s.opens
    ensures cid in s.opens ==> Step(s, a).opens[cid] == s.opens[cid]
  {
    hide OpenChannel, LocalStep, HandleMessage, Allowed;
  }

  /** A step of another channel cannot be seen. */
  lemma Elsewhere(s: System, a: Act, cid: string)
    requires Routed(s) && Enabled(s, a) && ChannelOf(s, a) != cid
    ensures View(Step(s, a), cid) == View(s, cid)
  {
    hide Step, Enabled, ChannelOf, Routed, PicOf;
    Unspoiled(s, a, cid);
    if cid in s.opens {
      BothViews(s, a, cid);
      if a.Hub? {
        HubElsewhere(s, a, cid, s.opens[cid].cons);
        HubElsewhere(s, a, cid, s.opens[cid].prov);
      } else {
        OthersElsewhere(s, a, cid, s.opens[cid].cons);
        OthersElsewhere(s, a, cid, s.opens[cid].prov);
      }
    }
  }

  // --- steps of the channel itself ---------------------------------------------------------------

  /** The pictures after an end of the channel handled a frame or acted: its own end, what it
      queued, and what it took from its inbox. */
  lemma OwnPut(s: System, me: string, d': Daemon, peer: string, o: Out, cid: string)
    requires me in s.daemons && me in s.inbox && d' == Put(s.daemons[me], cid, peer, o) && Plain(o.frames)
    ensures EndAt(d', cid) == o.end && Sent(d'.send, cid) == Sent(s.daemons[me].send, cid) + o.frames
  {
    hide Put, EndAt, Sent;
    PutPic(s.daemons[me], cid, peer, o, cid);
  }

  lemma SpoiltParty(s: System, cid: string, lost: bool, failed: bool)
    requires cid in s.opens
    ensures Spoil(s, cid, lost, failed)[cid]
         == Party(s.opens[cid].cons, s.opens[cid].prov,
                  s.opens[cid].clean && !lost && !failed, s.opens[cid].keyed && !failed)
  {}

  lemma SideOf(s: System, d: Daemon, cid: string)
    requires DaemonOk(s, d) && cid in d.recs
    ensures cid in s.opens && (d.me == s.opens[cid].cons || d.me == s.opens[cid].prov)
  {}

  lemma FollowsLocal(s: System, a: Act)
    requires Routed(s) && Enabled(s, a) && a.LocalAt?
    ensures Follows(s, a, a.cid)
  {
    hide Local, Put, Sent, Due, Allowed, DaemonOk, InboxOk, View, Spoil, C.KeyFailure;
    var d, cid := s.daemons[a.me], a.cid;
    SideOf(s, d, cid);
    BothViews(s, a, cid);
    PlainLocal(d.recs[cid].end, a.op);
    var o := Local(d.recs[cid].end, a.op);
    OwnPut(s, a.me, LocalStep(d, cid, a.op), d.recs[cid].peer, o, cid);
    SpoiltParty(s, cid, false, C.KeyFailure(a.op));
    var p := s.opens[cid];
    var x, y := PicOf(s, a.me, cid), PicOf(s, if a.me == p.cons then p.prov else p.cons, cid);
    ChanPut(x, y, o, Step(s, a).opens[cid]);
  }

  lemma {:induction false} SentNone(q: seq<Packet>, cid: string)
    requires forall i :: 0 <= i < |q| ==> q[i].channel != cid
    ensures Sent(q, cid) == []
  {
    if q != [] { SentNone(q[..|q| - 1], cid); }
  }

  lemma {:induction false} DueNone(q: seq<Delivery>, cid: string)
    requires forall i :: 0 <= i < |q| ==> q[i].channel != cid
    ensures Due(q, cid) == []
  {
    if q != [] { DueNone(q[..|q| - 1], cid); }
  }

  /** A channel id not yet drawn is nowhere. */
  lemma Unopened(s: System, id: string, cid: string)
    requires Routed(s) && cid !in s.opens && id in s.daemons && id in s.inbox
    ensures PicOf(s, id, cid) == Pic(Absent(0), [], [])
  {
    hide Sent, Due;
    assert DaemonOk(s, s.daemons[id]) && InboxOk(s, id, s.inbox[id]);
    var d, q := s.daemons[id], s.inbox[id];
    assert forall i :: 0 <= i < |d.send| ==> PacketOk(s, d.me, d.send[i]);
    assert forall i :: 0 <= i < |q| ==> DeliveryOk(s, id, q[i]);
    SentNone(d.send, cid);
    DueNone(q, cid);
  }

  lemma FollowsOpen(s: System, a: Act)
    requires Routed(s) && Enabled(s, a) && a.OpenTo?
    ensures Follows(s, a, a.cid)
  {
    hide OpenEnd, Put, Sent, Due, DaemonOk, InboxOk, EndAt;
    var s', d, cid := Step(s, a), s.daemons[a.me], a.cid;
    Unopened(s, a.me, cid);
    Unopened(s, a.peer, cid);
    assert View(s, cid) == C.START;
    hide View, OpensOk;
    RoutedStep(s, a);
    ViewOf(s', cid);
    var o := OpenEnd(EndAt(d, cid), a.service, a.dial, a.sealOk);
    C.OpenedShape(EndAt(d, cid), a.service, a.dial, a.sealOk);
    OwnPut(s, a.me, OpenChannel(d, a.peer, cid, a.service, a.dial, a.sealOk), a.peer, o, cid);
    ChanPut(PicOf(s, a.me, cid), PicOf(s, a.peer, cid), o, s'.opens[cid]);
  }

  /** An end handles a message: whoever sent it, the box opens. */
  lemma HandleOwn(s: System, d: Daemon, m: Delivery, env: Env)
    requires DeliveryOk(s, d.me, m)
    ensures var d', e := HandleMessage(d, m, env), EndAt(d, m.channel);
      var o := Receive(e, FrameOf(m), env);
      EndAt(d', m.channel) == o.end && Sent(d'.send, m.channel) == Sent(d.send, m.channel) + o.frames
  {
    hide Put, Sent, Fresh, Take, Between, Packets, Answer;
    AnswerEmpty(EndAt(d, m.channel), m, env);
    var cid := m.channel;
    var e := EndAt(d, cid);
    PlainReceive(e, FrameOf(m), env);
    var o := Receive(e, FrameOf(m), env);
    if cid in d.recs { PutPic(d, cid, d.recs[cid].peer, o, cid); }
    if m.Relayed? { PutPic(d, cid, m.from, o, cid); }
  }

  lemma ChanTake(x: Pic, y: Pic, o: Out, p: Party)
    requires x.due != []
    ensures (x.due + y.sent)[0] == x.due[0]
    ensures ChanOf(Pic(o.end, x.sent + o.frames, x.due[1..]), y, p)
         == C.Chan(o.end, y.end, (y.due + x.sent) + o.frames, (x.due + y.sent)[1..], true, p.clean, p.keyed)
    ensures ChanOf(y, Pic(o.end, x.sent + o.frames, x.due[1..]), p)
         == C.Chan(y.end, o.end, (x.due + y.sent)[1..], (y.due + x.sent) + o.frames, true, p.clean, p.keyed)
  {
    assert y.due + (x.sent + o.frames) == (y.due + x.sent) + o.frames;
    assert (x.due + y.sent)[1..] == x.due[1..] + y.sent;
  }

  lemma FollowsHandle(s: System, a: Act)
    requires Routed(s) && Enabled(s, a) && a.Handle?
    ensures Follows(s, a, s.inbox[a.me][0].channel)
  {
    hide Receive, HandleMessage, Sent, Due, DaemonOk, DeliveryOk, View, Spoil, C.EnvFailure, EndAt;
    var d, q := s.daemons[a.me], s.inbox[a.me];
    var m := q[0];
    var cid := m.channel;
    assert DeliveryOk(s, a.me, m);
    DeliveredSide(s, a.me, m);
    BothViews(s, a, cid);
    HandleOwn(s, d, m, a.env);
    DueWithout(q, 0, cid);
    assert C.Remove(q, 0) == q[1..] && q[..0] == [];
    DueNone([], cid);
    assert C.Remove(Due(q, cid), 0) == Due(q, cid)[1..];
    SpoiltParty(s, cid, false, C.EnvFailure(a.env));
    var p := s.opens[cid];
    var x, y := PicOf(s, a.me, cid), PicOf(s, if a.me == p.cons then p.prov else p.cons, cid);
    ChanTake(x, y, Receive(x.end, FrameOf(m), a.env), Step(s, a).opens[cid]);
  }

  lemma DeliveredSide(s: System, me: string, m: Delivery)
    requires DeliveryOk(s, me, m)
    ensures m.channel in s.opens && (me == s.opens[m.channel].cons || me == s.opens[m.channel].prov)
  {}

  lemma ChanLose(x: Pic, y: Pic, i: nat, p: Party)
    requires i < |x.due|
    ensures i < |x.due + y.sent|
    ensures ChanOf(x.(due := C.Remove(x.due, i)), y, p)
         == C.Chan(x.end, y.end, y.due + x.sent, C.Remove(x.due + y.sent, i), true, p.clean, p.keyed)
    ensures ChanOf(y, x.(due := C.Remove(x.due, i)), p)
         == C.Chan(y.end, x.end, C.Remove(x.due + y.sent, i), y.due + x.sent, true, p.clean, p.keyed)
  {
    assert C.Remove(x.due + y.sent, i) == C.Remove(x.due, i) + y.sent;
  }

  lemma FollowsLose(s: System, a: Act)
    requires Routed(s) && Enabled(s, a) && a.LoseAt?
    ensures Follows(s, a, s.inbox[a.me][a.i].channel)
  {
    hide Sent, Due, DaemonOk, DeliveryOk, View, Spoil, EndAt, C.Remove;
    var q := s.inbox[a.me];
    var m := q[a.i];
    var cid := m.channel;
    assert DeliveryOk(s, a.me, m);
    DeliveredSide(s, a.me, m);
    BothViews(s, a, cid);
    DueWithout(q, a.i, cid);
    SpoiltParty(s, cid, true, false);
    var p := s.opens[cid];
    var x, y := PicOf(s, a.me, cid), PicOf(s, if a.me == p.cons then p.prov else p.cons, cid);
    ChanLose(x, y, |Due(q[..a.i], cid)|, Step(s, a).opens[cid]);
  }

  lemma ChanHub(x: Pic, y: Pic, f: Frame, rest: seq<Frame>, p: Party)
    requires x.sent == [f] + rest
    ensures ChanOf(x.(sent := rest), y.(due := y.due + [f]), p) == ChanOf(x, y, p)
    ensures ChanOf(y.(due := y.due + [f]), x.(sent := rest), p) == ChanOf(y, x, p)
    ensures |y.due| < |y.due + x.sent| && (y.due + x.sent)[|y.due|] == f
    ensures C.Remove(y.due + x.sent, |y.due|) == y.due + rest
    ensures C.Insert(x.due + y.sent, |x.due|, Refused) == (x.due + [Refused]) + y.sent
  {
    assert y.due + ([f] + rest) == (y.due + [f]) + rest;
    C.RemoveMiddle(y.due, f, rest);
  }

  /** The two pictures after the hub handled a message of the channel. */
  lemma HubPics(s: System, a: Act, cid: string, to: string)
    requires Routed(s) && Enabled(s, a) && a.Hub?
    requires cid == s.daemons[a.me].send[0].channel && to == s.daemons[a.me].send[0].to
    ensures cid in s.opens && Between(s, cid, a.me, to) && a.me != to && to in s.daemons && to in s.inbox
    ensures var s', p := Step(s, a), s.daemons[a.me].send[0];
      var x, y := PicOf(s, a.me, cid), PicOf(s, to, cid);
      && a.me in s'.daemons && a.me in s'.inbox && to in s'.daemons && to in s'.inbox
      && x.sent == [FrameSent(p)] + Sent(s.daemons[a.me].send[1..], cid)
      && PicOf(s', a.me, cid)
         == Pic(x.end, Sent(s.daemons[a.me].send[1..], cid), x.due + if a.verdict.Reject? then [Refused] else [])
      && PicOf(s', to, cid) == y.(due := y.due + if a.verdict.Forward? then [FrameSent(p)] else [])
  {
    hide Sent, Due, DaemonOk, InboxOk, Spoil;
    var q := s.daemons[a.me].send;
    QueueShorter(s, s.daemons[a.me]);
    SentFirst(q, cid);
    DueMore(s.inbox[to], Forwarded(a.me, q[0]), cid);
    DueMore(s.inbox[a.me], Failed(cid), cid);
  }

  lemma FollowsHub(s: System, a: Act)
    requires Routed(s) && Enabled(s, a) && a.Hub?
    ensures Follows(s, a, s.daemons[a.me].send[0].channel)
  {
    hide Sent, Due, DaemonOk, InboxOk, View, Spoil, C.Remove, C.Insert, PicOf, FrameSent, Routed;
    var q := s.daemons[a.me].send;
    var p := q[0];
    var cid := p.channel;
    HubPics(s, a, cid, p.to);
    BothViews(s, a, cid);
    var x, y := PicOf(s, a.me, cid), PicOf(s, p.to, cid);
    SpoiltParty(s, cid, true, false);
    ChanHub(x, y, FrameSent(p), Sent(q[1..], cid), s.opens[cid]);
    RelayFrame(p);
    DueIs(s, a.me, cid);
    DueIs(s, p.to, cid);
  }

  lemma DueIs(s: System, id: string, cid: string)
    requires id in s.daemons && id in s.inbox
    ensures PicOf(s, id, cid).due == Due(s.inbox[id], cid)
  {}

  lemma RelayFrame(p: Packet)
    ensures p.Relay? <==> C.IsRelay(FrameSent(p))
  {}

  /** Every step of the system is, for every channel id, a step of that channel or no step. */
  lemma Refinement(s: System, a: Act, cid: string)
    requires Routed(s) && Enabled(s, a)
    ensures Follows(s, a, cid)
  {
    hide View, Step, Enabled, Routed;
    if ChannelOf(s, a) != cid {
      Elsewhere(s, a, cid);
    } else {
      match a
      case OpenTo(_, _, _, _, _, _) => FollowsOpen(s, a);
      case LocalAt(_, _, _) => FollowsLocal(s, a);
      case Hub(_, _) => FollowsHub(s, a);
      case Handle(_, _) => FollowsHandle(s, a);
      case LoseAt(_, _) => FollowsLose(s, a);
    }
  }
}
