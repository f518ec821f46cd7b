/** Any number of daemons and channels around one hub. Each daemon queues messages for the hub,
    the hub handles the first message of some daemon at a time and queues what it forwards, and
    messages can be lost on the way. Seen from one channel id, every run is a run of `Channel`. */
module RelaySystem {
  import opened Endpoint
  import opened DaemonModel
  import C = Channel

  /** `send` is in the daemon; `inbox` is the hub's queue for it. `opens` remembers, for every
      channel id ever drawn, who opened it to whom, and whether anything of it was lost. */
  datatype Party = Party(cons: string, prov: string, clean: bool, keyed: bool)

  datatype System = System(daemons: map<string, Daemon>, inbox: map<string, seq<Delivery>>, opens: map<string, Party>)

  /** What the hub does with the message it handles: put it on the receiver's queue, answer a
      relay with an error, or nothing. */
  datatype Verdict = Forward | Reject | Ignore

  datatype Act =
    | OpenTo(me: string, peer: string, cid: string, service: Service, dial: string, sealOk: bool)
    | LocalAt(me: string, cid: string, op: LocalOp)
    | Hub(me: string, verdict: Verdict)
    | Handle(me: string, env: Env)
    | LoseAt(me: string, i: nat)

  ghost predicate Machines(s: System) {
    s.daemons.Keys == s.inbox.Keys && forall id :: id in s.daemons ==> s.daemons[id].me == id
  }

  ghost predicate Start(s: System) {
    && Machines(s) && s.opens == map[]
    && forall id :: id in s.daemons ==> s.daemons[id].recs == map[] && s.daemons[id].send == [] && s.inbox[id] == []
  }

  predicate Enabled(s: System, a: Act) {
    a.me in s.daemons && a.me in s.inbox &&
    match a
    case OpenTo(me, peer, cid, service, _, _) =>
      peer in s.daemons && peer != me && cid !in s.opens && !service.NoService?
    case LocalAt(me, cid, op) => cid in s.daemons[me].recs && Allowed(s.daemons[me].recs[cid].end, op)
    case Hub(me, verdict) =>
      s.daemons[me].send != [] &&
      var p := s.daemons[me].send[0];
      (verdict.Forward? ==> p.to in s.inbox) && (verdict.Reject? ==> p.Relay?)
    case Handle(me, _) => s.inbox[me] != []
    case LoseAt(me, i) => i < |s.inbox[me]|
  }

  function Spoil(s: System, cid: string, lost: bool, failed: bool): map<string, Party> {
    if cid in s.opens then
      var p := s.opens[cid];
      s.opens[cid := p.(clean := p.clean && !lost && !failed, keyed := p.keyed && !failed)]
    else s.opens
  }

  function Forwarded(me: string, p: Packet): Delivery {
    match p
    case Relay(_, cid, service, dial, data) => Relayed(me, cid, service, dial, data)
    case RelayClose(_, cid) => Closed(me, cid)
  }

  function Step(s: System, a: Act): System
    requires Enabled(s, a)
  {
    var d := s.daemons[a.me];
    match a
    case OpenTo(me, peer, cid, service, dial, sealOk) =>
      System(s.daemons[me := OpenChannel(d, peer, cid, service, dial, sealOk)], s.inbox,
             s.opens[cid := Party(me, peer, sealOk, sealOk)])
    case LocalAt(me, cid, op) =>
      System(s.daemons[me := LocalStep(d, cid, op)], s.inbox, Spoil(s, cid, false, C.KeyFailure(op)))
    case Hub(me, verdict) =>
      var p := d.send[0];
      var daemons := s.daemons[me := d.(send := d.send[1..])];
      (match verdict
       case Forward => System(daemons, s.inbox[p.to := s.inbox[p.to] + [Forwarded(me, p)]], s.opens)
       case Reject => System(daemons, s.inbox[me := s.inbox[me] + [Failed(p.channel)]],
                             Spoil(s, p.channel, true, false))
       case Ignore => System(daemons, s.inbox, Spoil(s, p.channel, true, false)))
    case Handle(me, env) =>
      var m := s.inbox[me][0];
      System(s.daemons[me := HandleMessage(d, m, env)], s.inbox[me := s.inbox[me][1..]],
             Spoil(s, m.channel, false, C.EnvFailure(env)))
    case LoseAt(me, i) =>
      System(s.daemons, s.inbox[me := C.Remove(s.inbox[me], i)], Spoil(s, s.inbox[me][i].channel, true, false))
  }

  // --- one channel's view -----------------------------------------------------------------

  function FrameSent(p: Packet): Frame {
    match p
    case Relay(_, _, service, dial, data) => if service.NoService? then Data(data.payload) else Open(service, dial)
    case RelayClose(_, _) => Close
  }

  /** The frames of a channel in a daemon's queue. */
  function Sent(q: seq<Packet>, cid: string): seq<Frame> {
    if q == [] then []
    else Sent(q[..|q| - 1], cid) + (if q[|q| - 1].channel == cid then [FrameSent(q[|q| - 1])] else [])
  }

  /** The frames of a channel in the hub's queue for a daemon. */
  function Due(q: seq<Delivery>, cid: string): seq<Frame> {
    if q == [] then [] else Due(q[..|q| - 1], cid) + (if q[|q| - 1].channel == cid then [FrameOf(q[|q| - 1])] else [])
  }

  function EndIn(s: System, me: string, cid: string): End {
    if me in s.daemons then EndAt(s.daemons[me], cid) else Absent(0)
  }

  /** Everything of a channel on its way from one machine to another. */
  function Flight(s: System, from: string, to: string, cid: string): seq<Frame> {
    (if to in s.inbox then Due(s.inbox[to], cid) else [])
    + (if from in s.daemons then Sent(s.daemons[from].send, cid) else [])
  }

  function View(s: System, cid: string): C.Chan {
    if cid !in s.opens then C.START
    else
      var p := s.opens[cid];
      C.Chan(EndIn(s, p.cons, cid), EndIn(s, p.prov, cid),
             Flight(s, p.cons, p.prov, cid), Flight(s, p.prov, p.cons, cid),
             true, p.clean, p.keyed)
  }

  // --- who talks to whom ------------------------------------------------------------------------

  /** The machine at the other end of a channel, for the two machines that have one. */
  predicate Between(s: System, cid: string, me: string, peer: string) {
    && cid in s.opens
    && var p := s.opens[cid];
       (me == p.cons && peer == p.prov) || (me == p.prov && peer == p.cons)
  }

  predicate Side(s: System, cid: string, me: string) {
    cid in s.opens && (me == s.opens[cid].cons || me == s.opens[cid].prov)
  }

  predicate PacketOk(s: System, me: string, p: Packet) {
    && Between(s, p.channel, me, p.to)
    && (p.Relay? ==> p.data.from == me && p.data.to == p.to && (!p.service.NoService? ==> p.data.payload == []))
  }

  predicate DeliveryOk(s: System, me: string, m: Delivery) {
    && (if m.Failed? then Side(s, m.channel, me) else Between(s, m.channel, me, m.from))
    && Authentic(me, m)
    && (m.Relayed? && !m.service.NoService? ==> m.data.payload == [])
  }

  ghost predicate OpensOk(s: System) {
    forall cid :: cid in s.opens ==>
      s.opens[cid].cons != s.opens[cid].prov && s.opens[cid].cons in s.daemons && s.opens[cid].prov in s.daemons
  }

  /** A daemon's records and the messages it queued are for channels it is one side of. */
  ghost predicate DaemonOk(s: System, d: Daemon) {
    && (forall cid :: cid in d.recs ==> Between(s, cid, d.me, d.recs[cid].peer))
    && (forall i :: 0 <= i < |d.send| ==> PacketOk(s, d.me, d.send[i]))
  }

  ghost predicate InboxOk(s: System, me: string, q: seq<Delivery>) {
    forall i :: 0 <= i < |q| ==> DeliveryOk(s, me, q[i])
  }

  /** Records and messages of a channel are only at and between the two machines it was opened
      between, and every box was sealed by one of them for the other. */
  ghost predicate Routed(s: System) {
    && Machines(s) && OpensOk(s)
    && (forall me :: me in s.daemons ==> DaemonOk(s, s.daemons[me]))
    && (forall me :: me in s.inbox ==> InboxOk(s, me, s.inbox[me]))
  }

  /** The two machines of every channel stay the same. */
  ghost predicate Extends(s: System, s': System) {
    && s'.daemons.Keys == s.daemons.Keys && s'.inbox.Keys == s.inbox.Keys
    && forall cid :: cid in s.opens ==>
         cid in s'.opens && s'.opens[cid].cons == s.opens[cid].cons && s'.opens[cid].prov == s.opens[cid].prov
  }

  lemma DaemonKept(s: System, s': System, d: Daemon)
    requires DaemonOk(s, d) && Extends(s, s')
    ensures DaemonOk(s', d)
  {}

  lemma InboxKept(s: System, s': System, me: string, q: seq<Delivery>)
    requires InboxOk(s, me, q) && Extends(s, s')
    ensures InboxOk(s', me, q)
  {}

  /** One daemon and one inbox changed. */
  lemma RoutedAfter(s: System, s': System, me: string, to: string)
    requires Routed(s) && Extends(s, s') && OpensOk(s') && me in s'.daemons && to in s'.inbox
    requires s'.daemons == s.daemons[me := s'.daemons[me]] && s'.inbox == s.inbox[to := s'.inbox[to]]
    requires s'.daemons[me].me == me && DaemonOk(s', s'.daemons[me]) && InboxOk(s', to, s'.inbox[to])
    ensures Routed(s')
  {
    hide DaemonOk, InboxOk;
    forall id | id in s.daemons ensures DaemonOk(s', s'.daemons[id]) {
      if id != me { DaemonKept(s, s', s.daemons[id]); }
    }
    forall id | id in s.inbox ensures InboxOk(s', id, s'.inbox[id]) {
      if id != to { InboxKept(s, s', id, s.inbox[id]); }
    }
  }

  lemma PacketsOf(me: string, to: string, cid: string, fs: seq<Frame>)
    ensures forall i :: 0 <= i < |Packets(me, to, cid, fs)| ==>
      var p := Packets(me, to, cid, fs)[i];
      && p.channel == cid && p.to == to
      && (p.Relay? ==> p.data.from == me && p.data.to == to && (!p.service.NoService? ==> p.data.payload == []))
  {}

  lemma PutOk(s: System, d: Daemon, cid: string, peer: string, o: Out)
    requires DaemonOk(s, d) && Between(s, cid, d.me, peer)
    ensures DaemonOk(s, Put(d, cid, peer, o))
  {
    hide Packets;
    PacketsOf(d.me, peer, cid, o.frames);
  }

  lemma PutMe(d: Daemon, cid: string, peer: string, o: Out)
    ensures Put(d, cid, peer, o).me == d.me
  {}

  lemma StepExtends(s: System, a: Act)
    requires Routed(s) && Enabled(s, a)
    ensures Extends(s, Step(s, a)) && OpensOk(Step(s, a))
  {
    hide DaemonOk, InboxOk, Spoil, OpensOk, Extends, OpenChannel, LocalStep, HandleMessage, Allowed, Forwarded;
    match a
    case LocalAt(_, cid, op) => SpoilExtends(s, a, cid, false, C.KeyFailure(op));
    case Hub(me, _) => HubExtends(s, a);
    case Handle(me, env) => SpoilExtends(s, a, s.inbox[me][0].channel, false, C.EnvFailure(env));
    case LoseAt(me, i) => SpoilExtends(s, a, s.inbox[me][i].channel, true, false);
    case OpenTo(_, _, _, _, _, _) => OpenExtends(s, a);
  }

  lemma SpoilExtends(s: System, a: Act, cid: string, lost: bool, failed: bool)
    requires Routed(s) && Enabled(s, a) && Step(s, a).opens == Spoil(s, cid, lost, failed) && !a.OpenTo?
    ensures Extends(s, Step(s, a)) && OpensOk(Step(s, a))
  {
    hide DaemonOk, InboxOk, LocalStep, HandleMessage, Allowed, Spoil, Forwarded;
    SpoilKeeps(s, cid, lost, failed);
  }

  lemma HubExtends(s: System, a: Act)
    requires Routed(s) && Enabled(s, a) && a.Hub?
    ensures Extends(s, Step(s, a)) && OpensOk(Step(s, a))
  {
    hide DaemonOk, InboxOk, Spoil, Forwarded;
    SpoilKeeps(s, s.daemons[a.me].send[0].channel, true, false);
  }

  lemma OpenExtends(s: System, a: Act)
    requires Routed(s) && Enabled(s, a) && a.OpenTo?
    ensures Extends(s, Step(s, a)) && OpensOk(Step(s, a))
  {
    hide DaemonOk, InboxOk, OpenChannel;
    assert a.cid !in s.opens;
  }

  lemma SpoilKeeps(s: System, cid: string, lost: bool, failed: bool)
    ensures Spoil(s, cid, lost, failed).Keys == s.opens.Keys
    ensures forall k :: k in s.opens ==>
      var p := Spoil(s, cid, lost, failed)[k]; p.cons == s.opens[k].cons && p.prov == s.opens[k].prov
  {}

  lemma RoutedOpen(s: System, a: Act)
    requires Routed(s) && Enabled(s, a) && a.OpenTo?
    ensures Routed(Step(s, a))
  {
    hide DaemonOk, InboxOk, Put, OpenEnd, Extends, OpensOk;
    var s', d := Step(s, a), s.daemons[a.me];
    StepExtends(s, a);
    DaemonKept(s, s', d);
    InboxKept(s, s', a.me, s.inbox[a.me]);
    var o := OpenEnd(EndAt(d, a.cid), a.service, a.dial, a.sealOk);
    PutMe(d, a.cid, a.peer, o);
    PutOk(s', d, a.cid, a.peer, o);
    RoutedAfter(s, s', a.me, a.me);
  }

  lemma PeerOf(s: System, d: Daemon, cid: string)
    requires DaemonOk(s, d) && cid in d.recs
    ensures Between(s, cid, d.me, d.recs[cid].peer)
  {}

  lemma RoutedLocal(s: System, a: Act)
    requires Routed(s) && Enabled(s, a) && a.LocalAt?
    ensures Routed(Step(s, a))
  {
    hide DaemonOk, InboxOk, Put, Local, Allowed, Extends, OpensOk, Between;
    var s', d := Step(s, a), s.daemons[a.me];
    StepExtends(s, a);
    DaemonKept(s, s', d);
    InboxKept(s, s', a.me, s.inbox[a.me]);
    var o := Local(d.recs[a.cid].end, a.op);
    PeerOf(s', d, a.cid);
    PutMe(d, a.cid, d.recs[a.cid].peer, o);
    PutOk(s', d, a.cid, d.recs[a.cid].peer, o);
    RoutedAfter(s, s', a.me, a.me);
  }

  lemma HandleOk(s: System, d: Daemon, m: Delivery, env: Env)
    requires DaemonOk(s, d) && DeliveryOk(s, d.me, m)
    ensures HandleMessage(d, m, env).me == d.me && DaemonOk(s, HandleMessage(d, m, env))
  {
    hide DaemonOk, Put, Receive, Between, Answer;
    AnswerEmpty(EndAt(d, m.channel), m, env);
    var cid := m.channel;
    var o := Receive(EndAt(d, cid), FrameOf(m), env);
    if cid in d.recs {
      PeerOf(s, d, cid);
      PutMe(d, cid, d.recs[cid].peer, o);
      PutOk(s, d, cid, d.recs[cid].peer, o);
    }
    if m.Relayed? {
      PutMe(d, cid, m.from, o);
      PutOk(s, d, cid, m.from, o);
    }
  }

  lemma RoutedHandle(s: System, a: Act)
    requires Routed(s) && Enabled(s, a) && a.Handle?
    ensures Routed(Step(s, a))
  {
    hide DaemonOk, HandleMessage, DeliveryOk, Extends, OpensOk;
    var s', d, q := Step(s, a), s.daemons[a.me], s.inbox[a.me];
    StepExtends(s, a);
    DaemonKept(s, s', d);
    InboxKept(s, s', a.me, q);
    HandleOk(s', d, q[0], a.env);
    InboxParts(s', a.me, q, 0);
    assert q[..0] + q[1..] == q[1..];
    RoutedAfter(s, s', a.me, a.me);
  }

  lemma InboxParts(s: System, me: string, q: seq<Delivery>, i: nat)
    requires InboxOk(s, me, q) && i < |q|
    ensures InboxOk(s, me, q[..i] + q[i + 1..])
  {
    hide DeliveryOk;
  }

  lemma InboxMore(s: System, me: string, q: seq<Delivery>, m: Delivery)
    requires InboxOk(s, me, q) && DeliveryOk(s, me, m)
    ensures InboxOk(s, me, q + [m])
  {
    hide DeliveryOk;
  }

  lemma RoutedLose(s: System, a: Act)
    requires Routed(s) && Enabled(s, a) && a.LoseAt?
    ensures Routed(Step(s, a))
  {
    hide DaemonOk, InboxOk, Extends, OpensOk;
    var s' := Step(s, a);
    StepExtends(s, a);
    DaemonKept(s, s', s.daemons[a.me]);
    InboxKept(s, s', a.me, s.inbox[a.me]);
    InboxParts(s', a.me, s.inbox[a.me], a.i);
    RoutedAfter(s, s', a.me, a.me);
  }

  lemma QueueShorter(s: System, d: Daemon)
    requires DaemonOk(s, d) && d.send != []
    ensures DaemonOk(s, d.(send := d.send[1..])) && PacketOk(s, d.me, d.send[0])
  {
    hide PacketOk, Between;
  }

  lemma ForwardedOk(s: System, me: string, p: Packet)
    requires PacketOk(s, me, p)
    ensures DeliveryOk(s, p.to, Forwarded(me, p)) && DeliveryOk(s, me, Failed(p.channel))
  {}

  lemma RoutedHub(s: System, a: Act)
    requires Routed(s) && Enabled(s, a) && a.Hub?
    ensures Routed(Step(s, a))
  {
    hide DaemonOk, InboxOk, Extends, OpensOk, PacketOk, DeliveryOk, Forwarded, Spoil;
    var s', d := Step(s, a), s.daemons[a.me];
    var p := d.send[0];
    StepExtends(s, a);
    DaemonKept(s, s', d);
    QueueShorter(s', d);
    ForwardedOk(s', a.me, p);
    var to := if a.verdict.Forward? then p.to else a.me;
    InboxKept(s, s', to, s.inbox[to]);
    if a.verdict.Forward? {
      InboxMore(s', to, s.inbox[to], Forwarded(a.me, p));
    } else {
      InboxMore(s', to, s.inbox[to], Failed(p.channel));
    }
    RoutedAfter(s, s', a.me, to);
  }

  lemma RoutedStep(s: System, a: Act)
    requires Routed(s) && Enabled(s, a)
    ensures Routed(Step(s, a))
  {
    hide Routed, Enabled, Step;
    match a
    case OpenTo(_, _, _, _, _, _) => RoutedOpen(s, a);
    case LocalAt(_, _, _) => RoutedLocal(s, a);
    case Hub(_, _) => RoutedHub(s, a);
    case Handle(_, _) => RoutedHandle(s, a);
    case LoseAt(_, _) => RoutedLose(s, a);
  }
}
