/** A daemon's side of every channel it knows, as values: what each operation does to the channel
    records and to the queue of messages on their way to the hub. */
module DaemonModel {
  import opened Basics
  import opened Endpoint

  /** An ideal sealed box: only the machine it names can open it, and only with the key of the
      machine that sealed it. */
  datatype Sealed = Sealed(from: string, to: string, payload: Bytes)

  /** What a daemon queues for the hub. */
  datatype Packet =
    | Relay(to: string, channel: string, service: Service, dial: string, data: Sealed)
    | RelayClose(to: string, channel: string)

  /** What the hub queues for a daemon. */
  datatype Delivery =
    | Relayed(from: string, channel: string, service: Service, dial: string, data: Sealed)
    | Closed(from: string, channel: string)
    | Failed(channel: string)

  /** A channel id's end and the machine on the other side. */
  datatype Rec = Rec(peer: string, end: End)

  datatype Daemon = Daemon(me: string, recs: map<string, Rec>, send: seq<Packet>)

  function EndAt(d: Daemon, cid: string): End {
    if cid in d.recs then d.recs[cid].end else Absent(0)
  }

  /** Seal a frame and address it. */
  function PacketOf(me: string, to: string, cid: string, f: Frame): Packet {
    match f
    case Open(service, dial) => Relay(to, cid, service, dial, Sealed(me, to, []))
    case Data(payload) => Relay(to, cid, NoService, "", Sealed(me, to, payload))
    case _ => RelayClose(to, cid)
  }

  function Packets(me: string, to: string, cid: string, fs: seq<Frame>): seq<Packet> {
    if fs == [] then [] else Packets(me, to, cid, fs[..|fs| - 1]) + [PacketOf(me, to, cid, fs[|fs| - 1])]
  }

  /** What a message means for its channel once it is opened. */
  function FrameOf(m: Delivery): Frame {
    match m
    case Relayed(_, _, service, dial, data) => if service.NoService? then Data(data.payload) else Open(service, dial)
    case Closed(_, _) => Close
    case Failed(_) => Refused
  }

  /** The box was sealed by the machine the hub names, for this one. */
  predicate Authentic(me: string, m: Delivery) {
    m.Relayed? ==> m.data.from == m.from && m.data.to == me
  }

  function Put(d: Daemon, cid: string, peer: string, o: Out): Daemon {
    d.(recs := d.recs[cid := Rec(peer, o.end)], send := d.send + Packets(d.me, peer, cid, o.frames))
  }

  function OpenChannel(d: Daemon, peer: string, cid: string, service: Service, dial: string, sealOk: bool): Daemon {
    Put(d, cid, peer, OpenEnd(EndAt(d, cid), service, dial, sealOk))
  }

  function LocalStep(d: Daemon, cid: string, op: LocalOp): Daemon
    requires cid in d.recs && Allowed(d.recs[cid].end, op)
  {
    Put(d, cid, d.recs[cid].peer, Local(d.recs[cid].end, op))
  }

  /** What handling a message does to its channel's end. A frame for an open channel is written or
      buffered whatever service it names, and so are bytes that come with an opening frame. */
  function Answer(e: End, m: Delivery, env: Env): Out {
    var bytes := m.Relayed? && !m.service.NoService? && m.data.payload != [];
    if bytes && Live(e) then Receive(e, Data(m.data.payload), env)
    else
      var o := Receive(e, FrameOf(m), env);
      if bytes && Live(o.end) then Out(Take(o.end, Data(m.data.payload), true), o.frames) else o
  }

  /** Frames that name a service are sent empty; such a message is what its frame says. */
  lemma AnswerEmpty(e: End, m: Delivery, env: Env)
    requires m.Relayed? && !m.service.NoService? ==> m.data.payload == []
    ensures Answer(e, m, env) == Receive(e, FrameOf(m), env)
  {}

  /** Nothing a daemon answers goes to anyone but the sender; a box it cannot open is dropped. */
  function HandleMessage(d: Daemon, m: Delivery, env: Env): Daemon {
    var cid := m.channel;
    if !m.Relayed? then
      if cid in d.recs then Put(d, cid, d.recs[cid].peer, Receive(d.recs[cid].end, FrameOf(m), env)) else d
    else if env.keyKnown && !Authentic(d.me, m) then d
    else Put(d, cid, if Live(EndAt(d, cid)) then d.recs[cid].peer else m.from, Answer(EndAt(d, cid), m, env))
  }
}
