/** What a daemon's operations do to the channel, the table and the queue, spelled out case by case:
    whom they serve, what they send, and when a channel goes. */
module DaemonPolicy {
  import opened Basics
  import opened Endpoint
  import opened DaemonModel

  lemma OnePacket(me: string, to: string, cid: string, f: Frame)
    ensures Packets(me, to, cid, [f]) == [PacketOf(me, to, cid, f)] && Packets(me, to, cid, []) == []
  {
    assert [f][..0] == [];
  }

  lemma TwoPackets(me: string, to: string, cid: string, f: Frame, g: Frame)
    ensures Packets(me, to, cid, [f] + [g]) == [PacketOf(me, to, cid, f), PacketOf(me, to, cid, g)]
  {
    assert ([f] + [g])[..1] == [f];
    OnePacket(me, to, cid, f);
  }

  // --- opening --------------------------------------------------------------------------------------

  /** A docker channel is a link, a tcp channel a forward, a probe a probe. */
  predicate KindAsked(kind: Kind, service: Service) {
    && (service.Docker? ==> kind == Link) && (service.Tcp? ==> kind == Fwd)
    && (service.CapsService? ==> kind == Caps)
  }

  /** A channel is opened by one frame that names the service and the address to dial, sealed for the
      peer; when sealing fails nothing is sent and the channel is not open. */
  lemma OpenSpelled(d: Daemon, peer: string, cid: string, service: Service, dial: string, sealOk: bool)
    requires !service.NoService?
    ensures var d', e := OpenChannel(d, peer, cid, service, dial, sealOk), EndAt(d, cid);
      && d'.me == d.me && d'.recs.Keys == d.recs.Keys + {cid} && d'.recs[cid].peer == peer
      && (forall k :: k in d.recs && k != cid ==> d'.recs[k] == d.recs[k])
      && d'.send == d.send + (if sealOk then [Relay(peer, cid, service, dial, Sealed(d.me, peer, []))] else [])
      && var e' := EndAt(d', cid);
         && e'.Present? && (Live(e') <==> sealOk) && e'.closes == e.closes
         && KindAsked(e'.ch.kind, service) && !e'.ch.provider && !e'.ch.attached && !e'.ch.connOpen
         && e'.ch.written == e'.ch.buf == [] && e'.ch.read == e'.ch.got == [] && e'.ch.pump.Idle?
  {
    OnePacket(d.me, peer, cid, Open(service, dial));
  }

  // --- what the local side does ------------------------------------------------------------------------

  /** The channel goes with a notice to the peer: its key is missing as the pump starts, sealing
      fails, the provider's input ends, or a probe times out. */
  predicate GivesUp(e: End, op: LocalOp)
    requires e.Present?
  {
    && e.live
    && ((op.StartPump? && !op.keyKnown) || (op.Send? && !op.sealOk) || (op.Eof? && e.ch.provider) || op.Timeout?)
  }

  /** The pump reads, holds one chunk until it is sent, and ends with the input, with a failure, or at
      once when the channel is gone as it starts. */
  function PumpAfter(e: End, op: LocalOp): Pump
    requires e.Present?
  {
    match op
    case StartPump(keyKnown) => if e.live && keyKnown then Running(None) else Ended
    case Read(chunk) => Running(Some(chunk))
    case Send(sealOk) => if sealOk then Running(None) else Ended
    case Eof => Ended
    case _ => e.ch.pump
  }

  /** The record: attaching opens the connection and flushes a link's buffer into it, and giving up
      closes it. */
  function ChAfter(e: End, op: LocalOp): Ch
    requires e.Present?
  {
    var flush := op.Attach? && e.ch.kind.Link?;
    e.ch.(attached := op.Attach? || e.ch.attached,
          connOpen := op.Attach? || (e.ch.connOpen && !GivesUp(e, op)),
          written := if flush then e.ch.buf else e.ch.written,
          buf := if flush then [] else e.ch.buf,
          done := e.ch.done + if GivesUp(e, op) && e.ch.kind.Caps? then 1 else 0,
          pump := PumpAfter(e, op),
          read := if op.Read? then e.ch.read + [op.chunk] else e.ch.read)
  }

  lemma LocalSpelled(d: Daemon, cid: string, op: LocalOp)
    requires cid in d.recs && Allowed(d.recs[cid].end, op)
    ensures var d', e, peer := LocalStep(d, cid, op), d.recs[cid].end, d.recs[cid].peer;
      && d'.me == d.me && d'.recs.Keys == d.recs.Keys && d'.recs[cid].peer == peer
      && (forall k :: k in d.recs && k != cid ==> d'.recs[k] == d.recs[k])
      && d'.send == d.send +
        (if GivesUp(e, op) then [RelayClose(peer, cid)]
         else if op.Send? && op.sealOk then
           [Relay(peer, cid, NoService, "", Sealed(d.me, peer, e.ch.pump.pending.value))]
         else [])
      && var e' := d'.recs[cid].end;
         && e'.Present? && (e'.live <==> e.live && !GivesUp(e, op))
         && e'.closes == e.closes + (if GivesUp(e, op) then 1 else 0)
         && e'.ch == ChAfter(e, op)
  {
    OnePacket(d.me, d.recs[cid].peer, cid, Close);
    if op.Send? { OnePacket(d.me, d.recs[cid].peer, cid, Data(d.recs[cid].end.ch.pump.pending.value)); }
  }

  /** What one read of an open connection can give. */
  lemma ReadSizes(e: End, chunk: Bytes)
    ensures Allowed(e, Read(chunk)) <==>
      e.Present? && e.ch.connOpen && e.ch.pump == Running(None) && 1 <= |chunk| <= 32768
  {}

  // --- what arrives ------------------------------------------------------------------------------------

  /** The sender's key is known, and the box was sealed by the machine the hub names, for this one. */
  predicate Opens(d: Daemon, m: Delivery, env: Env)
    requires m.Relayed?
  {
    env.keyKnown && m.data.from == m.from && m.data.to == d.me
  }

  /** The daemon dials for the frame: docker if it is served, and an address unless docker is not
      served and none is named; and somebody answers there. */
  predicate Serves(m: Delivery, env: Env)
    requires m.Relayed?
  {
    env.dialOk && ((m.service.Docker? && env.serveDocker) || (m.service.Tcp? && (env.serveDocker || m.dial != "")))
  }

  /** Frames passed over in silence: data of a channel that is gone, and an address not named by somebody
      docker is not served to. */
  predicate PassedOver(m: Delivery, env: Env)
    requires m.Relayed?
  {
    m.service.NoService? || (m.service.Tcp? && !env.serveDocker && m.dial == "")
  }

  /** What is sent back for a frame of a channel that is not open. */
  function SentBack(d: Daemon, m: Delivery, env: Env): seq<Packet>
    requires m.Relayed?
  {
    var no := RelayClose(m.from, m.channel);
    if !env.keyKnown then [no]
    else if !Opens(d, m, env) || PassedOver(m, env) || Serves(m, env) then []
    else if m.service.CapsService? && env.sealOk then
      [Relay(m.from, m.channel, NoService, "", Sealed(d.me, m.from, env.caps)), no]
    else [no]
  }

  /** Only the frame's channel changes. */
  ghost predicate OnlyChannel(d: Daemon, d': Daemon, cid: string) {
    && d'.me == d.me
    && forall k :: k != cid ==> (k in d'.recs <==> k in d.recs) && (k in d.recs ==> d'.recs[k] == d.recs[k])
  }

  /** A frame for an open channel is written to its connection or buffered if it opens and is otherwise
      ignored; nothing is sent. */
  lemma OpenChannelFrame(d: Daemon, m: Delivery, env: Env)
    requires m.Relayed? && Live(EndAt(d, m.channel))
    ensures var d', e := HandleMessage(d, m, env), EndAt(d, m.channel);
      && OnlyChannel(d, d', m.channel) && d'.send == d.send && m.channel in d'.recs
      && d'.recs[m.channel].peer == d.recs[m.channel].peer
      && var e', b := EndAt(d', m.channel), m.data.payload;
         && e'.Present? && e'.live && e'.closes == e.closes
         && if !Opens(d, m, env) || (b == [] && !m.service.NoService?) then e' == e
            else e'.ch == e.ch.(got := e.ch.got + [b],
                                written := if e.ch.attached && !e.ch.kind.Caps? then e.ch.written + b else e.ch.written,
                                buf := if e.ch.attached && !e.ch.kind.Caps? then e.ch.buf else e.ch.buf + b)
  {
    OnePacket(d.me, d.recs[m.channel].peer, m.channel, Close);
    assert d.send + [] == d.send;
  }

  /** A frame for a channel that is not open opens it exactly when the daemon serves what it asks for,
      as a link whose connection has what came with the frame; otherwise the peer is told that the
      channel is closed, after the report if it asked for one. */
  lemma FreshFrame(d: Daemon, m: Delivery, env: Env)
    requires m.Relayed? && !Live(EndAt(d, m.channel))
    ensures var d', e := HandleMessage(d, m, env), EndAt(d, m.channel);
      && OnlyChannel(d, d', m.channel) && d'.send == d.send + SentBack(d, m, env)
      && var e' := EndAt(d', m.channel);
         && (Live(e') <==> Opens(d, m, env) && Serves(m, env))
         && (Live(e') ==>
               d'.recs[m.channel].peer == m.from && e'.closes == e.closes && JustDialed(e'.ch, m.data.payload))
         && (!Live(e') && !(Opens(d, m, env) && m.service.CapsService?) && e.Present? ==> e'.Present? && e'.ch == e.ch)
         && (Opens(d, m, env) && m.service.CapsService? ==>
               e'.Present? && e'.ch == Ch(Caps, true, false, false, [], [], 1, Idle,
                                          if env.sealOk then [env.caps] else [], []))
  {
    hide Packets;
    OnePacket(d.me, m.from, m.channel, Close);
    TwoPackets(d.me, m.from, m.channel, Data(env.caps), Close);
    assert d.send + [] == d.send;
    var none: seq<Frame> := [];
    assert none + [Close] == [Close];
  }

  predicate JustDialed(c: Ch, first: Bytes) {
    && c.kind.Link? && c.provider && c.attached && c.connOpen && c.buf == [] && c.done == 0
    && c.pump.Idle? && c.read == [] && c.written == first && c.got == if first == [] then [] else [first]
  }

  /** A close from the peer, or the hub's refusal, takes the channel out and closes what it holds;
      nothing is sent. */
  lemma CloseSpelled(d: Daemon, m: Delivery, env: Env)
    requires !m.Relayed?
    ensures var d', e := HandleMessage(d, m, env), EndAt(d, m.channel);
      && OnlyChannel(d, d', m.channel) && d'.send == d.send
      && var e' := EndAt(d', m.channel);
         && !Live(e') && e'.closes == e.closes && (e.Present? <==> e'.Present?)
         && (!Live(e) ==> e' == e)
         && (Live(e) ==> e'.ch == e.ch.(connOpen := false, done := e.ch.done + if e.ch.kind.Caps? then 1 else 0))
  {
    OnePacket(d.me, if m.channel in d.recs then d.recs[m.channel].peer else "", m.channel, Close);
    assert d.send + [] == d.send;
  }
}
