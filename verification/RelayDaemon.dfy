/** The daemon's relay code as it runs: channel records updated in place, a table of the channels
    it has open and a queue of messages for the hub. Every operation is proved to do to the
    records and the queue exactly what `DaemonModel` says. */
module RelayDaemon {
  import opened Basics
  import opened Endpoint
  import opened PumpLoop
  import P = DaemonPolicy
  import M = DaemonModel

  /** A record after its connection, and the done channel of a probe, were closed. */
  ghost function Shutdown(c: Ch): Ch {
    c.(connOpen := false, done := c.done + if c.kind.Caps? then 1 else 0)
  }

  ghost function ClosedEnd(c: Ch, closes: nat): End {
    Present(Shutdown(c), false, closes)
  }

  ghost function Taken(c: Ch, payload: Bytes): Ch {
    var c' := c.(got := c.got + [payload]);
    if !c.kind.Caps? && c.attached then c'.(written := c.written + payload) else c'.(buf := c.buf + payload)
  }

  ghost function Attached(c: Ch): Ch {
    var c' := c.(attached := true, connOpen := true);
    if c.kind.Link? then c'.(written := c.buf, buf := []) else c'
  }

  /** A channel record. `conn` is the connection, once there is one: whether it is open and what
      was written to it. `caps` is the buffer for what arrives before. The pump, `read` and `got`
      are history. */
  class Record {
    const id: string
    const peer: string
    const kind: Kind
    const provider: bool
    var attached: bool
    var connOpen: bool
    var written: Bytes
    var caps: Bytes
    var done: nat
    ghost var pump: Pump
    ghost var read: seq<Bytes>
    ghost var got: seq<Bytes>

    ghost function Value(): Ch
      reads this
    {
      Ch(kind, provider, attached, connOpen, written, caps, done, pump, read, got)
    }

    constructor (id: string, peer: string, kind: Kind, provider: bool, conn: bool)
      ensures this.id == id && this.peer == peer
      ensures Value() == Ch(kind, provider, conn, conn, [], [], 0, Idle, [], [])
    {
      this.id, this.peer, this.kind, this.provider := id, peer, kind, provider;
      attached, connOpen, written, caps, done := conn, conn, [], [], 0;
      pump, read, got := Idle, [], [];
    }

    /** Close the connection, if there is one, and the done channel of a probe. */
    method Shut()
      modifies this
      ensures old(connOpen ==> attached) ==> Value() == Shutdown(old(Value()))
    {
      if attached {
        connOpen := false;
      }
      if kind.Caps? {
        done := done + 1;
      }
    }

    ghost method Note(pump: Pump, read: seq<Bytes>)
      modifies this`pump, this`read
      ensures Value() == old(Value()).(pump := pump, read := read)
    {
      this.pump, this.read := pump, read;
    }

    /** Write what a frame carried to the connection, or keep it until there is one. */
    method Take(payload: Bytes)
      modifies this
      ensures Value() == Taken(old(Value()), payload)
    {
      if !kind.Caps? && attached {
        written := written + payload;
      } else {
        caps := caps + payload;
      }
      got := got + [payload];
    }

    /** Attach the local connection, and hand a link's connection what is kept for it. */
    method Attach()
      requires written == []
      modifies this
      ensures Value() == Attached(old(Value()))
    {
      attached, connOpen := true, true;
      if kind.Link? && |caps| > 0 {
        written := written + caps;
        caps := [];
      }
    }
  }

  class Daemon {
    const me: string
    var channels: map<string, Record>
    var send: seq<M.Packet>
    ghost var records: map<string, Record>     // the last record of every channel, open or not
    ghost var recs: map<string, M.Rec>         // what the model says of them

    ghost predicate Valid()
      reads this, records.Values
    {
      && (forall k :: k in records ==>
           records[k].id == k && k in recs && Agrees(recs[k], k in channels, records[k].Value()))
      && (forall k :: k in recs && k !in records ==> recs[k].end.Absent?)
      && (forall k :: k in channels ==> k in records && channels[k] == records[k] && records[k].peer == recs[k].peer)
    }

    /** The model's record of a channel is the real one. */
    static ghost predicate Agrees(rec: M.Rec, live: bool, c: Ch) {
      (c.connOpen ==> c.attached) && rec.end == Present(c, live, rec.end.closes)
    }

    ghost function Model(): M.Daemon
      reads this
    {
      M.Daemon(me, recs, send)
    }

    constructor (me: string)
      ensures Valid() && Model() == M.Daemon(me, map[], [])
    {
      this.me := me;
      channels, send, records, recs := map[], [], map[], map[];
    }

    lemma OnePacket(peer: string, cid: string, f: Frame)
      ensures M.Packets(me, peer, cid, [f]) == [M.PacketOf(me, peer, cid, f)]
      ensures M.Packets(me, peer, cid, []) == []
    {
      assert [f][..0] == [];
    }

    static lemma {:induction false} PacketsAppend(from: string, to: string, cid: string, fs: seq<Frame>, gs: seq<Frame>)
      ensures M.Packets(from, to, cid, fs + gs) == M.Packets(from, to, cid, fs) + M.Packets(from, to, cid, gs)
    {
      if gs == [] {
        assert fs + gs == fs;
      } else {
        var n := |fs + gs| - 1;
        assert (fs + gs)[..n] == fs + gs[..|gs| - 1];
        PacketsAppend(from, to, cid, fs, gs[..|gs| - 1]);
      }
    }

    /** Two changes of one channel in a row. */
    static lemma PutThen(d: M.Daemon, cid: string, peer: string, first: Out, o: Out)
      ensures M.Put(M.Put(d, cid, peer, first), cid, peer, o)
        == M.Put(d, cid, peer, Out(o.end, first.frames + o.frames))
    {
      hide M.Packets;
      PacketsAppend(d.me, peer, cid, first.frames, o.frames);
    }

    static lemma PutAt(d: M.Daemon, cid: string, peer: string, o: Out)
      ensures M.EndAt(M.Put(d, cid, peer, o), cid) == o.end
      ensures cid in M.Put(d, cid, peer, o).recs && M.Put(d, cid, peer, o).recs[cid].peer == peer
    {}

    /** Seal one frame and queue it. */
    method SendRelay(peer: string, cid: string, service: Service, dial: string, payload: Bytes, sealOk: bool)
      returns (ok: bool)
      requires Valid()
      modifies this`send
      ensures Valid() && ok == sealOk
      ensures send ==
        if ok then old(send) + [M.Relay(peer, cid, service, dial, M.Sealed(me, peer, payload))] else old(send)
    {
      if !sealOk {
        return false;
      }
      send := send + [M.Relay(peer, cid, service, dial, M.Sealed(me, peer, payload))];
      ok := true;
    }

    /** Queue a close. */
    method SendClose(peer: string, cid: string)
      requires Valid() && (cid in channels ==> channels[cid].peer == peer)
      modifies this`send, this`recs
      ensures Valid()
      ensures Model() == M.Put(old(Model()), cid, peer, Endpoint.SendClose(M.EndAt(old(Model()), cid)))
    {
      OnePacket(peer, cid, Close);
      send := send + [M.RelayClose(peer, cid)];
      recs := recs[cid := M.Rec(peer, Endpoint.SendClose(M.EndAt(old(Model()), cid)).end)];
    }

    /** The critical section of a close, and the closing of what the record holds. */
    method Detach(cid: string)
      requires Valid() && cid in channels
      modifies this`channels, this`recs, channels[cid]
      ensures Valid() && channels == old(channels) - {cid}
      ensures Model() == M.Put(old(Model()), cid, old(channels[cid].peer), CloseEnd(M.EndAt(old(Model()), cid), false))
    {
      hide M.Put, M.EndAt, CloseEnd, Agrees, Record.Value;
      var c := channels[cid];
      ghost var closed := ClosedEnd(c.Value(), recs[cid].end.closes);
      Detached(cid);
      c.Shut();
      channels := channels - {cid};
      recs := recs[cid := M.Rec(c.peer, closed)];
    }

    lemma Detached(cid: string)
      requires Valid() && cid in channels
      ensures var c := channels[cid];
        var closed := ClosedEnd(c.Value(), recs[cid].end.closes);
        && M.Put(Model(), cid, c.peer, CloseEnd(M.EndAt(Model(), cid), false))
          == M.Daemon(me, recs[cid := M.Rec(c.peer, closed)], send)
        && Agrees(M.Rec(c.peer, closed), false, closed.ch)
        && (c.connOpen ==> c.attached)
    {
      OnePacket(channels[cid].peer, cid, Close);
      assert send + [] == send;
    }

    /** Take a channel out of the table, close its connection, and tell the peer if asked. */
    method CloseChannel(cid: string, notify: bool)
      requires Valid()
      modifies this, if cid in channels then {channels[cid]} else {}
      ensures Valid() && records == old(records) && channels == old(channels) - {cid}
      ensures Model() == if cid in old(channels)
                         then M.Put(old(Model()), cid, old(channels[cid].peer),
                                    CloseEnd(M.EndAt(old(Model()), cid), notify))
                         else old(Model())
    {
      hide Model, M.Put, M.EndAt, Valid;
      if cid !in channels {
        assert channels - {cid} == channels;
        return;
      }
      ghost var before, e := Model(), M.EndAt(Model(), cid);
      LiveAt(cid);
      var peer := channels[cid].peer;
      Detach(cid);
      ghost var closed := CloseEnd(e, false);
      PutAt(before, cid, peer, closed);
      if notify {
        SendClose(peer, cid);
        PutThen(before, cid, peer, closed, Endpoint.SendClose(closed.end));
        assert [] + [Close] == [Close];
      }
    }

    /** What the model says of a channel, in terms of the table and the record. */
    lemma LiveAt(cid: string)
      requires Valid()
      ensures Live(M.EndAt(Model(), cid)) <==> cid in channels
      ensures cid in channels ==> M.EndAt(Model(), cid).ch == channels[cid].Value()
      ensures cid in channels ==> cid in Model().recs && Model().recs[cid].peer == channels[cid].peer
      ensures cid in channels ==> cid in records && records[cid] == channels[cid] && channels[cid].id == cid
      ensures cid in recs ==> M.EndAt(Model(), cid) == recs[cid].end
      ensures Model().me == me && Model().recs == recs && Model().send == send
    {}

    /** Enter a new record. */
    method Enter(c: Record)
      requires Valid() && c !in records.Values && (c.connOpen ==> c.attached)
      modifies this`channels, this`records, this`recs
      ensures Valid() && records == old(records)[c.id := c] && channels == old(channels)[c.id := c]
      ensures Model() == M.Put(old(Model()), c.id, c.peer,
        Same(Present(c.Value(), true, M.EndAt(old(Model()), c.id).closes)))
    {
      OnePacket(c.peer, c.id, Close);
      assert send + [] == send;
      channels := channels[c.id := c];
      records := records[c.id := c];
      recs := recs[c.id := M.Rec(c.peer, Present(c.Value(), true, M.EndAt(old(Model()), c.id).closes))];
    }

    /** A relay queued on a channel is, in the model, a frame sent. */
    static lemma Queued(d: M.Daemon, cid: string, peer: string, e: End, f: Frame)
      ensures M.Put(d, cid, peer, Out(e, [f]))
        == M.Put(d, cid, peer, Same(e)).(send := d.send + [M.PacketOf(d.me, peer, cid, f)])
    {
      assert [f][..0] == [];
    }

    /** Open a channel to a peer: enter it, send the opening frame, and take it out again when
        that fails. */
    method OpenChannel(peer: string, cid: string, service: Service, dial: string, keyKnown: bool, sealOk: bool)
      returns (c: Record?)
      requires Valid() && !service.NoService?
      modifies this
      ensures Valid() && (c != null <==> keyKnown && sealOk)
      ensures c != null ==>
        fresh(c) && cid in channels && channels[cid] == c && cid in records && records[cid] == c && c.id == cid
      ensures c != null ==> c.Value() == Ch(KindFor(service), false, false, false, [], [], 0, Idle, [], [])
      ensures c != null ==> P.KindAsked(c.kind, service)
      ensures Model() ==
        if keyKnown then M.OpenChannel(old(Model()), peer, cid, service, dial, sealOk) else old(Model())
    {
      hide M.Put, Valid, M.Packets;
      if !keyKnown {
        return null;
      }
      ghost var before := Model();
      var r := new Record(cid, peer, KindFor(service), false, false);
      Enter(r);
      ghost var entered := Present(r.Value(), true, M.EndAt(before, cid).closes);
      PutAt(before, cid, peer, Same(entered));
      var ok := SendRelay(peer, cid, service, dial, [], sealOk);
      Queued(before, cid, peer, entered, Open(service, dial));
      if !ok {
        PutThen(before, cid, peer, Same(entered), CloseEnd(entered, false));
        var none: seq<Frame> := [];
        assert none + none == none;
        CloseChannel(cid, false);
        return null;
      }
      return r;
    }

    /** A record changed in place; its place in the table did not. */
    lemma Updated(cid: string, c: Ch)
      requires Valid() && cid in records && (c.connOpen ==> c.attached)
      ensures recs[cid].end.Present? && recs[cid].end.ch == records[cid].Value()
      ensures var rec := M.Rec(recs[cid].peer, Present(c, cid in channels, recs[cid].end.closes));
        && M.Put(Model(), cid, recs[cid].peer, Same(rec.end)) == M.Daemon(me, recs[cid := rec], send)
        && Agrees(rec, cid in channels, c)
    {
      OnePacket(recs[cid].peer, cid, Close);
      assert send + [] == send;
    }

    /** A frame for a channel in the table. */
    method TakeFrame(cid: string, payload: Bytes)
      requires Valid() && cid in channels
      modifies this`recs, channels[cid]
      ensures Valid()
      ensures Model() == M.Put(old(Model()), cid, old(channels[cid].peer),
        Same(Take(M.EndAt(old(Model()), cid), Data(payload), true)))
    {
      hide M.Put, M.EndAt, Endpoint.Take, Agrees, Record.Value, Taken;
      var c := channels[cid];
      TakenEnd(cid, payload);
      ghost var v := Taken(c.Value(), payload);
      Updated(cid, v);
      c.Take(payload);
      recs := recs[cid := M.Rec(c.peer, Present(v, true, recs[cid].end.closes))];
    }

    lemma TakenEnd(cid: string, payload: Bytes)
      requires Valid() && cid in channels
      ensures var v := Taken(channels[cid].Value(), payload);
        && Take(M.EndAt(Model(), cid), Data(payload), true) == Present(v, true, recs[cid].end.closes)
        && (v.connOpen ==> v.attached)
    {}

    /** A frame that carries bytes; an empty one that names a service opens channels and is nothing to
        an open one. */
    static predicate Carries(m: M.Delivery)
      requires m.Relayed?
    {
      m.service.NoService? || m.data.payload != []
    }

    /** A frame for a caps record: opened outside the lock, appended when it opens. */
    method AppendCaps(m: M.Delivery, keyKnown: bool)
      requires Valid() && m.Relayed? && m.channel in channels && channels[m.channel].kind.Caps?
      modifies this`recs, channels[m.channel]
      ensures Valid()
      ensures Model() == if keyKnown && M.Authentic(me, m) && Carries(m)
        then M.Put(old(Model()), m.channel, old(channels[m.channel].peer),
                   Same(Take(M.EndAt(old(Model()), m.channel), Data(m.data.payload), true)))
        else old(Model())
    {
      if keyKnown && M.Authentic(me, m) && Carries(m) {
        TakeFrame(m.channel, m.data.payload);
      }
    }

    /** Enter a channel for a connection just dialed. */
    method RegisterDialed(cid: string, peer: string)
      requires Valid()
      modifies this`channels, this`records, this`recs
      ensures Valid() && cid in channels && fresh(channels[cid]) && channels[cid].peer == peer
      ensures Model() == M.Put(old(Model()), cid, peer, Dialed(M.EndAt(old(Model()), cid)))
    {
      hide Valid, M.Put, M.EndAt;
      var c := new Record(cid, peer, Link, true, true);
      Enter(c);
    }

    /** Attach the local connection of a channel opened here, and hand a link's connection what
        came before it. */
    method AttachLocal(c: Record)
      requires Valid() && c.id in records && records[c.id] == c && c.written == [] && c.id in recs
      requires Allowed(recs[c.id].end, Attach)
      modifies this`recs, c
      ensures Valid()
      ensures Model() == M.LocalStep(old(Model()), c.id, Attach)
    {
      hide M.Put, M.EndAt, Agrees, Record.Value, Attached;
      ghost var v := Attached(c.Value());
      AttachedEnd(c);
      Updated(c.id, v);
      c.Attach();
      recs := recs[c.id := M.Rec(recs[c.id].peer, Present(v, c.id in channels, recs[c.id].end.closes))];
    }

    /** Serve a connection accepted locally: open a channel for it and attach it. The pump that
        reads it is started next. */
    method PipeLocal(peer: string, cid: string, service: Service, dial: string, keyKnown: bool, sealOk: bool)
      returns (ok: bool)
      requires Valid() && !service.NoService? && !service.CapsService?
      modifies this
      ensures Valid() && (ok <==> keyKnown && sealOk)
      ensures var d := old(Model());
        var d' := if keyKnown then M.OpenChannel(d, peer, cid, service, dial, sealOk) else d;
        if ok then cid in d'.recs && Allowed(d'.recs[cid].end, Attach) && Model() == M.LocalStep(d', cid, Attach)
        else Model() == d'
    {
      var c := OpenChannel(peer, cid, service, dial, keyKnown, sealOk);
      if c == null {
        return false;
      }
      NewlyOpen(c);
      AttachLocal(c);
      ok := true;
    }

    lemma NewlyOpen(c: Record)
      requires Valid() && c.id in channels && channels[c.id] == c && !c.kind.Caps? && !c.provider && !c.attached
      ensures c.id in records && records[c.id] == c && c.id in recs && Allowed(recs[c.id].end, Attach)
    {}

    lemma AttachedEnd(c: Record)
      requires Valid() && c.id in records && records[c.id] == c
      ensures recs[c.id].end.Present?
      ensures AttachEnd(recs[c.id].end) == Present(Attached(c.Value()), c.id in channels, recs[c.id].end.closes)
      ensures Attached(c.Value()).connOpen ==> Attached(c.Value()).attached
    {}

    /** Nothing happens, but the model may note who asked. */
    ghost method Noted(cid: string, peer: string)
      requires Valid() && cid !in channels
      modifies this`recs
      ensures Valid()
      ensures Model() == M.Put(old(Model()), cid, peer, Same(M.EndAt(old(Model()), cid)))
    {
      OnePacket(peer, cid, Close);
      assert send + [] == send;
      recs := recs[cid := M.Rec(peer, M.EndAt(Model(), cid))];
    }

    lemma PutSame(cid: string)
      requires Valid() && cid in channels
      ensures M.Put(Model(), cid, Model().recs[cid].peer, Same(M.EndAt(Model(), cid))) == Model()
    {
      OnePacket(recs[cid].peer, cid, Close);
      assert send + [] == send;
      assert recs[cid := recs[cid]] == recs;
    }

    /** Answer a caps probe: a record for the time of the answer, the report, a close. */
    method ServeCaps(cid: string, from: string, env: Env)
      requires Valid() && cid !in channels
      modifies this
      ensures Valid()
      ensures Model() == M.Put(old(Model()), cid, from, Endpoint.ServeCaps(M.EndAt(old(Model()), cid), env))
    {
      hide M.Put, M.EndAt, Valid, M.Packets;
      ghost var d, e := Model(), M.EndAt(Model(), cid);
      var c := new Record(cid, from, Caps, true, false);
      Enter(c);
      ghost var entered := Present(c.Value(), true, e.closes);
      PutAt(d, cid, from, Same(entered));
      Report(c, env);
      Served(e, env);
      ghost var told := Out(Reported(entered, env), if env.sealOk then [Data(env.caps)] else []);
      PutThen(d, cid, from, Same(entered), told);
      assert Same(entered).frames + told.frames == told.frames;
      PutAt(d, cid, from, told);
      LiveAt(cid);
      SendClose(from, cid);
      ghost var said := Endpoint.SendClose(told.end);
      PutThen(d, cid, from, told, said);
      PutAt(d, cid, from, Out(said.end, told.frames + said.frames));
      LiveAt(cid);
      CloseChannel(cid, false);
      PutThen(d, cid, from, Out(said.end, told.frames + said.frames), CloseEnd(said.end, false));
      assert told.frames + said.frames + [] == told.frames + said.frames;
    }

    static ghost function Reported(e: End, env: Env): End
      requires e.Present?
    {
      if env.sealOk then Logged(e, e.ch.pump, e.ch.read + [env.caps]) else e
    }

    lemma Served(e: End, env: Env)
      ensures var entered := Present(Ch(Caps, true, false, false, [], [], 0, Idle, [], []), true, e.closes);
        var said := Endpoint.SendClose(Reported(entered, env));
        CloseEnd(said.end, false).end == Endpoint.ServeCaps(e, env).end
    {
      var none: seq<Bytes> := [];
      assert none + [env.caps] == [env.caps];
    }

    /** Queue the capabilities on a channel just entered for them. */
    method Report(c: Record, env: Env)
      requires Valid() && c.id in channels && channels[c.id] == c
      modifies this`send, this`recs, c`pump, c`read
      ensures Valid() && channels == old(channels)
      ensures M.EndAt(old(Model()), c.id).Present?
      ensures Model() == M.Put(old(Model()), c.id, c.peer,
        Out(Reported(M.EndAt(old(Model()), c.id), env), if env.sealOk then [Data(env.caps)] else []))
    {
      hide M.Put, M.EndAt, Valid, Logged, Record.Value;
      LiveAt(c.id);
      PutSame(c.id);
      ghost var d, e := Model(), M.EndAt(Model(), c.id);
      if env.sealOk {
        Log(c, e.ch.pump, e.ch.read + [env.caps]);
      }
      var ok := SendRelay(c.peer, c.id, NoService, "", env.caps, env.sealOk);
      Queued(d, c.id, c.peer, Reported(e, env), Data(env.caps));
    }

    /** History: how far the pump is, and the chunks it read. */
    ghost method Log(c: Record, pump: Pump, read: seq<Bytes>)
      requires Valid() && c.id in records && records[c.id] == c
      modifies this`recs, c`pump, c`read
      ensures Valid() && c.id in recs && recs.Keys == old(recs.Keys) && recs[c.id].peer == old(recs)[c.id].peer
      ensures old(recs)[c.id].end.Present? && old(recs)[c.id].end.ch == old(c.Value())
      ensures Model() == M.Put(old(Model()), c.id, recs[c.id].peer, Same(Logged(old(recs)[c.id].end, pump, read)))
    {
      hide M.Put, M.EndAt, Agrees, Record.Value;
      var v := c.Value().(pump := pump, read := read);
      LoggedOk(c, pump, read);
      Updated(c.id, v);
      c.Note(pump, read);
      recs := recs[c.id := M.Rec(recs[c.id].peer, Present(v, c.id in channels, recs[c.id].end.closes))];
    }

    lemma LoggedOk(c: Record, pump: Pump, read: seq<Bytes>)
      requires Valid() && c.id in records && records[c.id] == c
      ensures recs[c.id].end.Present? && (c.Value().connOpen ==> c.Value().attached)
      ensures Logged(recs[c.id].end, pump, read)
           == Present(c.Value().(pump := pump, read := read), c.id in channels, recs[c.id].end.closes)
    {}

    /** An inbound frame: for a channel in the table take it, for another dial what it asks for. */
    method HandleRelay(m: M.Delivery, env: Env)
      requires Valid() && m.Relayed?
      modifies this, if m.channel in channels then {channels[m.channel]} else {}
      ensures Valid()
      ensures Model() == M.HandleMessage(old(Model()), m, env)
    {
      hide M.Put, M.EndAt, Valid, Model, Take, Endpoint.ServeCaps, Dialed;
      var cid := m.channel;
      LiveAt(cid);
      if cid in channels {
        PutSame(cid);
        TakeCases(M.EndAt(Model(), cid), m, env.keyKnown);
        if channels[cid].kind.Caps? {
          AppendCaps(m, env.keyKnown);
          return;
        }
        if !env.keyKnown || !M.Authentic(me, m) || !Carries(m) {
          return;
        }
        TakeFrame(cid, m.data.payload);
        return;
      }
      if !env.keyKnown {
        SendClose(m.from, cid);
        return;
      }
      if !M.Authentic(me, m) {
        return;
      }
      match m.service
      case CapsService =>
        ReportOver(M.EndAt(Model(), cid), env);
        ServeCaps(cid, m.from, env);
      case Tcp =>
        DialCases(M.EndAt(Model(), cid), m, env);
        if !env.serveDocker && m.dial == "" {
          Noted(cid, m.from);
          return;
        }
        if !env.dialOk {
          SendClose(m.from, cid);
          return;
        }
        Dial(cid, m.from, m.data.payload);
      case Docker =>
        DialCases(M.EndAt(Model(), cid), m, env);
        if !env.serveDocker {
          SendClose(m.from, cid);
          return;
        }
        if !env.dialOk {
          SendClose(m.from, cid);
          return;
        }
        Dial(cid, m.from, m.data.payload);
      case NoService => Noted(cid, m.from);
    }

    /** Register a dialed connection and write what came with the opening frame. */
    method Dial(cid: string, peer: string, payload: Bytes)
      requires Valid() && cid !in channels
      modifies this
      ensures Valid()
      ensures var e := Dialed(M.EndAt(old(Model()), cid)).end;
        Model() == M.Put(old(Model()), cid, peer, Same(if payload != [] then Take(e, Data(payload), true) else e))
    {
      hide M.Put, M.EndAt, Valid, Model, Take;
      ghost var d := Model();
      ghost var e := Dialed(M.EndAt(d, cid)).end;
      RegisterDialed(cid, peer);
      PutAt(d, cid, peer, Same(e));
      LiveAt(cid);
      if |payload| > 0 {
        TakeFrame(cid, payload);
        PutThen(d, cid, peer, Same(e), Same(Take(e, Data(payload), true)));
        assert Same(e).frames + [] == [];
      }
    }

    static lemma ReportOver(e: End, env: Env)
      ensures !Live(Endpoint.ServeCaps(e, env).end)
    {}

    static lemma DialCases(e: End, m: M.Delivery, env: Env)
      requires !Live(e) && m.Relayed? && (m.service.Tcp? || m.service.Docker?) && env.keyKnown
      ensures M.Answer(e, m, env) ==
        if m.service.Tcp? && !env.serveDocker && m.dial == "" then Same(e)
        else if !env.dialOk || (m.service.Docker? && !env.serveDocker) then Endpoint.SendClose(e)
        else Same(if m.data.payload != [] then Take(Dialed(e).end, Data(m.data.payload), true) else Dialed(e).end)
    {
      hide Take;
    }

    static lemma TakeCases(e: End, m: M.Delivery, keyKnown: bool)
      requires Live(e) && m.Relayed?
      ensures forall env: Env :: env.keyKnown == keyKnown ==>
        M.Answer(e, m, env) == Same(if keyKnown && Carries(m) then Take(e, Data(m.data.payload), true) else e)
    {}

    /** A close from the peer, or the hub's refusal. */
    method HandleRelayClose(m: M.Delivery, env: Env)
      requires Valid() && !m.Relayed?
      modifies this, if m.channel in channels then {channels[m.channel]} else {}
      ensures Valid()
      ensures Model() == M.HandleMessage(old(Model()), m, env)
    {
      hide M.Put, Valid;
      LiveAt(m.channel);
      ClosedAlready(m.channel, env);
      CloseChannel(m.channel, false);
    }

    /** One message from the hub about a channel. */
    method HandleHubMsg(m: M.Delivery, env: Env)
      requires Valid()
      modifies this, if m.channel in channels then {channels[m.channel]} else {}
      ensures Valid()
      ensures Model() == M.HandleMessage(old(Model()), m, env)
    {
      match m
      case Relayed(_, _, _, _, _) => HandleRelay(m, env);
      case Closed(_, _) => HandleRelayClose(m, env);
      case Failed(_) => HandleRelayClose(m, env);
    }

    lemma ClosedAlready(cid: string, env: Env)
      requires Valid()
      ensures cid in recs && cid !in channels ==>
        M.Put(Model(), cid, recs[cid].peer, Same(recs[cid].end)) == Model() && !Live(recs[cid].end)
    {
      if cid in recs && cid !in channels {
        OnePacket(recs[cid].peer, cid, Close);
        assert send + [] == send;
        assert recs[cid := recs[cid]] == recs;
      }
    }

    /** One turn of the loop: a chunk was read and is sealed and queued. */
    method PumpChunk(c: Record, chunk: Bytes)
      requires Valid() && c.id in channels && channels[c.id] == c
      modifies this`send, this`recs, c`pump, c`read
      ensures Valid() && channels == old(channels) && M.EndAt(old(Model()), c.id).Present?
      ensures var e := M.EndAt(old(Model()), c.id);
        Model() == M.Put(old(Model()), c.id, c.peer, Out(Logged(e, Running(None), e.ch.read + [chunk]), [Data(chunk)]))
    {
      hide M.Put, M.EndAt, Valid, Logged, Record.Value;
      LiveAt(c.id);
      ghost var d, e := Model(), M.EndAt(Model(), c.id);
      Log(c, Running(None), e.ch.read + [chunk]);
      var ok := SendRelay(c.peer, c.id, NoService, "", chunk, true);
      Queued(d, c.id, c.peer, Logged(e, Running(None), e.ch.read + [chunk]), Data(chunk));
    }

    /** The loop ends, with or without the channel. */
    method PumpStop(c: Record, ghost read: seq<Bytes>, close: bool)
      requires Valid() && c.id in channels && channels[c.id] == c
      modifies this, c
      ensures Valid() && M.EndAt(old(Model()), c.id).Present?
      ensures var e := Logged(M.EndAt(old(Model()), c.id), Ended, read);
        Model() == M.Put(old(Model()), c.id, c.peer, if close then CloseEnd(e, true) else Same(e))
    {
      hide M.Put, M.EndAt, Valid, Logged, Record.Value, CloseEnd;
      LiveAt(c.id);
      ghost var d := Model();
      ghost var e := Logged(M.EndAt(d, c.id), Ended, read);
      Log(c, Ended, read);
      if close {
        PutAt(d, c.id, c.peer, Same(e));
        CloseChannel(c.id, true);
        PutThen(d, c.id, c.peer, Same(e), CloseEnd(e, true));
        assert [] + CloseEnd(e, true).frames == CloseEnd(e, true).frames;
      }
    }

    /** Read a connection to its end and relay what it gives: `chunks` are what the reads return,
        and sealing works for the first `sealed` of them. The provider tears the channel down at
        the end of the input, the consumer does not. */
    method PumpConnToPeer(cid: string, chunks: seq<Bytes>, keyKnown: bool, sealed: nat, teardown: bool)
      requires Valid() && cid in records && teardown == records[cid].provider
      modifies this, records[cid]
      ensures Valid() && cid in old(recs) && old(recs)[cid].end.Present?
      ensures Model() == M.Put(old(Model()), cid, old(recs)[cid].peer,
        PumpRun(old(recs)[cid].end, chunks, keyKnown, sealed))
    {
      hide M.Put, M.EndAt, Valid, Logged, Record.Value, CloseEnd, Datas;
      RecordAt(cid);
      ghost var d, e, peer := Model(), recs[cid].end, recs[cid].peer;
      LogEnded(e);
      if cid !in channels {
        Log(records[cid], Ended, e.ch.read);
        return;
      }
      LiveAt(cid);
      var c := channels[cid];
      if !keyKnown {
        PumpStop(c, e.ch.read, true);
        return;
      }
      PutSame(cid);
      var i := 0;
      NoDatas();
      Log(c, Running(None), e.ch.read + chunks[..0]);
      while i < |chunks|
        invariant 0 <= i <= |chunks| && i <= sealed
        invariant Valid() && cid in channels && channels[cid] == c
        invariant Model() == M.Put(d, cid, peer,
          Out(Logged(e, Running(None), e.ch.read + chunks[..i]), Datas(chunks[..i])))
      {
        ghost var first := Out(Logged(e, Running(None), e.ch.read + chunks[..i]), Datas(chunks[..i]));
        PutAt(d, cid, peer, first);
        NextChunk(e, chunks, i);
        if i == sealed {
          PumpStop(c, e.ch.read + chunks[..i + 1], true);
          PutThen(d, cid, peer, first, CloseEnd(Logged(e, Ended, e.ch.read + chunks[..i + 1]), true));
          return;
        }
        PumpChunk(c, chunks[i]);
        PutThen(d, cid, peer, first, Out(Logged(e, Running(None), e.ch.read + chunks[..i + 1]), [Data(chunks[i])]));
        i := i + 1;
      }
      ghost var all := Out(Logged(e, Running(None), e.ch.read + chunks[..i]), Datas(chunks[..i]));
      PutAt(d, cid, peer, all);
      NextLog(e, e.ch.read + chunks[..i]);
      PumpStop(c, e.ch.read + chunks[..i], teardown);
      PutThen(d, cid, peer, all, if teardown then CloseEnd(Logged(e, Ended, e.ch.read + chunks[..i]), true)
                                 else Same(Logged(e, Ended, e.ch.read + chunks[..i])));
    }

    lemma RecordAt(cid: string)
      requires Valid() && cid in records
      ensures cid in recs && recs[cid].end.Present? && recs[cid].end.ch == records[cid].Value()
      ensures records[cid].id == cid
      ensures recs[cid].end.ch.provider == records[cid].provider && (recs[cid].end.live <==> cid in channels)
    {}

    static lemma LogEnded(e: End)
      requires e.Present?
      ensures EndPump(e) == Logged(e, Ended, e.ch.read)
    {}

    static lemma NoDatas()
      ensures Datas([]) == []
    {}

    static lemma NextLog(e: End, read: seq<Bytes>)
      requires e.Present?
      ensures Logged(e, Running(None), read).Present?
      ensures Logged(e, Running(None), read).ch.read == read
      ensures forall pump, r :: Logged(Logged(e, Running(None), read), pump, r) == Logged(e, pump, r)
    {}

    static lemma NextChunk(e: End, chunks: seq<Bytes>, i: nat)
      requires e.Present? && i < |chunks|
      ensures var now := Logged(e, Running(None), e.ch.read + chunks[..i]);
        && now.Present? && now.ch.read + [chunks[i]] == e.ch.read + chunks[..i + 1]
        && (forall pump, r :: Logged(now, pump, r) == Logged(e, pump, r))
      ensures Datas(chunks[..i + 1]) == Datas(chunks[..i]) + [Data(chunks[i])]
    {
      assert chunks[..i + 1] == chunks[..i] + [chunks[i]];
      DatasSnoc(chunks[..i], chunks[i]);
      assert (e.ch.read + chunks[..i]) + [chunks[i]] == e.ch.read + chunks[..i + 1];
    }
  }
}
