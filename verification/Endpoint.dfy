/** One end of a relay channel: what the daemon does with it, as functions. Both daemons run
    this code; the one that opens a channel is its consumer, the one that dials its provider. */
module Endpoint {
  import opened Basics

  const CHUNK: nat := 32 * 1024

  datatype Service = NoService | Docker | Tcp | CapsService

  datatype Kind = Link | Fwd | Caps

  function KindFor(s: Service): Kind {
    match s
    case CapsService => Caps
    case Tcp => Fwd
    case _ => Link
  }

  /** What one message means for a channel: the opening frame, a data frame (no service), a
      close from the peer, or the hub's refusal of a frame this end sent. */
  datatype Frame = Open(service: Service, dial: string) | Data(payload: Bytes) | Close | Refused

  /** The goroutine that reads the connection: not started, running (with a chunk read and not
      yet sent, if any), or returned. */
  datatype Pump = Idle | Running(pending: Option<Bytes>) | Ended

  /** A channel record. `read` and `got` are history: the chunks read from the connection to be
      sent to the peer, and the frames taken from the peer for the connection or the buffer.
      `done` counts the closings of the record's done channel. */
  datatype Ch = Ch(kind: Kind, provider: bool, attached: bool, connOpen: bool, written: Bytes, buf: Bytes,
                   done: nat, pump: Pump, read: seq<Bytes>, got: seq<Bytes>)

  /** `live` says whether the record is in the daemon's channel table; `closes` counts the
      closes this end has sent for the channel. */
  datatype End = Absent(closes: nat) | Present(ch: Ch, live: bool, closes: nat)

  datatype Out = Out(end: End, frames: seq<Frame>)

  /** What the daemon finds when it handles a message: whether the peer's key is in its cache,
      whether sealing works, whether docker is served, whether dialling works, and the
      capabilities it would report. */
  datatype Env = Env(keyKnown: bool, sealOk: bool, serveDocker: bool, dialOk: bool, caps: Bytes)

  datatype LocalOp = Attach | StartPump(keyKnown: bool) | Read(chunk: Bytes) | Send(sealOk: bool) | Eof | Timeout

  predicate Live(e: End) {
    e.Present? && e.live
  }

  function Same(e: End): Out {
    Out(e, [])
  }

  function SendClose(e: End): Out {
    Out(e.(closes := e.closes + 1), [Close])
  }

  function CloseEnd(e: End, notify: bool): Out {
    if !Live(e) then Same(e)
    else
      var c := e.ch.(connOpen := false, done := e.ch.done + if e.ch.kind.Caps? then 1 else 0);
      var e' := Present(c, false, e.closes);
      if notify then SendClose(e') else Same(e')
  }

  function OpenEnd(e: End, service: Service, dial: string, sealOk: bool): Out {
    var c := Ch(KindFor(service), false, false, false, [], [], 0, Idle, [], []);
    var e' := Present(c, true, e.closes);
    if sealOk then Out(e', [Open(service, dial)]) else CloseEnd(e', false)
  }

  function Dialed(e: End): Out {
    Same(Present(Ch(Link, true, true, true, [], [], 0, Idle, [], []), true, e.closes))
  }

  function ServeCaps(e: End, env: Env): Out {
    var payload := if env.sealOk then [env.caps] else [];
    var c := Ch(Caps, true, false, false, [], [], 1, Idle, payload, []);
    Out(Present(c, false, e.closes + 1), (if env.sealOk then [Data(env.caps)] else []) + [Close])
  }

  /** A frame for a channel in the table. */
  function Take(e: End, f: Frame, keyKnown: bool): End
    requires Live(e)
  {
    if !keyKnown || !f.Data? then e
    else
      var c := e.ch.(got := e.ch.got + [f.payload]);
      e.(ch := if !c.kind.Caps? && c.attached then c.(written := c.written + f.payload)
               else c.(buf := c.buf + f.payload))
  }

  /** A frame for a channel not in the table: dial the service it names, if any. */
  function Fresh(e: End, f: Frame, env: Env): Out {
    if !env.keyKnown then SendClose(e)
    else if !f.Open? then Same(e)
    else match f.service
      case CapsService => ServeCaps(e, env)
      case Tcp =>
        if !env.serveDocker && f.dial == "" then Same(e) else if !env.dialOk then SendClose(e) else Dialed(e)
      case Docker => if !env.serveDocker || !env.dialOk then SendClose(e) else Dialed(e)
      case NoService => Same(e)
  }

  function Receive(e: End, f: Frame, env: Env): Out {
    if f.Close? || f.Refused? then CloseEnd(e, false)
    else if Live(e) then Same(Take(e, f, env.keyKnown))
    else Fresh(e, f, env)
  }

  // --- what the local side does ------------------------------------------------------

  predicate Allowed(e: End, op: LocalOp) {
    e.Present? &&
    match op
    case Attach => !e.ch.provider && !e.ch.kind.Caps? && !e.ch.attached
    case StartPump(_) => e.ch.attached && e.ch.pump.Idle?
    case Read(chunk) => e.ch.pump == Running(None) && e.ch.connOpen && 0 < |chunk| <= CHUNK
    case Send(_) => e.ch.pump.Running? && e.ch.pump.pending.Some?
    case Eof => e.ch.pump == Running(None)
    case Timeout => !e.ch.provider && e.ch.kind.Caps?
  }

  /** Attach the local connection; for a link, hand it what arrived before. */
  function AttachEnd(e: End): End
    requires e.Present?
  {
    var c := e.ch.(attached := true, connOpen := true);
    e.(ch := if c.kind.Link? then c.(written := c.buf, buf := []) else c)
  }

  function EndPump(e: End): End
    requires e.Present?
  {
    e.(ch := e.ch.(pump := Ended))
  }

  function Local(e: End, op: LocalOp): Out
    requires Allowed(e, op)
  {
    match op
    case Attach => Same(AttachEnd(e))
    case StartPump(keyKnown) =>
      if !e.live then Same(EndPump(e))
      else if !keyKnown then CloseEnd(EndPump(e), true)
      else Same(e.(ch := e.ch.(pump := Running(None))))
    case Read(chunk) => Same(e.(ch := e.ch.(pump := Running(Some(chunk)), read := e.ch.read + [chunk])))
    case Send(sealOk) =>
      if !sealOk then CloseEnd(EndPump(e), true)
      else Out(e.(ch := e.ch.(pump := Running(None))), [Data(e.ch.pump.pending.value)])
    case Eof => if e.ch.provider then CloseEnd(EndPump(e), true) else Same(EndPump(e))
    case Timeout => CloseEnd(e, true)
  }

  // --- views -----------------------------------------------------------------------------

  function ReadOf(e: End): seq<Bytes> {
    if e.Present? then e.ch.read else []
  }

  function GotOf(e: End): seq<Bytes> {
    if e.Present? then e.ch.got else []
  }

  function PendingOf(e: End): seq<Bytes> {
    if e.Present? && e.ch.pump.Running? && e.ch.pump.pending.Some? then [e.ch.pump.pending.value] else []
  }

  function Flat(chunks: seq<Bytes>): Bytes {
    if chunks == [] then [] else Flat(chunks[..|chunks| - 1]) + chunks[|chunks| - 1]
  }

  /** The chunks among the frames, in order. */
  function Chunks(frames: seq<Frame>): seq<Bytes> {
    if frames == [] then []
    else (if frames[0].Data? then [frames[0].payload] else []) + Chunks(frames[1..])
  }

  lemma {:induction false} ChunksAppend(fs: seq<Frame>, gs: seq<Frame>)
    ensures Chunks(fs + gs) == Chunks(fs) + Chunks(gs)
  {
    if fs == [] {
      assert fs + gs == gs;
    } else {
      assert (fs + gs)[1..] == fs[1..] + gs;
      ChunksAppend(fs[1..], gs);
      var head := if fs[0].Data? then [fs[0].payload] else [];
      assert head + (Chunks(fs[1..]) + Chunks(gs)) == (head + Chunks(fs[1..])) + Chunks(gs);
    }
  }

  lemma {:induction false} FlatAppend(xs: seq<Bytes>, ys: seq<Bytes>)
    ensures Flat(xs + ys) == Flat(xs) + Flat(ys)
  {
    if ys == [] {
      assert xs + ys == xs;
    } else {
      var n := |xs + ys| - 1;
      assert (xs + ys)[..n] == xs + ys[..|ys| - 1];
      FlatAppend(xs, ys[..|ys| - 1]);
    }
  }

  lemma FlatOne(x: Bytes)
    ensures Flat([x]) == x
  {
    assert [x][..0] == [];
  }

  // --- an end on its own -------------------------------------------------------------------

  /** The bytes an end holds are the frames it took: a link has handed all of them to its
      connection once attached; a forward keeps for ever what came before it was attached. */
  ghost predicate ContentOk(e: End) {
    e.Present? ==>
      var c := e.ch;
      && (!c.attached ==> c.written == [] && c.buf == Flat(c.got))
      && (c.attached && c.kind.Link? ==> c.buf == [] && c.written == Flat(c.got))
      && (c.attached && c.kind.Fwd? ==> c.buf + c.written == Flat(c.got))
      && (c.kind.Caps? ==> !c.attached)
  }

  /** The done channel of a caps record is closed exactly when the record leaves the table. */
  ghost predicate DoneOk(e: End) {
    e.Present? ==> e.ch.done == if e.ch.kind.Caps? && !e.live then 1 else 0
  }

  /** The pump runs only on an attached connection, and only that can be open; the provider's is not
      without its channel. */
  ghost predicate PumpOk(e: End) {
    e.Present? ==>
      && (e.ch.attached || e.ch.pump.Idle?) && (e.ch.provider && !e.ch.kind.Caps? ==> e.ch.attached)
      && (e.ch.connOpen ==> e.ch.attached && (e.ch.provider ==> e.live))
  }

  ghost predicate EndOk(e: End) {
    ContentOk(e) && DoneOk(e) && PumpOk(e)
  }

  lemma TakeContent(e: End, f: Frame, keyKnown: bool)
    requires Live(e) && ContentOk(e)
    ensures ContentOk(Take(e, f, keyKnown))
  {
    if keyKnown && f.Data? {
      FlatAppend(e.ch.got, [f.payload]);
      FlatOne(f.payload);
      assert e.ch.buf + (e.ch.written + f.payload) == e.ch.buf + e.ch.written + f.payload;
    }
  }

  lemma FreshOk(e: End, f: Frame, env: Env)
    requires EndOk(e)
    ensures EndOk(Fresh(e, f, env).end)
  {
    assert Flat([]) == [];
    hide Flat;
  }

  lemma CloseOk(e: End, notify: bool)
    requires EndOk(e)
    ensures EndOk(CloseEnd(e, notify).end)
  {
    hide Flat;
  }

  lemma ReceiveOk(e: End, f: Frame, env: Env)
    requires EndOk(e)
    ensures EndOk(Receive(e, f, env).end)
  {
    hide Flat, Fresh, CloseEnd, ContentOk;
    if f.Close? || f.Refused? {
      CloseOk(e, false);
    } else if Live(e) {
      TakeContent(e, f, env.keyKnown);
    } else {
      FreshOk(e, f, env);
    }
  }

  lemma LocalOk(e: End, op: LocalOp)
    requires EndOk(e) && Allowed(e, op)
    ensures EndOk(Local(e, op).end)
  {
    if op.Attach? {
      assert e.ch.buf + [] == e.ch.buf;
    }
  }

  /** A forward hands its connection everything it took exactly when nothing arrived before
      the connection was attached. */
  lemma ForwardLosslessIff(e: End)
    requires EndOk(e) && e.Present? && e.ch.attached
    ensures e.ch.written == Flat(e.ch.got) <==> e.ch.buf == []
  {
    if e.ch.kind.Fwd? && e.ch.written == Flat(e.ch.got) {
      assert |e.ch.buf + e.ch.written| == |e.ch.buf| + |e.ch.written|;
    }
  }
}
