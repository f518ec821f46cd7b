/** The loop that reads a connection and relays what it reads, as a function of what it reads,
    and as a sequence of the steps the protocol interleaves. */
module PumpLoop {
  import opened Basics
  import opened Endpoint

  /** History: how far the pump is, and the chunks it read. */
  ghost function Logged(e: End, pump: Pump, read: seq<Bytes>): End
    requires e.Present?
  {
    e.(ch := e.ch.(pump := pump, read := read))
  }

  /** The frames that carry the given chunks. */
  ghost function Datas(chunks: seq<Bytes>): seq<Frame> {
    if chunks == [] then [] else [Data(chunks[0])] + Datas(chunks[1..])
  }

  lemma {:induction false} DatasSnoc(chunks: seq<Bytes>, x: Bytes)
    ensures Datas(chunks + [x]) == Datas(chunks) + [Data(x)]
  {
    if chunks == [] {
      assert chunks + [x] == [x];
      assert [x][1..] == [];
    } else {
      assert (chunks + [x])[1..] == chunks[1..] + [x];
      DatasSnoc(chunks[1..], x);
    }
  }

  /** What becomes of an end whose pump, already running, reads the given chunks and then the end
      of the input, while sealing works for the first `sealed` of them. */
  ghost function Pumped(e: End, chunks: seq<Bytes>, sealed: nat): Out
    requires e.Present?
  {
    var fails := sealed < |chunks|;
    var k := if fails then sealed else |chunks|;
    var e' := Logged(e, Ended, e.ch.read + chunks[..if fails then k + 1 else k]);
    var o := if fails || e.ch.provider then CloseEnd(e', true) else Same(e');
    Out(o.end, Datas(chunks[..k]) + o.frames)
  }

  ghost function PumpRun(e: End, chunks: seq<Bytes>, keyKnown: bool, sealed: nat): Out
    requires e.Present?
  {
    if !e.live then Same(EndPump(e)) else if !keyKnown then CloseEnd(EndPump(e), true) else Pumped(e, chunks, sealed)
  }

  // --- the pump's loop is made of the protocol's steps ------------------------------------------

  ghost predicate AllAllowed(e: End, ops: seq<LocalOp>)
    decreases |ops|
  {
    ops == [] || (Allowed(e, ops[0]) && AllAllowed(Local(e, ops[0]).end, ops[1..]))
  }

  ghost function RunOps(e: End, ops: seq<LocalOp>): Out
    requires AllAllowed(e, ops)
    decreases |ops|
  {
    if ops == [] then Same(e)
    else
      var o := Local(e, ops[0]);
      var r := RunOps(o.end, ops[1..]);
      Out(r.end, o.frames + r.frames)
  }

  ghost function PumpOps(chunks: seq<Bytes>, sealed: nat): seq<LocalOp> {
    if chunks == [] then [Eof]
    else if sealed == 0 then [Read(chunks[0]), Send(false)]
    else [Read(chunks[0]), Send(true)] + PumpOps(chunks[1..], sealed - 1)
  }

  lemma OneOp(e: End, op: LocalOp)
    requires Allowed(e, op)
    ensures AllAllowed(e, [op]) && RunOps(e, [op]).end == Local(e, op).end
    ensures RunOps(e, [op]).frames == Local(e, op).frames
  {
    assert [op][1..] == [];
    assert Local(e, op).frames + [] == Local(e, op).frames;
  }

  lemma TwoOps(e: End, a: LocalOp, b: LocalOp, ops: seq<LocalOp>)
    requires Allowed(e, a) && Allowed(Local(e, a).end, b) && Local(e, a).frames == []
    requires AllAllowed(Local(Local(e, a).end, b).end, ops)
    ensures AllAllowed(e, [a, b] + ops)
    ensures var o := Local(Local(e, a).end, b);
      var r := RunOps(o.end, ops);
      RunOps(e, [a, b] + ops) == Out(r.end, o.frames + r.frames)
  {
    hide Local, Allowed;
    var all := [a, b] + ops;
    assert all[1..] == [b] + ops && ([b] + ops)[1..] == ops;
    var o := Local(Local(e, a).end, b);
    var r := RunOps(o.end, ops);
    assert AllAllowed(Local(e, a).end, [b] + ops);
    assert RunOps(Local(e, a).end, [b] + ops) == Out(r.end, o.frames + r.frames);
    assert Local(e, a).frames + (o.frames + r.frames) == o.frames + r.frames;
  }

  lemma ReadThenSend(e: End, x: Bytes, sealOk: bool)
    requires Live(e) && e.ch.connOpen && e.ch.pump == Running(None) && 0 < |x| <= CHUNK
    ensures Allowed(e, Read(x)) && Allowed(Local(e, Read(x)).end, Send(sealOk)) && Local(e, Read(x)).frames == []
    ensures var o := Local(Local(e, Read(x)).end, Send(sealOk));
      o == if sealOk then Out(Logged(e, Running(None), e.ch.read + [x]), [Data(x)])
           else CloseEnd(Logged(e, Ended, e.ch.read + [x]), true)
  {}

  /** The loop does what the steps do that the protocol interleaves with everything else. */
  lemma {:induction false} PumpIsSteps(e: End, chunks: seq<Bytes>, sealed: nat)
    requires Live(e) && e.ch.connOpen && e.ch.pump == Running(None)
    requires forall i :: 0 <= i < |chunks| ==> 0 < |chunks[i]| <= CHUNK
    ensures AllAllowed(e, PumpOps(chunks, sealed))
    ensures RunOps(e, PumpOps(chunks, sealed)) == Pumped(e, chunks, sealed)
    decreases |chunks|
  {
    hide Local, Allowed, Logged, CloseEnd;
    if chunks == [] {
      EofStep(e);
      OneOp(e, Eof);
    } else {
      var x, rest := chunks[0], chunks[1..];
      ReadThenSend(e, x, sealed > 0);
      var e' := Local(Local(e, Read(x)).end, Send(sealed > 0)).end;
      if sealed == 0 {
        assert [Read(x), Send(false)] + [] == [Read(x), Send(false)];
        TwoOps(e, Read(x), Send(false), []);
        assert chunks[..0] == [] && chunks[..1] == [x];
      } else {
        LoggedLive(e, e.ch.read + [x]);
        PumpIsSteps(e', rest, sealed - 1);
        TwoOps(e, Read(x), Send(true), PumpOps(rest, sealed - 1));
        PumpedMore(e, x, rest, sealed);
        assert chunks == [x] + rest;
      }
    }
  }

  lemma EofStep(e: End)
    requires Live(e) && e.ch.pump == Running(None)
    ensures Allowed(e, Eof)
    ensures Local(e, Eof) == Pumped(e, [], 0)
    ensures forall n: nat :: Pumped(e, [], n) == Pumped(e, [], 0)
  {
    assert e.ch.read + [] == e.ch.read;
  }

  lemma LoggedLive(e: End, read: seq<Bytes>)
    requires Live(e) && e.ch.connOpen
    ensures var e' := Logged(e, Running(None), read); Live(e') && e'.ch.connOpen && e'.ch.pump == Running(None)
  {}

  lemma PumpedMore(e: End, x: Bytes, rest: seq<Bytes>, sealed: nat)
    requires e.Present? && sealed > 0
    ensures var r := Pumped(Logged(e, Running(None), e.ch.read + [x]), rest, sealed - 1);
      Pumped(e, [x] + rest, sealed) == Out(r.end, [Data(x)] + r.frames)
  {
    hide CloseEnd, Datas;
    var all := [x] + rest;
    var fails := sealed < |all|;
    var k := if fails then sealed else |all|;
    var j := if fails then k + 1 else k;
    assert all[..k] == [x] + rest[..k - 1] && all[..j] == [x] + rest[..j - 1];
    assert (e.ch.read + [x]) + rest[..j - 1] == e.ch.read + all[..j];
    DatasFirst(x, rest[..k - 1]);
    var o := if fails || e.ch.provider then CloseEnd(Logged(e, Ended, e.ch.read + all[..j]), true)
             else Same(Logged(e, Ended, e.ch.read + all[..j]));
    assert [Data(x)] + (Datas(rest[..k - 1]) + o.frames) == ([Data(x)] + Datas(rest[..k - 1])) + o.frames;
  }

  lemma DatasFirst(x: Bytes, rest: seq<Bytes>)
    ensures Datas([x] + rest) == [Data(x)] + Datas(rest)
  {
    assert ([x] + rest)[1..] == rest;
  }
}
