/** One channel between its two ends, with everything in flight in each direction. A direction
    is the receiving daemon's queue at the hub followed by the sending daemon's own queue, the
    next frame to arrive first. */
module Channel {
  import opened Basics
  import opened Endpoint

  /** `clean`: nothing was lost or refused, and keys and sealing never failed. `keyed`: keys and
      sealing never failed, whatever was lost. */
  datatype Chan = Chan(cons: End, prov: End, toProv: seq<Frame>, toCons: seq<Frame>,
                       begun: bool, clean: bool, keyed: bool)

  datatype Role = Consumer | Provider

  datatype Act =
    | OpenAct(service: Service, dial: string, sealOk: bool)
    | LocalAct(role: Role, op: LocalOp)
    | Deliver(role: Role, env: Env)          // the role handles the next frame on its way to it
    | Lose(role: Role, i: nat)               // a frame on its way to the role disappears
    | Refuse(role: Role, i: nat, j: nat)     // the hub refuses a frame on its way to the role and
                                             // puts a refusal on the way back

  const START := Chan(Absent(0), Absent(0), [], [], false, true, true)

  function Remove<T>(s: seq<T>, i: nat): seq<T>
    requires i < |s|
  {
    s[..i] + s[i + 1..]
  }

  function Insert<T>(s: seq<T>, i: nat, x: T): seq<T>
    requires i <= |s|
  {
    s[..i] + [x] + s[i..]
  }

  predicate KeyFailure(op: LocalOp) {
    (op.StartPump? && !op.keyKnown) || (op.Send? && !op.sealOk)
  }

  predicate EnvFailure(env: Env) {
    !env.keyKnown || !env.sealOk
  }

  /** Only opening and data frames are relayed under the hub's rules; closes are not refused. */
  predicate IsRelay(f: Frame) {
    f.Open? || f.Data?
  }

  ghost predicate Enabled(c: Chan, a: Act) {
    match a
    case OpenAct(service, _, _) => !c.begun && !service.NoService?
    case LocalAct(Consumer, op) => Allowed(c.cons, op)
    case LocalAct(Provider, op) => Allowed(c.prov, op)
    case Deliver(Consumer, _) => c.toCons != []
    case Deliver(Provider, _) => c.toProv != []
    case Lose(Consumer, i) => i < |c.toCons|
    case Lose(Provider, i) => i < |c.toProv|
    case Refuse(Provider, i, j) => i < |c.toProv| && IsRelay(c.toProv[i]) && j <= |c.toCons|
    case Refuse(Consumer, i, j) => i < |c.toCons| && IsRelay(c.toCons[i]) && j <= |c.toProv|
  }

  function Step(c: Chan, a: Act): Chan
    requires Enabled(c, a)
  {
    match a
    case OpenAct(service, dial, sealOk) =>
      var o := OpenEnd(c.cons, service, dial, sealOk);
      c.(cons := o.end, toProv := c.toProv + o.frames, begun := true,
         clean := c.clean && sealOk, keyed := c.keyed && sealOk)
    case LocalAct(Consumer, op) =>
      var o := Local(c.cons, op);
      c.(cons := o.end, toProv := c.toProv + o.frames,
         clean := c.clean && !KeyFailure(op), keyed := c.keyed && !KeyFailure(op))
    case LocalAct(Provider, op) =>
      var o := Local(c.prov, op);
      c.(prov := o.end, toCons := c.toCons + o.frames,
         clean := c.clean && !KeyFailure(op), keyed := c.keyed && !KeyFailure(op))
    case Deliver(Consumer, env) =>
      var o := Receive(c.cons, c.toCons[0], env);
      c.(cons := o.end, toCons := c.toCons[1..], toProv := c.toProv + o.frames,
         clean := c.clean && !EnvFailure(env), keyed := c.keyed && !EnvFailure(env))
    case Deliver(Provider, env) =>
      var o := Receive(c.prov, c.toProv[0], env);
      c.(prov := o.end, toProv := c.toProv[1..], toCons := c.toCons + o.frames,
         clean := c.clean && !EnvFailure(env), keyed := c.keyed && !EnvFailure(env))
    case Lose(Consumer, i) => c.(toCons := Remove(c.toCons, i), clean := false)
    case Lose(Provider, i) => c.(toProv := Remove(c.toProv, i), clean := false)
    case Refuse(Provider, i, j) =>
      c.(toProv := Remove(c.toProv, i), toCons := Insert(c.toCons, j, Refused), clean := false)
    case Refuse(Consumer, i, j) =>
      c.(toCons := Remove(c.toCons, i), toProv := Insert(c.toProv, j, Refused), clean := false)
  }

  // --- subsequences -----------------------------------------------------------------------

  /** xs is ys with some elements left out. */
  predicate Sub<T(==)>(xs: seq<T>, ys: seq<T>) {
    xs == [] || (ys != [] &&
      ((xs[|xs| - 1] == ys[|ys| - 1] && Sub(xs[..|xs| - 1], ys[..|ys| - 1])) || Sub(xs, ys[..|ys| - 1])))
  }

  lemma {:induction false} SubSelf<T>(xs: seq<T>)
    ensures Sub(xs, xs)
  {
    if xs != [] {
      SubSelf(xs[..|xs| - 1]);
    }
  }

  lemma SubSnoc<T>(xs: seq<T>, ys: seq<T>, x: T)
    requires Sub(xs, ys)
    ensures Sub(xs + [x], ys + [x]) && Sub(xs, ys + [x])
  {
    assert (xs + [x])[..|xs|] == xs && (ys + [x])[..|ys|] == ys;
  }

  /** Leaving out one more element, at position i. */
  lemma {:induction false} SubRemove<T>(xs: seq<T>, i: nat, ys: seq<T>)
    requires i < |xs| && Sub(xs, ys)
    ensures Sub(Remove(xs, i), ys)
  {
    hide Sub;
    SubLast(xs, ys);
    var n := |xs| - 1;
    var ys', y := ys[..|ys| - 1], ys[|ys| - 1];
    assert ys' + [y] == ys;
    if xs[n] == y && Sub(xs[..n], ys') {
      if i == n {
        assert Remove(xs, i) == xs[..n];
        SubSnoc(xs[..n], ys', y);
      } else {
        SubRemove(xs[..n], i, ys');
        SubSnoc(Remove(xs[..n], i), ys', y);
        assert Remove(xs, i) == Remove(xs[..n], i) + [y];
      }
    } else {
      SubRemove(xs, i, ys');
      SubSnoc(Remove(xs, i), ys', y);
    }
  }

  lemma SubLast<T>(xs: seq<T>, ys: seq<T>)
    requires Sub(xs, ys) && xs != []
    ensures ys != []
    ensures (xs[|xs| - 1] == ys[|ys| - 1] && Sub(xs[..|xs| - 1], ys[..|ys| - 1])) || Sub(xs, ys[..|ys| - 1])
  {}

  lemma {:induction false} SubPrefix<T>(xs: seq<T>, ys: seq<T>, zs: seq<T>)
    requires Sub(xs + ys, zs)
    ensures Sub(xs, zs)
  {
    if ys == [] {
      assert xs + ys == xs;
    } else {
      var n := |xs + ys| - 1;
      SubRemove(xs + ys, n, zs);
      assert Remove(xs + ys, n) == xs + ys[..|ys| - 1];
      SubPrefix(xs, ys[..|ys| - 1], zs);
    }
  }

  // --- one direction ------------------------------------------------------------------------

  /** All a sender has read that its receiver has not lost sight of: taken, in flight, and read
      but not sent. */
  ghost function Line(rcv: End, flight: seq<Frame>, snd: End): seq<Bytes> {
    GotOf(rcv) + Chunks(flight) + PendingOf(snd)
  }

  /** The receiver takes data now, or will when the opening frame reaches it. */
  predicate Taking(rcv: End, flight: seq<Frame>) {
    Live(rcv) || (flight != [] && flight[0].Open?)
  }

  ghost predicate DirOk(rcv: End, flight: seq<Frame>, snd: End, clean: bool) {
    && Sub(Line(rcv, flight, snd), ReadOf(snd))
    && (clean ==> GotOf(rcv) <= ReadOf(snd))
    && (clean && Taking(rcv, flight) ==> Line(rcv, flight, snd) == ReadOf(snd))
  }

  /** The sender's side of a direction: its end changed and it sent frames. */
  ghost predicate Sends(snd: End, snd': End, frames: seq<Frame>) {
    if ReadOf(snd') == ReadOf(snd) then
      || (PendingOf(snd') == PendingOf(snd) && Chunks(frames) == [])
      || (PendingOf(snd') == [] && Chunks(frames) == PendingOf(snd))
    else
      && |ReadOf(snd')| == |ReadOf(snd)| + 1 && ReadOf(snd) <= ReadOf(snd') && PendingOf(snd) == []
      && var x := ReadOf(snd')[|ReadOf(snd)|];
         (PendingOf(snd') == [x] && Chunks(frames) == []) || (PendingOf(snd') == [] && Chunks(frames) == [x])
  }

  lemma Regroup(g: seq<Bytes>, c: seq<Bytes>, p: seq<Bytes>, x: Bytes)
    ensures g + (c + []) + p == g + c + p
    ensures g + (c + p) + [] == g + c + p
    ensures g + (c + []) + [x] == g + c + [] + [x]
    ensures g + (c + [x]) + [] == g + c + [] + [x]
  {}

  lemma DirSend(rcv: End, flight: seq<Frame>, snd: End, snd': End, frames: seq<Frame>, clean: bool)
    requires DirOk(rcv, flight, snd, clean) && Sends(snd, snd', frames)
    requires Taking(rcv, flight + frames) ==> Taking(rcv, flight)
    ensures DirOk(rcv, flight + frames, snd', clean)
  {
    hide Sub, Chunks, Taking;
    ChunksAppend(flight, frames);
    var g, c := GotOf(rcv), Chunks(flight);
    if ReadOf(snd') == ReadOf(snd) {
      Regroup(g, c, PendingOf(snd), []);
      assert Line(rcv, flight + frames, snd') == Line(rcv, flight, snd);
    } else {
      var r, r' := ReadOf(snd), ReadOf(snd');
      var x := r'[|r|];
      assert r' == r + [x];
      Regroup(g, c, [], x);
      assert Line(rcv, flight + frames, snd') == Line(rcv, flight, snd) + [x];
      SubSnoc(Line(rcv, flight, snd), r, x);
    }
  }

  /** The pump gives up with a chunk in hand: it is lost like a frame. */
  lemma DirDiscard(rcv: End, flight: seq<Frame>, snd: End, snd': End, frames: seq<Frame>)
    requires DirOk(rcv, flight, snd, false)
    requires ReadOf(snd') == ReadOf(snd) && PendingOf(snd') == [] && Chunks(frames) == []
    ensures DirOk(rcv, flight + frames, snd', false)
  {
    ChunksAppend(flight, frames);
    var line := GotOf(rcv) + Chunks(flight);
    SubPrefix(line, PendingOf(snd), ReadOf(snd));
    assert Line(rcv, flight + frames, snd') == line;
  }

  lemma RemoveMiddle<T>(a: seq<T>, x: T, b: seq<T>)
    ensures |a + [x] + b| > |a| && Remove(a + [x] + b, |a|) == a + b
  {}

  lemma ChunksAround(before: seq<Frame>, f: Frame, after: seq<Frame>)
    ensures Chunks(before + [f] + after) == Chunks(before) + (if f.Data? then [f.payload] else []) + Chunks(after)
    ensures Chunks(before + after) == Chunks(before) + Chunks(after)
  {
    assert [f][1..] == [];
    assert Chunks([f]) == if f.Data? then [f.payload] else [];
    hide Chunks;
    ChunksAppend(before + [f], after);
    ChunksAppend(before, [f]);
    ChunksAppend(before, after);
  }

  lemma AroundOne(g: seq<Bytes>, a: seq<Bytes>, x: Bytes, b: seq<Bytes>, p: seq<Bytes>)
    ensures g + (a + [x] + b) + p == (g + a) + [x] + (b + p)
    ensures g + (a + b) + p == (g + a) + (b + p)
  {}

  /** A frame disappears from a direction. */
  lemma DirLose(rcv: End, flight: seq<Frame>, snd: End, i: nat, clean: bool)
    requires DirOk(rcv, flight, snd, clean) && i < |flight|
    ensures DirOk(rcv, Remove(flight, i), snd, false)
  {
    hide Sub, Chunks;
    var before, f, after := flight[..i], flight[i], flight[i + 1..];
    assert flight == before + [f] + after;
    ChunksAround(before, f, after);
    if f.Data? {
      var g, p := GotOf(rcv), PendingOf(snd);
      AroundOne(g, Chunks(before), f.payload, Chunks(after), p);
      RemoveMiddle(g + Chunks(before), f.payload, Chunks(after) + p);
      SubRemove(Line(rcv, flight, snd), |g + Chunks(before)|, ReadOf(snd));
    } else {
      assert Chunks(before) + [] == Chunks(before);
    }
  }

  /** A refusal carries no data. */
  lemma DirInsert(rcv: End, flight: seq<Frame>, snd: End, j: nat, clean: bool)
    requires DirOk(rcv, flight, snd, clean) && j <= |flight|
    ensures DirOk(rcv, Insert(flight, j, Refused), snd, false)
  {
    var before, after := flight[..j], flight[j..];
    assert flight == before + after;
    ChunksAppend(before, after);
    ChunksAppend(before + [Refused], after);
    ChunksAppend(before, [Refused]);
    assert [Refused][1..] == [];
    assert Chunks([Refused]) == [];
    assert Chunks(before) + [] == Chunks(before);
  }

  lemma FirstChunk(flight: seq<Frame>)
    requires flight != []
    ensures Chunks(flight) == (if flight[0].Data? then [flight[0].payload] else []) + Chunks(flight[1..])
  {}

  /** The receiver takes the next frame's data. */
  lemma DirTook(rcv: End, flight: seq<Frame>, snd: End, rcv': End, clean: bool)
    requires DirOk(rcv, flight, snd, clean) && flight != [] && flight[0].Data? && (clean ==> Taking(rcv, flight))
    requires GotOf(rcv') == GotOf(rcv) + [flight[0].payload]
    ensures DirOk(rcv', flight[1..], snd, clean)
  {
    hide Sub, Chunks;
    var rest := flight[1..];
    FirstChunk(flight);
    var x, g, p := flight[0].payload, GotOf(rcv), PendingOf(snd);
    assert g + ([x] + Chunks(rest)) + p == g + [x] + Chunks(rest) + p;
    assert Line(rcv', rest, snd) == Line(rcv, flight, snd);
    assert g + [x] <= g + [x] + Chunks(rest) + p;
  }

  /** The next frame is not for the connection, or the receiver no longer takes data. */
  lemma DirPassed(rcv: End, flight: seq<Frame>, snd: End, rcv': End, clean: bool, clean': bool)
    requires DirOk(rcv, flight, snd, clean) && flight != [] && GotOf(rcv') == GotOf(rcv) && (clean' ==> clean)
    requires clean' && Taking(rcv', flight[1..]) ==> Taking(rcv, flight) && !flight[0].Data?
    ensures DirOk(rcv', flight[1..], snd, clean')
  {
    hide Sub, Chunks;
    var rest := flight[1..];
    FirstChunk(flight);
    if flight[0].Data? {
      var x, g, p := flight[0].payload, GotOf(rcv), PendingOf(snd);
      assert g + ([x] + Chunks(rest)) + p == g + [x] + (Chunks(rest) + p);
      RemoveMiddle(g, x, Chunks(rest) + p);
      assert g + (Chunks(rest) + p) == g + Chunks(rest) + p;
      SubRemove(Line(rcv, flight, snd), |g|, ReadOf(snd));
    } else {
      assert [] + Chunks(rest) == Chunks(rest);
    }
  }

  // --- the invariant ------------------------------------------------------------------------

  /** There is one opening frame, it is the first thing on its way to the provider, and until it
      is handled the provider knows nothing of the channel and has sent nothing. */
  ghost predicate ShapeOk(c: Chan) {
    && (!c.begun ==> c.cons == Absent(0) && c.prov == Absent(0) && c.toProv == [] && c.toCons == [])
    && (c.begun ==> c.cons.Present? && !c.cons.ch.provider)
    && (c.prov.Present? ==> c.prov.ch.provider)
    && (forall i :: 0 <= i < |c.toCons| ==> !c.toCons[i].Open?)
    && (forall i :: 0 < i < |c.toProv| ==> !c.toProv[i].Open?)
    && (Opening(c) ==> c.prov == Absent(0) && forall i :: 0 <= i < |c.toCons| ==> c.toCons[i].Refused?)
    && (c.prov.Absent? ==> Chunks(c.toCons) == [])
  }

  predicate Opening(c: Chan) {
    c.toProv != [] && c.toProv[0].Open?
  }

  lemma NoChunks(fs: seq<Frame>)
    requires forall i :: 0 <= i < |fs| ==> !fs[i].Data?
    ensures Chunks(fs) == []
  {
    if fs != [] {
      NoChunks(fs[1..]);
    }
  }

  lemma {:induction false} ChunksOfRemove(fs: seq<Frame>, i: nat)
    requires i < |fs| && Chunks(fs) == []
    ensures Chunks(Remove(fs, i)) == []
  {
    assert fs == fs[..i] + [fs[i]] + fs[i + 1..];
    ChunksAround(fs[..i], fs[i], fs[i + 1..]);
  }

  lemma ChunksOfInsert(fs: seq<Frame>, j: nat)
    requires j <= |fs| && Chunks(fs) == []
    ensures Chunks(Insert(fs, j, Refused)) == []
  {
    assert fs == fs[..j] + fs[j..];
    ChunksAround(fs[..j], Refused, fs[j..]);
  }

  /** What an end sends when it handles a frame, or acts locally. */
  lemma SentByReceive(e: End, f: Frame, env: Env)
    ensures var o := Receive(e, f, env);
      && (forall i :: 0 <= i < |o.frames| ==> !o.frames[i].Open? && !o.frames[i].Refused?)
      && (!(f.Open? && !Live(e)) ==> Chunks(o.frames) == [])
      && (o.end.Absent? ==> Chunks(o.frames) == [])
      && (e.Present? && (Live(e) || !f.Open?) ==> o.end.Present? && o.end.ch.provider == e.ch.provider)
      && (o.end.Present? && e.Absent? ==> f.Open? && o.end.ch.provider)
  {
    FirstChunks(env.caps);
    hide Chunks, Fresh;
    FreshSends(e, f, env);
  }

  lemma FreshSends(e: End, f: Frame, env: Env)
    ensures var o := Fresh(e, f, env);
      && (forall i :: 0 <= i < |o.frames| ==> !o.frames[i].Open? && !o.frames[i].Refused?)
      && (!f.Open? ==> Chunks(o.frames) == [] && o.end == e.(closes := o.end.closes))
      && (o.end.Absent? ==> Chunks(o.frames) == [])
      && (o.end.Present? && e.Absent? ==> f.Open? && o.end.ch.provider)
  {
    FirstChunks(env.caps);
    hide Chunks;
  }

  lemma FirstChunks(x: Bytes)
    ensures Chunks([]) == [] && Chunks([Close]) == [] && Chunks([Data(x)]) == [x] && Chunks([Data(x)] + [Close]) == [x]
    ensures forall service, dial :: Chunks([Open(service, dial)]) == []
  {
    ChunksAppend([Data(x)], [Close]);
  }

  lemma SentLocally(e: End, op: LocalOp)
    requires Allowed(e, op)
    ensures var o := Local(e, op);
      && (forall i :: 0 <= i < |o.frames| ==> !o.frames[i].Open? && !o.frames[i].Refused?)
      && o.end.Present? && o.end.ch.provider == e.ch.provider
  {}

  lemma ShapeAct(c: Chan, a: Act)
    requires ShapeOk(c) && Enabled(c, a) && (a.OpenAct? || a.LocalAct?)
    ensures ShapeOk(Step(c, a))
  {
    hide Chunks, Receive, Local, OpenEnd;
    match a
    case OpenAct(service, dial, sealOk) =>
      FirstChunks([]);
      OpenedShape(c.cons, service, dial, sealOk);
    case LocalAct(Consumer, op) => SentLocally(c.cons, op);
    case LocalAct(Provider, op) => SentLocally(c.prov, op);
  }

  lemma ShapeDeliver(c: Chan, a: Act)
    requires ShapeOk(c) && Enabled(c, a) && a.Deliver?
    ensures ShapeOk(Step(c, a))
  {
    hide Chunks, Receive, Local, OpenEnd;
    match a
    case Deliver(Consumer, env) =>
      SentByReceive(c.cons, c.toCons[0], env);
      FirstChunk(c.toCons);
    case Deliver(Provider, env) =>
      SentByReceive(c.prov, c.toProv[0], env);
      ChunksAppend(c.toCons, Receive(c.prov, c.toProv[0], env).frames);
  }

  lemma ShapeLose(c: Chan, a: Act)
    requires ShapeOk(c) && Enabled(c, a) && a.Lose?
    ensures ShapeOk(Step(c, a))
  {
    hide Chunks;
    if a.role.Consumer? && c.prov.Absent? { ChunksOfRemove(c.toCons, a.i); }
  }

  lemma ShapeRefuse(c: Chan, a: Act)
    requires ShapeOk(c) && Enabled(c, a) && a.Refuse?
    ensures ShapeOk(Step(c, a))
  {
    hide Chunks;
    match a
    case Refuse(Provider, i, j) =>
      if c.prov.Absent? { ChunksOfInsert(c.toCons, j); }
    case Refuse(Consumer, i, j) =>
      if c.prov.Absent? { FrameNotThere(c.toCons, i); }
  }

  lemma ShapeStep(c: Chan, a: Act)
    requires ShapeOk(c) && Enabled(c, a)
    ensures ShapeOk(Step(c, a))
  {
    hide ShapeOk, Enabled, Step;
    if a.OpenAct? || a.LocalAct? {
      ShapeAct(c, a);
    } else if a.Deliver? {
      ShapeDeliver(c, a);
    } else if a.Lose? {
      ShapeLose(c, a);
    } else {
      ShapeRefuse(c, a);
    }
  }

  lemma FrameNotThere(fs: seq<Frame>, i: nat)
    requires i < |fs| && Chunks(fs) == []
    ensures !fs[i].Data?
  {
    assert fs == fs[..i] + [fs[i]] + fs[i + 1..];
    ChunksAround(fs[..i], fs[i], fs[i + 1..]);
  }

  lemma OpenedShape(e: End, service: Service, dial: string, sealOk: bool)
    ensures var o := OpenEnd(e, service, dial, sealOk);
      && o.end.Present? && !o.end.ch.provider && o.end.closes == e.closes
      && ReadOf(o.end) == [] && GotOf(o.end) == [] && PendingOf(o.end) == []
      && (o.frames == if sealOk then [Open(service, dial)] else [])
  {}

  /** With the peers' keys known, each end sends at most one close, and is out of the table once
      it has. */
  ghost predicate ClosesOk(c: Chan) {
    c.keyed ==> OneClose(c.cons) && OneClose(c.prov)
  }

  predicate OneClose(e: End) {
    e.closes <= 1 && (e.closes == 1 ==> !Live(e))
  }

  /** An end that is not in the table stays out of it and sends no more closes, unless the
      opening frame reaches it. */
  lemma ClosesByReceive(e: End, f: Frame, env: Env)
    requires env.keyKnown && OneClose(e) && (f.Open? ==> e == Absent(0))
    ensures var e' := Receive(e, f, env).end;
      OneClose(e') && (!f.Open? ==> e'.closes == e.closes && (Live(e') ==> Live(e)))
    ensures f.Close? || f.Refused? ==> Receive(e, f, env).frames == []
  {}

  lemma ClosesLocally(e: End, op: LocalOp)
    requires OneClose(e) && Allowed(e, op)
    ensures var e' := Local(e, op).end;
      OneClose(e') && (!Live(e) ==> !Live(e') && e'.closes == e.closes)
  {}

  lemma ClosesStep(c: Chan, a: Act)
    requires ShapeOk(c) && ClosesOk(c) && Enabled(c, a)
    ensures ClosesOk(Step(c, a))
  {
    hide Chunks, Receive, Local, OpenEnd;
    if Step(c, a).keyed {
      match a
      case OpenAct(service, dial, sealOk) => OpenedShape(c.cons, service, dial, sealOk);
      case LocalAct(Consumer, op) => ClosesLocally(c.cons, op);
      case LocalAct(Provider, op) => ClosesLocally(c.prov, op);
      case Deliver(Consumer, env) => ClosesByReceive(c.cons, c.toCons[0], env);
      case Deliver(Provider, env) => ClosesByReceive(c.prov, c.toProv[0], env);
      case _ =>
    }
  }

  /** In a clean run nothing is refused, the provider's close is the last thing it sends, and it
      has sent it only when its pump is done. */
  ghost predicate CloseLast(c: Chan) {
    c.clean ==>
      && c.keyed
      && (forall i :: 0 <= i < |c.toProv| ==> !c.toProv[i].Refused?)
      && (forall i :: 0 <= i < |c.toCons| ==> !c.toCons[i].Refused?)
      && (forall i :: 0 <= i < |c.toCons| && c.toCons[i].Close? ==> i == |c.toCons| - 1 && c.prov.closes == 1)
      && (c.prov.closes == 1 ==> Settled(c.prov))
  }

  predicate Settled(e: End) {
    e.Present? ==> !e.ch.pump.Running?
  }

  /** What a provider sends when it handles a frame, its key known: nothing once it has closed;
      a close only as the last frame, with its pump not running. */
  lemma ProviderReceives(e: End, f: Frame, env: Env)
    requires env.keyKnown && (f.Open? ==> e == Absent(0)) && OneClose(e)
    ensures var o := Receive(e, f, env);
      && (e.closes == 1 ==> o.frames == [])
      && (forall i :: 0 <= i < |o.frames| && o.frames[i].Close? ==> i == |o.frames| - 1 && o.end.closes == 1)
      && (o.end.closes == 1 && e.closes == 0 ==> Settled(o.end))
      && (e.closes == 1 && Settled(e) ==> Settled(o.end))
  {}

  lemma ProviderActs(e: End, op: LocalOp)
    requires Allowed(e, op) && OneClose(e) && !KeyFailure(op) && e.Present? && e.ch.provider
    requires e.closes == 1 ==> Settled(e)
    ensures var o := Local(e, op);
      && (e.closes == 1 ==> o.frames == [] && Settled(o.end) && o.end.closes == 1)
      && (forall i :: 0 <= i < |o.frames| && o.frames[i].Close? ==> i == |o.frames| - 1 && o.end.closes == 1)
      && (o.end.closes == 1 ==> Settled(o.end))
  {}

  lemma CloseLastStep(c: Chan, a: Act)
    requires ShapeOk(c) && ClosesOk(c) && CloseLast(c) && Enabled(c, a)
    ensures CloseLast(Step(c, a))
  {
    hide Chunks, Receive, Local, OpenEnd, Settled;
    if Step(c, a).clean {
      match a
      case OpenAct(service, dial, sealOk) => OpenedShape(c.cons, service, dial, sealOk);
      case LocalAct(Consumer, op) => SentLocally(c.cons, op);
      case LocalAct(Provider, op) =>
        SentLocally(c.prov, op);
        ProviderActs(c.prov, op);
      case Deliver(Consumer, env) =>
        SentByReceive(c.cons, c.toCons[0], env);
      case Deliver(Provider, env) =>
        SentByReceive(c.prov, c.toProv[0], env);
        ProviderReceives(c.prov, c.toProv[0], env);
        ClosesByReceive(c.prov, c.toProv[0], env);
    }
  }

  // --- the bytes ----------------------------------------------------------------------------

  ghost predicate DirsOk(c: Chan) {
    DirOk(c.prov, c.toProv, c.cons, c.clean) && DirOk(c.cons, c.toCons, c.prov, c.clean)
  }

  lemma ReceiveEffect(e: End, f: Frame, env: Env)
    requires f.Open? ==> e == Absent(0)
    ensures var o := Receive(e, f, env);
      && Sends(e, o.end, o.frames)
      && GotOf(o.end) == (if Live(e) && f.Data? && env.keyKnown then GotOf(e) + [f.payload] else GotOf(e))
      && (Live(o.end) ==> Live(e) || f.Open?)
  {
    FirstChunks(env.caps);
    hide Chunks, Fresh;
    FreshEffect(e, f, env);
  }

  lemma FreshEffect(e: End, f: Frame, env: Env)
    requires f.Open? ==> e == Absent(0)
    ensures var o := Fresh(e, f, env);
      Sends(e, o.end, o.frames) && GotOf(o.end) == GotOf(e) && (Live(o.end) ==> Live(e) || f.Open?)
  {
    FirstChunks(env.caps);
    hide Chunks;
    var none: seq<Frame> := [];
    assert none + [Close] == [Close];
  }

  lemma LocalEffect(e: End, op: LocalOp)
    requires Allowed(e, op)
    ensures var o := Local(e, op);
      && GotOf(o.end) == GotOf(e) && (Live(o.end) ==> Live(e))
      && (if op.Send? && !op.sealOk
          then ReadOf(o.end) == ReadOf(e) && PendingOf(o.end) == [] && Chunks(o.frames) == []
          else Sends(e, o.end, o.frames))
  {
    FirstChunks(if op.Send? then e.ch.pump.pending.value else []);
  }

  /** The receiver's end changed without taking a frame. */
  lemma DirKept(rcv: End, flight: seq<Frame>, snd: End, rcv': End, clean: bool, clean': bool)
    requires DirOk(rcv, flight, snd, clean) && GotOf(rcv') == GotOf(rcv) && (clean' ==> clean)
    requires Live(rcv') ==> Live(rcv)
    ensures DirOk(rcv', flight, snd, clean')
  {
    hide Sub, Chunks;
  }

  /** The sender's side of a direction, whether or not sealing failed. */
  lemma DirLocal(rcv: End, flight: seq<Frame>, snd: End, op: LocalOp, clean: bool)
    requires DirOk(rcv, flight, snd, clean) && Allowed(snd, op)
    ensures DirOk(rcv, flight + Local(snd, op).frames, Local(snd, op).end, clean && !KeyFailure(op))
  {
    hide Local, Sub, Chunks, Line, DirOk, Allowed;
    LocalEffect(snd, op);
    SentLocally(snd, op);
    var o := Local(snd, op);
    DirWeaken(rcv, flight, snd, clean, clean && !KeyFailure(op));
    if op.Send? && !op.sealOk {
      DirDiscard(rcv, flight, snd, o.end, o.frames);
    } else {
      DirSend(rcv, flight, snd, o.end, o.frames, clean && !KeyFailure(op));
    }
  }

  lemma DirWeaken(rcv: End, flight: seq<Frame>, snd: End, clean: bool, clean': bool)
    requires DirOk(rcv, flight, snd, clean) && (clean' ==> clean)
    ensures DirOk(rcv, flight, snd, clean')
  {}

  /** Handling a frame, on the direction it came by. */
  lemma DirReceive(rcv: End, flight: seq<Frame>, snd: End, env: Env, clean: bool)
    requires DirOk(rcv, flight, snd, clean) && flight != [] && (flight[0].Open? ==> rcv == Absent(0))
    requires forall i :: 0 < i < |flight| ==> !flight[i].Open?
    ensures DirOk(Receive(rcv, flight[0], env).end, flight[1..], snd, clean && !EnvFailure(env))
  {
    hide Receive, Sub, Chunks, Line, DirOk;
    var f := flight[0];
    ReceiveEffect(rcv, f, env);
    var rcv' := Receive(rcv, f, env).end;
    if Live(rcv) && f.Data? && env.keyKnown {
      DirTook(rcv, flight, snd, rcv', clean);
      DirWeaken(rcv', flight[1..], snd, clean, clean && !EnvFailure(env));
    } else {
      assert Taking(rcv', flight[1..]) ==> Taking(rcv, flight);
      DirPassed(rcv, flight, snd, rcv', clean, clean && !EnvFailure(env));
    }
  }

  /** Handling a frame, on the direction of the answer. */
  lemma DirAnswer(rcv: End, flight: seq<Frame>, snd: End, f: Frame, env: Env, clean: bool)
    requires DirOk(rcv, flight, snd, clean) && (f.Open? ==> snd == Absent(0))
    ensures DirOk(rcv, flight + Receive(snd, f, env).frames, Receive(snd, f, env).end, clean && !EnvFailure(env))
  {
    hide Receive, Sub, Chunks, Line, DirOk;
    ReceiveEffect(snd, f, env);
    SentByReceive(snd, f, env);
    var o := Receive(snd, f, env);
    DirWeaken(rcv, flight, snd, clean, clean && !EnvFailure(env));
    DirSend(rcv, flight, snd, o.end, o.frames, clean && !EnvFailure(env));
  }

  lemma DirsStep(c: Chan, a: Act)
    requires ShapeOk(c) && DirsOk(c) && Enabled(c, a)
    ensures DirsOk(Step(c, a))
  {
    hide Receive, Local, OpenEnd, Sub, Chunks, Line, DirOk;
    var c' := Step(c, a);
    match a
    case OpenAct(service, dial, sealOk) => OpenDirs(c, service, dial, sealOk);
    case LocalAct(Consumer, op) =>
      LocalEffect(c.cons, op);
      DirLocal(c.prov, c.toProv, c.cons, op, c.clean);
      DirKept(c.cons, c.toCons, c.prov, c'.cons, c.clean, c'.clean);
    case LocalAct(Provider, op) =>
      LocalEffect(c.prov, op);
      DirLocal(c.cons, c.toCons, c.prov, op, c.clean);
      DirKept(c.prov, c.toProv, c.cons, c'.prov, c.clean, c'.clean);
    case Deliver(Consumer, env) =>
      DirReceive(c.cons, c.toCons, c.prov, env, c.clean);
      DirAnswer(c.prov, c.toProv, c.cons, c.toCons[0], env, c.clean);
    case Deliver(Provider, env) =>
      DirReceive(c.prov, c.toProv, c.cons, env, c.clean);
      DirAnswer(c.cons, c.toCons, c.prov, c.toProv[0], env, c.clean);
    case Lose(Consumer, i) =>
      DirLose(c.cons, c.toCons, c.prov, i, c.clean);
      DirWeaken(c.prov, c.toProv, c.cons, c.clean, false);
    case Lose(Provider, i) =>
      DirLose(c.prov, c.toProv, c.cons, i, c.clean);
      DirWeaken(c.cons, c.toCons, c.prov, c.clean, false);
    case Refuse(Provider, i, j) =>
      DirLose(c.prov, c.toProv, c.cons, i, c.clean);
      DirInsert(c.cons, c.toCons, c.prov, j, c.clean);
    case Refuse(Consumer, i, j) =>
      DirLose(c.cons, c.toCons, c.prov, i, c.clean);
      DirInsert(c.prov, c.toProv, c.cons, j, c.clean);
  }

  lemma OpenDirs(c: Chan, service: Service, dial: string, sealOk: bool)
    requires ShapeOk(c) && DirsOk(c) && !c.begun
    ensures var o := OpenEnd(c.cons, service, dial, sealOk);
      && DirOk(c.prov, c.toProv + o.frames, o.end, c.clean && sealOk)
      && DirOk(o.end, c.toCons, c.prov, c.clean && sealOk)
  {
    OpenedShape(c.cons, service, dial, sealOk);
    FirstChunks([]);
    assert [] + OpenEnd(c.cons, service, dial, sealOk).frames == OpenEnd(c.cons, service, dial, sealOk).frames;
  }

  /** An end that has the channel has sent no close for it, whatever happened. */
  predicate Unclosed(e: End) {
    Live(e) ==> e.closes == 0
  }

  predicate UnclosedOk(c: Chan) {
    Unclosed(c.cons) && Unclosed(c.prov)
  }

  /** How many closes an end has sent after a frame: the first may have many reasons, another one
      only a relay frame for a channel it does not have, from a peer whose key it does not know. */
  lemma ClosesAfterReceive(e: End, f: Frame, env: Env)
    requires Unclosed(e) && (f.Open? ==> e == Absent(0))
    ensures Unclosed(Receive(e, f, env).end)
    ensures var n := Receive(e, f, env).end.closes;
      if e.closes >= 1 then n == e.closes + if IsRelay(f) && !env.keyKnown then 1 else 0 else n <= 1
  {}

  lemma ClosesAfterLocal(e: End, op: LocalOp)
    requires Unclosed(e) && Allowed(e, op)
    ensures Unclosed(Local(e, op).end)
    ensures var n := Local(e, op).end.closes; if e.closes >= 1 then n == e.closes else n <= 1
  {}

  /** The move makes an end send another close for a channel it has already closed. */
  ghost predicate ClosesAgain(c: Chan, a: Act, r: Role) {
    a.Deliver? && a.role == r && !a.env.keyKnown &&
    if r.Consumer? then c.toCons != [] && IsRelay(c.toCons[0]) && c.cons.closes >= 1
    else c.toProv != [] && IsRelay(c.toProv[0]) && c.prov.closes >= 1
  }

  predicate NextCount(before: nat, after: nat, again: bool) {
    if before >= 1 then after == before + (if again then 1 else 0) else after <= 1
  }

  lemma ClosesCount(c: Chan, a: Act)
    requires ShapeOk(c) && UnclosedOk(c) && Enabled(c, a)
    ensures UnclosedOk(Step(c, a))
    ensures NextCount(c.cons.closes, Step(c, a).cons.closes, ClosesAgain(c, a, Consumer))
    ensures NextCount(c.prov.closes, Step(c, a).prov.closes, ClosesAgain(c, a, Provider))
  {
    hide Chunks, Receive, Local, OpenEnd;
    match a
    case OpenAct(service, dial, sealOk) => OpenedShape(c.cons, service, dial, sealOk);
    case LocalAct(Consumer, op) => ClosesAfterLocal(c.cons, op);
    case LocalAct(Provider, op) => ClosesAfterLocal(c.prov, op);
    case Deliver(Consumer, env) => ClosesAfterReceive(c.cons, c.toCons[0], env);
    case Deliver(Provider, env) => ClosesAfterReceive(c.prov, c.toProv[0], env);
    case _ =>
  }

  /** How many closes there are among the frames. */
  function CloseCount(fs: seq<Frame>): nat {
    if fs == [] then 0 else (if fs[0].Close? then 1 else 0) + CloseCount(fs[1..])
  }

  function EndOf(c: Chan, r: Role): End {
    if r.Consumer? then c.cons else c.prov
  }

  /** What is on its way from an end to the other. */
  function From(c: Chan, r: Role): seq<Frame> {
    if r.Consumer? then c.toProv else c.toCons
  }

  /** The frames an end sends in a step. */
  function SentIn(c: Chan, a: Act, r: Role): seq<Frame>
    requires Enabled(c, a)
  {
    match a
    case OpenAct(service, dial, sealOk) => if r.Consumer? then OpenEnd(c.cons, service, dial, sealOk).frames else []
    case LocalAct(role, op) => if role == r then Local(EndOf(c, r), op).frames else []
    case Deliver(role, env) =>
      if role == r then Receive(EndOf(c, r), if r.Consumer? then c.toCons[0] else c.toProv[0], env).frames else []
    case _ => []
  }

  predicate EndsWith(xs: seq<Frame>, ys: seq<Frame>) {
    |ys| <= |xs| && xs[|xs| - |ys|..] == ys
  }

  /** In every step each end puts what it sends last on the way, and its count of closes grows by the
      close frames among that. */
  lemma ClosesAreSent(c: Chan, a: Act, r: Role)
    requires Enabled(c, a)
    ensures EndsWith(From(Step(c, a), r), SentIn(c, a, r))
    ensures EndOf(Step(c, a), r).closes == EndOf(c, r).closes + CloseCount(SentIn(c, a, r))
  {
    hide Receive, Local, CloseCount, OpenEnd;
    assert CloseCount([]) == 0 by { NoCloses(); }
    match a
    case OpenAct(service, dial, sealOk) => OpenCloses(c.cons, service, dial, sealOk);
    case LocalAct(role, op) => LocalCloses(EndOf(c, role), op);
    case Deliver(Consumer, env) => ReceiveCloses(c.cons, c.toCons[0], env);
    case Deliver(Provider, env) => ReceiveCloses(c.prov, c.toProv[0], env);
    case _ =>
  }

  lemma NoCloses()
    ensures CloseCount([]) == 0 && CloseCount([Close]) == 1
  {}

  lemma OpenCloses(e: End, service: Service, dial: string, sealOk: bool)
    ensures CloseCount(OpenEnd(e, service, dial, sealOk).frames) == 0
    ensures OpenEnd(e, service, dial, sealOk).end.closes == e.closes
  {
    assert [Open(service, dial)][1..] == [];
  }

  lemma ReceiveCloses(e: End, f: Frame, env: Env)
    ensures Receive(e, f, env).end.closes == e.closes + CloseCount(Receive(e, f, env).frames)
  {
    NoCloses();
    assert CloseCount([Data(env.caps)] + [Close]) == 1 by {
      assert ([Data(env.caps)] + [Close])[1..] == [Close];
    }
    var none: seq<Frame> := [];
    assert none + [Close] == [Close];
    hide CloseCount;
  }

  lemma LocalCloses(e: End, op: LocalOp)
    requires Allowed(e, op)
    ensures Local(e, op).end.closes == e.closes + CloseCount(Local(e, op).frames)
  {
    NoCloses();
    if op.Send? {
      assert [Data(e.ch.pump.pending.value)][1..] == [];
    }
  }

  /** The channel is gone and its connection is open: closing the channel was what closes it. */
  predicate Orphaned(e: End) {
    e.Present? && !e.live && e.ch.connOpen
  }

  /** An end keeps its kind and its role. Once a connection is attached nothing more is buffered and
      what was stays, and it is orphaned for good or never. */
  ghost predicate Settling(e: End, e': End) {
    && (e.Present? ==> e'.Present? && e'.ch.kind == e.ch.kind && e'.ch.provider == e.ch.provider)
    && (e.Present? && e.ch.attached ==>
          e'.ch.attached && e'.ch.buf == e.ch.buf && (Orphaned(e') <==> Orphaned(e)))
  }

  lemma SettlingReceive(e: End, f: Frame, env: Env)
    requires f.Open? ==> e == Absent(0)
    ensures EndOk(e) ==> Settling(e, Receive(e, f, env).end)
  {
    hide Flat;
  }

  lemma SettlingLocal(e: End, op: LocalOp)
    requires Allowed(e, op)
    ensures Settling(e, Local(e, op).end)
  {}

  lemma BuffersStay(c: Chan, a: Act)
    requires ShapeOk(c) && EndOk(c.cons) && EndOk(c.prov) && Enabled(c, a)
    ensures Settling(c.cons, Step(c, a).cons) && Settling(c.prov, Step(c, a).prov)
  {
    hide Chunks, Receive, Local, OpenEnd, EndOk;
    match a
    case LocalAct(Consumer, op) => SettlingLocal(c.cons, op);
    case LocalAct(Provider, op) => SettlingLocal(c.prov, op);
    case Deliver(Consumer, env) => SettlingReceive(c.cons, c.toCons[0], env);
    case Deliver(Provider, env) => SettlingReceive(c.prov, c.toProv[0], env);
    case _ =>
  }

  // --- what was asked for ------------------------------------------------------------------------

  predicate AllAsked(fs: seq<Frame>, service: Service, dial: string) {
    forall i :: 0 <= i < |fs| && fs[i].Open? ==> fs[i] == Open(service, dial)
  }

  lemma AllAskedKept(fs: seq<Frame>, service: Service, dial: string)
    requires AllAsked(fs, service, dial)
    ensures fs != [] ==> AllAsked(fs[1..], service, dial) && (fs[0].Open? ==> fs[0] == Open(service, dial))
    ensures forall i :: 0 <= i < |fs| ==> AllAsked(Remove(fs, i), service, dial)
    ensures forall j :: 0 <= j <= |fs| ==> AllAsked(Insert(fs, j, Refused), service, dial)
  {}

  lemma AllAskedMore(fs: seq<Frame>, gs: seq<Frame>, service: Service, dial: string)
    requires AllAsked(fs, service, dial) && forall i :: 0 <= i < |gs| ==> !gs[i].Open?
    ensures AllAsked(fs + gs, service, dial)
  {}

  /** The channel was opened for this service at this address: every opening frame says so, and the
      provider's end is a probe's or a dialed link. */
  ghost predicate AskedFor(c: Chan, service: Service, dial: string) {
    && c.begun && c.cons.Present?
    && AllAsked(c.toProv, service, dial)
    && (c.prov.Present? ==> c.prov.ch.provider && c.prov.ch.kind == if service.CapsService? then Caps else Link)
  }

  lemma NoOpensReceive(e: End, f: Frame, env: Env)
    ensures forall i :: 0 <= i < |Receive(e, f, env).frames| ==> !Receive(e, f, env).frames[i].Open?
  {}

  lemma NoOpensLocal(e: End, op: LocalOp)
    requires Allowed(e, op)
    ensures forall i :: 0 <= i < |Local(e, op).frames| ==> !Local(e, op).frames[i].Open?
  {}

  /** What the provider's end is made for. */
  lemma ServedKind(e: End, f: Frame, env: Env, service: Service, dial: string)
    requires f.Open? ==> f == Open(service, dial) && e == Absent(0)
    requires e.Present? ==> e.ch.provider && e.ch.kind == if service.CapsService? then Caps else Link
    ensures var e' := Receive(e, f, env).end;
      e'.Present? ==> e'.ch.provider && e'.ch.kind == if service.CapsService? then Caps else Link
  {}

  lemma AskedStep(c: Chan, a: Act, service: Service, dial: string)
    requires ShapeOk(c) && EndOk(c.cons) && EndOk(c.prov) && Enabled(c, a) && AskedFor(c, service, dial)
    ensures AskedFor(Step(c, a), service, dial)
  {
    hide Chunks, Receive, Local, OpenEnd, EndOk, AllAsked, Remove, Insert;
    BuffersStay(c, a);
    AllAskedKept(c.toProv, service, dial);
    match a
    case LocalAct(Consumer, op) =>
      NoOpensLocal(c.cons, op);
      AllAskedMore(c.toProv, Local(c.cons, op).frames, service, dial);
    case LocalAct(Provider, op) =>
    case Deliver(Consumer, env) =>
      NoOpensReceive(c.cons, c.toCons[0], env);
      AllAskedMore(c.toProv, Receive(c.cons, c.toCons[0], env).frames, service, dial);
    case Deliver(Provider, env) => ServedKind(c.prov, c.toProv[0], env, service, dial);
    case _ =>
  }

  lemma AskedStart(c: Chan, service: Service, dial: string, sealOk: bool)
    requires ShapeOk(c) && Enabled(c, OpenAct(service, dial, sealOk))
    ensures AskedFor(Step(c, OpenAct(service, dial, sealOk)), service, dial)
  {
    hide Chunks;
  }

  // --- what each kind of channel carries -------------------------------------------------------

  /** The provider of a caps channel never has it open, and sends at most one chunk: what it
      reports. */
  ghost predicate CapsOk(c: Chan) {
    c.cons.Present? && c.cons.ch.kind.Caps? ==>
      && (Opening(c) ==> c.toProv[0].service.CapsService?)
      && (c.prov.Present? ==> OneReport(c.prov))
      && (c.clean && c.prov.closes > 0 ==> |ReadOf(c.prov)| == 1)
  }

  predicate OneReport(e: End)
    requires e.Present?
  {
    e.ch.kind.Caps? && !e.live && |e.ch.read| <= 1 && e.ch.pump.Idle?
  }

  lemma ReporterIdle(e: End, op: LocalOp)
    requires e.Present? && e.ch.provider && OneReport(e) && EndOk(e)
    ensures !Allowed(e, op)
  {}

  lemma ReportReceive(e: End, f: Frame, env: Env)
    requires if f.Open? then e == Absent(0) && f.service.CapsService? else e.Present? ==> OneReport(e)
    ensures var e' := Receive(e, f, env).end;
      && (e'.Present? ==> OneReport(e'))
      && (!EnvFailure(env) && (e.closes > 0 ==> |ReadOf(e)| == 1) && e'.closes > 0 ==> |ReadOf(e')| == 1)
  {}

  lemma KindKept(e: End, op: LocalOp)
    requires Allowed(e, op)
    ensures Local(e, op).end.Present? && Local(e, op).end.ch.kind == e.ch.kind
  {}

  lemma KindReceived(e: End, f: Frame, env: Env)
    requires e.Present? && !f.Open?
    ensures Receive(e, f, env).end.Present? && Receive(e, f, env).end.ch.kind == e.ch.kind
  {}

  lemma CapsStep(c: Chan, a: Act)
    requires ShapeOk(c) && CapsOk(c) && EndOk(c.prov) && Enabled(c, a)
    ensures CapsOk(Step(c, a))
  {
    hide Chunks, Receive, Local, OneReport, EndOk;
    match a
    case OpenAct(service, dial, sealOk) => OpenedCaps(c.cons, service, dial, sealOk);
    case LocalAct(Consumer, op) =>
      KindKept(c.cons, op);
      SentLocally(c.cons, op);
    case LocalAct(Provider, op) =>
      if c.cons.Present? && c.cons.ch.kind.Caps? { ReporterIdle(c.prov, op); }
    case Deliver(Consumer, env) =>
      if c.begun { KindReceived(c.cons, c.toCons[0], env); }
      SentByReceive(c.cons, c.toCons[0], env);
    case Deliver(Provider, env) =>
      if c.cons.Present? && c.cons.ch.kind.Caps? { ReportReceive(c.prov, c.toProv[0], env); }
    case _ =>
  }

  lemma OpenedCaps(e: End, service: Service, dial: string, sealOk: bool)
    ensures var o := OpenEnd(e, service, dial, sealOk);
      && o.end.Present? && (o.end.ch.kind.Caps? <==> service.CapsService?)
      && (o.frames == if sealOk then [Open(service, dial)] else [])
  {}

  /** In a clean run the consumer of a link or a forward keeps the channel until it handles the
      provider's close, and by then it has taken every chunk the provider read. */
  ghost predicate StaysOk(c: Chan) {
    c.clean && c.begun && c.cons.Present? && !c.cons.ch.kind.Caps? ==>
      Live(c.cons) || (c.prov.closes == 1 && c.toCons == [] && GotOf(c.cons) == ReadOf(c.prov))
  }

  lemma StaysLocally(e: End, op: LocalOp)
    requires Allowed(e, op) && !e.ch.provider && !e.ch.kind.Caps? && !KeyFailure(op)
    ensures Live(Local(e, op).end) == Live(e)
  {}

  lemma StaysReceiving(e: End, f: Frame, env: Env)
    requires Live(e) && !f.Close? && !f.Refused?
    ensures Live(Receive(e, f, env).end)
  {}

  /** A provider that has closed reads nothing more. */
  lemma ClosedActs(e: End, op: LocalOp)
    requires Allowed(e, op) && OneClose(e) && e.closes == 1 && Settled(e)
    ensures ReadOf(Local(e, op).end) == ReadOf(e)
  {}

  lemma ClosedReceives(e: End, f: Frame, env: Env)
    requires !f.Open? && env.keyKnown && OneClose(e) && e.closes == 1
    ensures var o := Receive(e, f, env); ReadOf(o.end) == ReadOf(e) && o.end.closes == 1 && o.frames == []
  {}

  /** The close the provider sent is next: nothing follows it, and nothing is left to send. */
  lemma CloseNext(c: Chan)
    requires CloseLast(c) && ClosesOk(c) && DirsOk(c) && c.clean && Live(c.cons) && c.toCons != [] && c.toCons[0].Close?
    ensures c.toCons == [Close] && c.prov.closes == 1 && GotOf(c.cons) == ReadOf(c.prov)
  {
    hide Sub, Chunks;
    FirstChunks([]);
    assert c.toCons == [Close];
    assert GotOf(c.cons) + [] + [] == GotOf(c.cons);
  }

  lemma StaysStep(c: Chan, a: Act)
    requires ShapeOk(c) && ClosesOk(c) && CloseLast(c) && DirsOk(c) && StaysOk(c) && Enabled(c, a)
    ensures StaysOk(Step(c, a))
  {
    hide Chunks, Receive, Local, OpenEnd, DirsOk, Settled;
    var c' := Step(c, a);
    if c'.clean && c.begun {
      match a
      case LocalAct(Consumer, op) =>
        KindKept(c.cons, op);
        LocalEffect(c.cons, op);
        if !c.cons.ch.kind.Caps? { StaysLocally(c.cons, op); }
      case LocalAct(Provider, op) =>
        if !Live(c.cons) && c.prov.closes == 1 {
          ProviderActs(c.prov, op);
          ClosedActs(c.prov, op);
        }
      case Deliver(Consumer, env) => StaysDelivered(c, env);
      case Deliver(Provider, env) =>
        if !Live(c.cons) && c.prov.closes == 1 {
          ClosedReceives(c.prov, c.toProv[0], env);
        }
    } else if c'.clean {
      OpenedLive(c.cons, a.service, a.dial);
    }
  }

  lemma OpenedLive(e: End, service: Service, dial: string)
    ensures Live(OpenEnd(e, service, dial, true).end)
  {}

  lemma StaysDelivered(c: Chan, env: Env)
    requires ShapeOk(c) && ClosesOk(c) && CloseLast(c) && DirsOk(c) && StaysOk(c) && c.begun && c.toCons != []
    requires c.clean && !EnvFailure(env)
    ensures StaysOk(Step(c, Deliver(Consumer, env)))
  {
    hide Chunks, Receive, DirsOk, Settled;
    var f := c.toCons[0];
    KindReceived(c.cons, f, env);
    ReceiveEffect(c.cons, f, env);
    if Live(c.cons) && f.Close? {
      CloseNext(c);
    } else if Live(c.cons) {
      StaysReceiving(c.cons, f, env);
    }
  }

  ghost predicate Inv(c: Chan) {
    && ShapeOk(c) && ClosesOk(c) && CloseLast(c) && DirsOk(c) && EndOk(c.cons) && EndOk(c.prov)
    && CapsOk(c) && StaysOk(c) && UnclosedOk(c)
  }

  lemma InvStart()
    ensures Inv(START)
  {}

  lemma EndsStep(c: Chan, a: Act)
    requires EndOk(c.cons) && EndOk(c.prov) && Enabled(c, a)
    ensures EndOk(Step(c, a).cons) && EndOk(Step(c, a).prov)
  {
    hide Receive, Local, EndOk;
    match a
    case OpenAct(service, dial, sealOk) => OpenedOk(c.cons, service, dial, sealOk);
    case LocalAct(Consumer, op) => LocalOk(c.cons, op);
    case LocalAct(Provider, op) => LocalOk(c.prov, op);
    case Deliver(Consumer, env) => ReceiveOk(c.cons, c.toCons[0], env);
    case Deliver(Provider, env) => ReceiveOk(c.prov, c.toProv[0], env);
    case _ =>
  }

  lemma OpenedOk(e: End, service: Service, dial: string, sealOk: bool)
    ensures EndOk(OpenEnd(e, service, dial, sealOk).end)
  {}

  lemma InvStep(c: Chan, a: Act)
    requires Inv(c) && Enabled(c, a)
    ensures Inv(Step(c, a))
  {
    hide Step, Enabled, ShapeOk, ClosesOk, CloseLast, DirsOk, EndOk, CapsOk, StaysOk, UnclosedOk;
    ShapeStep(c, a);
    ClosesStep(c, a);
    CloseLastStep(c, a);
    DirsStep(c, a);
    EndsStep(c, a);
    CapsStep(c, a);
    StaysStep(c, a);
    ClosesCount(c, a);
  }

  // --- what follows for a channel in any reachable state ----------------------------------------

  /** The bytes an end has taken from its peer, in the order they came. */
  function Held(e: End): Bytes {
    if e.Present? then e.ch.buf + e.ch.written else []
  }

  lemma HeldIsGot(e: End)
    requires EndOk(e)
    ensures Held(e) == Flat(GotOf(e))
  {
    if e.Present? && !e.ch.attached {
      assert e.ch.buf + [] == e.ch.buf;
    }
  }

  lemma FlatPrefix(xs: seq<Bytes>, ys: seq<Bytes>)
    requires xs <= ys
    ensures Flat(xs) <= Flat(ys)
  {
    assert ys == xs + ys[|xs|..];
    FlatAppend(xs, ys[|xs|..]);
  }

  /** One direction of a byte stream. Whatever is lost, the chunks taken and in flight are chunks
      the sender read, in order. When nothing is lost, the bytes taken are a prefix of the bytes
      read, and while the receiver has the channel open nothing at all is missing. */
  ghost predicate Streams(rcv: End, flight: seq<Frame>, snd: End, clean: bool) {
    && Sub(GotOf(rcv) + Chunks(flight), ReadOf(snd))
    && Held(rcv) == Flat(GotOf(rcv))
    && (clean ==> Held(rcv) <= Flat(ReadOf(snd)))
    && (clean && Live(rcv) ==> Held(rcv) + Flat(Chunks(flight)) + Flat(PendingOf(snd)) == Flat(ReadOf(snd)))
  }

  lemma DirStreams(rcv: End, flight: seq<Frame>, snd: End, clean: bool)
    requires DirOk(rcv, flight, snd, clean) && EndOk(rcv)
    ensures Streams(rcv, flight, snd, clean)
  {
    hide Sub, Chunks, Flat, EndOk, Held;
    HeldIsGot(rcv);
    SubPrefix(GotOf(rcv) + Chunks(flight), PendingOf(snd), ReadOf(snd));
    if clean {
      FlatPrefix(GotOf(rcv), ReadOf(snd));
      FlatAppend(GotOf(rcv) + Chunks(flight), PendingOf(snd));
      FlatAppend(GotOf(rcv), Chunks(flight));
    }
  }

  lemma BothStreams(c: Chan)
    requires Inv(c)
    ensures Streams(c.cons, c.toCons, c.prov, c.clean) && Streams(c.prov, c.toProv, c.cons, c.clean)
  {
    hide Streams, DirOk, EndOk, ShapeOk, ClosesOk, CloseLast, CapsOk, StaysOk;
    DirStreams(c.cons, c.toCons, c.prov, c.clean);
    DirStreams(c.prov, c.toProv, c.cons, c.clean);
  }

  /** A link hands its connection what it took as soon as there is a connection. */
  lemma LinkWritten(e: End)
    requires EndOk(e) && e.Present? && e.ch.kind.Link?
    ensures if e.ch.attached then e.ch.written == Held(e) && e.ch.buf == []
      else e.ch.buf == Held(e) && e.ch.written == []
  {
    assert e.ch.buf + [] == e.ch.buf && [] + e.ch.written == e.ch.written;
  }

  /** When the consumer of a link or forward no longer has the channel after a clean run, it has
      taken exactly what the provider read. */
  lemma CompleteDelivery(c: Chan)
    requires Inv(c) && c.clean && c.begun && !c.cons.ch.kind.Caps? && !Live(c.cons)
    ensures Held(c.cons) == Flat(ReadOf(c.prov)) && c.prov.closes == 1 && !Live(c.prov) && c.toCons == []
  {
    hide Flat, EndOk, ShapeOk, DirsOk, CapsOk;
    assert c.cons.Present? by { PresentConsumer(c); }
    HeldIsGot(c.cons);
  }

  lemma PresentConsumer(c: Chan)
    requires ShapeOk(c) && c.begun
    ensures c.cons.Present? && !c.cons.ch.provider
  {}

  /** What a caps probe finds when it decodes: nothing, or exactly what the provider reported. */
  lemma ProbeExact(c: Chan)
    requires Inv(c) && c.begun && c.cons.ch.kind.Caps?
    ensures c.cons.ch.buf == [] || ReadOf(c.prov) == [c.cons.ch.buf]
    ensures c.cons.ch.written == []
  {
    hide Chunks, ShapeOk, ClosesOk, CloseLast, StaysOk;
    PresentConsumer(c);
    DirStreams(c.cons, c.toCons, c.prov, c.clean);
    var g, r := GotOf(c.cons), ReadOf(c.prov);
    SubPrefix(g, Chunks(c.toCons), r);
    SubShort(g, r);
    if g != [] {
      FlatOne(g[0]);
      assert g == [g[0]];
    }
  }

  /** In a clean run a probe still waiting when the provider's close is next has the report. */
  lemma ProbeAnswered(c: Chan)
    requires Inv(c) && c.clean && c.begun && c.cons.ch.kind.Caps? && Live(c.cons)
    requires c.toCons != [] && c.toCons[0].Close?
    ensures ReadOf(c.prov) == [c.cons.ch.buf]
  {
    hide Chunks, ShapeOk, StaysOk;
    CloseNext(c);
    var r := ReadOf(c.prov);
    FlatOne(r[0]);
    assert r == [r[0]];
  }

  lemma SubShort<T>(xs: seq<T>, ys: seq<T>)
    requires Sub(xs, ys) && |ys| <= 1
    ensures xs == [] || xs == ys
  {
    if ys != [] && xs != [] {
      assert ys[..|ys| - 1] == [];
      assert xs == xs[..|xs| - 1] + [xs[|xs| - 1]];
    }
  }

  // --- life cycle --------------------------------------------------------------------------

  /** Absent, open, closed. */
  function Stage(e: End): nat {
    if Live(e) then 1 else if e.Present? || e.closes > 0 then 2 else 0
  }

  /** Neither end ever goes back, whatever happens. */
  lemma NeverReopens(c: Chan, a: Act)
    requires Inv(c) && Enabled(c, a)
    ensures Stage(c.cons) <= Stage(Step(c, a).cons) && Stage(c.prov) <= Stage(Step(c, a).prov)
  {
    hide Chunks, Receive, Local, OpenEnd, ClosesOk, CloseLast, DirsOk, EndOk, CapsOk, StaysOk;
    match a
    case OpenAct(service, dial, sealOk) => OpenedShape(c.cons, service, dial, sealOk);
    case LocalAct(Consumer, op) => StageLocal(c.cons, op);
    case LocalAct(Provider, op) => StageLocal(c.prov, op);
    case Deliver(Consumer, env) => StageReceive(c.cons, c.toCons[0], env);
    case Deliver(Provider, env) => StageReceive(c.prov, c.toProv[0], env);
    case _ =>
  }

  lemma StageLocal(e: End, op: LocalOp)
    requires Allowed(e, op)
    ensures Stage(e) <= Stage(Local(e, op).end)
  {}

  lemma StageReceive(e: End, f: Frame, env: Env)
    requires f.Open? ==> e == Absent(0)
    ensures Stage(e) <= Stage(Receive(e, f, env).end)
  {}

  /** With keys known, an end sends at most one close, and only on leaving the table or instead
      of entering it; a done channel is closed at most once whatever happens. */
  lemma OneCloseEach(c: Chan)
    requires Inv(c)
    ensures c.keyed ==> c.cons.closes <= 1 && c.prov.closes <= 1
    ensures Unclosed(c.cons) && Unclosed(c.prov)
    ensures c.cons.Present? ==> c.cons.ch.done <= 1 && (c.cons.ch.done == 1 <==> c.cons.ch.kind.Caps? && !c.cons.live)
    ensures c.prov.Present? ==> c.prov.ch.done <= 1
  {
    hide ShapeOk, CloseLast, DirsOk, CapsOk, StaysOk, ContentOk, PumpOk;
  }

  /** The service's end of input is followed by the close and nothing else. */
  lemma ServiceEof(c: Chan)
    requires Inv(c) && Enabled(c, LocalAct(Provider, Eof)) && Live(c.prov)
    ensures var c' := Step(c, LocalAct(Provider, Eof));
      && c'.toCons == c.toCons + [Close] && !Live(c'.prov) && c'.cons == c.cons && c'.toProv == c.toProv
      && ReadOf(c'.prov) == ReadOf(c.prov) && PendingOf(c'.prov) == PendingOf(c.prov) == []
  {
    hide ClosesOk, CloseLast, DirsOk, EndOk, CapsOk, StaysOk;
  }
}
