/** What becomes of a channel in every run, told from the step that opened it: the service it asked for
    and the address it named. */
module RelayAsked {
  import opened Basics
  import opened Endpoint
  import opened DaemonModel
  import opened DaemonPolicy
  import opened RelaySystem
  import opened RelayViews
  import opened RelayRuns
  import C = Channel

  /** Step k opened the channel, for this service at this address, and there is a state n after it. */
  ghost predicate OpenedFor(ss: seq<System>, acts: seq<Act>, k: nat, n: nat, cid: string,
                            service: Service, dial: string)
  {
    && Run(ss, acts) && k < n < |ss|
    && acts[k].OpenTo? && acts[k].cid == cid && acts[k].service == service && acts[k].dial == dial
  }

  lemma {:induction false} AskedKept(ss: seq<System>, acts: seq<Act>, k: nat, n: nat, cid: string,
                                     service: Service, dial: string)
    requires OpenedFor(ss, acts, k, n, cid, service, dial)
    ensures C.AskedFor(View(ss[n], cid), service, dial)
    decreases n
  {
    hide Enabled, Step, Routed, Start, C.Inv, View, C.AskedFor, ActOf, C.Step, C.Enabled;
    var m := n - 1;
    RunOk(ss, acts, m, cid);
    RefinedBy(ss[m], acts[m], cid);
    if m == k {
      OpensChannel(ss[m], acts[m]);
      ViewOk(View(ss[m], cid));
      C.AskedStart(View(ss[m], cid), service, dial, acts[k].sealOk);
    } else {
      AskedKept(ss, acts, k, m, cid, service, dial);
      ViewOk(View(ss[m], cid));
      AskedView(ss[m], acts[m], cid, service, dial);
    }
  }

  lemma AskedView(s: System, a: Act, cid: string, service: Service, dial: string)
    requires Routed(s) && Enabled(s, a) && C.Inv(View(s, cid)) && C.AskedFor(View(s, cid), service, dial)
    ensures C.AskedFor(View(Step(s, a), cid), service, dial)
  {
    hide Enabled, Step, Routed, C.Inv, View, C.AskedFor, ActOf, C.Step, C.Enabled;
    RefinedBy(s, a, cid);
    ViewOk(View(s, cid));
    match ActOf(s, a, cid)
    case Some(ca) => C.AskedStep(View(s, cid), ca, service, dial);
    case None =>
  }

  lemma ViewOk(c: C.Chan)
    requires C.Inv(c)
    ensures C.ShapeOk(c) && EndOk(c.cons) && EndOk(c.prov)
  {
    hide C.ShapeOk, EndOk;
  }

  lemma OpensChannel(s: System, a: Act)
    requires Enabled(s, a) && a.OpenTo?
    ensures ActOf(s, a, a.cid) == Some(C.OpenAct(a.service, a.dial, a.sealOk))
  {}

  lemma AskedEnds(c: C.Chan, service: Service, dial: string)
    requires C.AskedFor(c, service, dial)
    ensures c.cons.Present?
    ensures c.prov.Present? ==> c.prov.ch.provider && c.prov.ch.kind == if service.CapsService? then Caps else Link
  {}

  lemma Opened(s: System, a: Act)
    requires Enabled(s, a) && a.OpenTo? && EndIn(s, a.me, a.cid) == Absent(0)
    ensures var e := EndIn(Step(s, a), a.me, a.cid);
      e.Present? && KindAsked(e.ch.kind, a.service) && !e.ch.provider && (Live(e) <==> a.sealOk)
  {}

  /** From the step that opens a channel on, its opener has a link for docker, a forward for an address
      and a probe for capabilities; and the peer, once it has an end, a probe's end or a dialed link. */
  lemma KindsAsked(ss: seq<System>, acts: seq<Act>, k: nat, n: nat, cid: string, service: Service, dial: string)
    requires OpenedFor(ss, acts, k, n, cid, service, dial)
    ensures var e, e' := EndIn(ss[n], acts[k].me, cid), EndIn(ss[n], acts[k].peer, cid);
      && e.Present? && !e.ch.provider
      && (service.Docker? ==> e.ch.kind == Link) && (service.Tcp? ==> e.ch.kind == Fwd)
      && (service.CapsService? ==> e.ch.kind == Caps)
      && (e'.Present? ==> e'.ch.provider && (if service.CapsService? then e'.ch.kind == Caps else e'.ch.kind == Link))
  {
    hide Enabled, Step, Routed, Start, C.Inv, View, C.AskedFor, EndIn;
    var a := acts[k];
    RunOk(ss, acts, k, cid);
    EndOfView(ss[k], a.me, cid);
    NotYet(ss[k], a);
    Opened(ss[k], a);
    BufferKept(ss, acts, k + 1, n, a.me, cid);
    OpenedBy(ss, acts, k, n);
    RunOk(ss, acts, n, cid);
    EndOfView(ss[n], a.peer, cid);
    DistinctParties(ss[n], cid);
    AskedKept(ss, acts, k, n, cid, service, dial);
    AskedEnds(View(ss[n], cid), service, dial);
  }

  lemma NotYet(s: System, a: Act)
    requires Enabled(s, a) && a.OpenTo?
    ensures a.cid !in s.opens
  {}

  lemma DistinctParties(s: System, cid: string)
    requires Routed(s) && cid in s.opens
    ensures s.opens[cid].cons != s.opens[cid].prov
  {
    hide DaemonOk, InboxOk;
  }

  /** A channel opened for docker hands over at both ends every byte taken: once a connection is
      attached it has all of them, before that the buffer has. */
  lemma DockerHandsOver(ss: seq<System>, acts: seq<Act>, k: nat, n: nat, cid: string, dial: string, me: string)
    requires OpenedFor(ss, acts, k, n, cid, Docker, dial) && (me == acts[k].me || me == acts[k].peer)
    ensures var e := EndIn(ss[n], me, cid);
      e.Present? ==>
        if e.ch.attached then e.ch.written == Flat(e.ch.got) && e.ch.buf == []
        else e.ch.buf == Flat(e.ch.got) && e.ch.written == []
  {
    hide Enabled, Step, Routed, Start, C.Inv, View, C.AskedFor, EndIn, Flat, DoneOk, PumpOk;
    KindsAsked(ss, acts, k, n, cid, Docker, dial);
    EndOkIn(ss, acts, n, me, cid);
  }

  lemma EndOkIn(ss: seq<System>, acts: seq<Act>, n: nat, me: string, cid: string)
    requires Run(ss, acts) && n < |ss|
    ensures EndOk(EndIn(ss[n], me, cid))
  {
    hide Enabled, Step, Routed, Start, C.Inv, View, EndIn, ContentOk;
    RunOk(ss, acts, n, cid);
    EndOfView(ss[n], me, cid);
    EndsOk(View(ss[n], cid));
    AbsentOk();
  }

  lemma AbsentOk()
    ensures EndOk(Absent(0))
  {}

  /** A channel opened for an address hands over every byte at the peer's end; at the opener's end it
      does so, at every time after the connection was attached, exactly when nothing had been buffered
      as it was. */
  lemma TcpLosslessIff(ss: seq<System>, acts: seq<Act>, o: nat, k: nat, n: nat, cid: string, dial: string)
    requires OpenedFor(ss, acts, o, k, cid, Tcp, dial) && k < n < |ss| && acts[k] == LocalAt(acts[o].me, cid, Attach)
    ensures EndIn(ss[k], acts[o].me, cid).Present?
    ensures var e, e' := EndIn(ss[n], acts[o].me, cid), EndIn(ss[n], acts[o].peer, cid);
      && e.Present? && (e.ch.written == Flat(e.ch.got) <==> EndIn(ss[k], acts[o].me, cid).ch.buf == [])
      && (e'.Present? ==> e'.ch.written == Flat(e'.ch.got))
  {
    hide Enabled, Step, Routed, Start, C.Inv, View, C.AskedFor, EndIn, Flat, DoneOk;
    KindsAsked(ss, acts, o, k, cid, Tcp, dial);
    KindsAsked(ss, acts, o, n, cid, Tcp, dial);
    RelayRuns.ForwardLosslessIff(ss, acts, k, n, acts[o].me, cid);
    EndOkIn(ss, acts, n, acts[o].peer, cid);
  }

  // --- what is served ----------------------------------------------------------------------------------

  /** Machine `id` handles, as step n, a frame of the channel that names a service. */
  ghost predicate HandlesOpening(ss: seq<System>, acts: seq<Act>, n: nat, cid: string) {
    && Run(ss, acts) && n < |acts| && acts[n].Handle?
    && var q := ss[n].inbox[acts[n].me];
       q[0].channel == cid && q[0].Relayed? && !q[0].service.NoService?
  }

  /** A frame that names a service reaches only the peer the channel was opened to, from its opener, and
      names the service and the address it was opened for. */
  lemma AskedAsOpened(ss: seq<System>, acts: seq<Act>, k: nat, n: nat, cid: string, service: Service, dial: string)
    requires OpenedFor(ss, acts, k, n, cid, service, dial) && HandlesOpening(ss, acts, n, cid)
    ensures var m := ss[n].inbox[acts[n].me][0];
      && acts[n].me == acts[k].peer && m.from == acts[k].me && m.service == service && m.dial == dial
      && EndIn(ss[n], acts[n].me, cid) == Absent(0) && Authentic(acts[n].me, m)
  {
    hide Step, Start, C.Inv, View, EndIn;
    var a, id := acts[k], acts[n].me;
    var m := ss[n].inbox[id][0];
    RunOk(ss, acts, n, cid);
    OpenedBy(ss, acts, k, n);
    AskedKept(ss, acts, k, n, cid, service, dial);
    HeadOfView(ss[n], id, cid);
    ViewOk(View(ss[n], cid));
    assert FrameOf(m) == Open(m.service, m.dial);
    EndOfView(ss[n], id, cid);
    assert DeliveryOk(ss[n], id, m);
  }

  /** Whom a daemon serves: the peer has the channel open after the opening frame exactly when it knows
      the opener's key, serves docker or was asked for an address it may dial, and somebody answers
      there; and it sends back what its policy says and no more. */
  lemma ServedAsAsked(ss: seq<System>, acts: seq<Act>, k: nat, n: nat, cid: string, service: Service, dial: string)
    requires OpenedFor(ss, acts, k, n, cid, service, dial) && HandlesOpening(ss, acts, n, cid)
    ensures var env, me, peer := acts[n].env, acts[k].me, acts[k].peer;
      var no := RelayClose(me, cid);
      && peer in ss[n].daemons && peer in ss[n + 1].daemons
      && (Live(EndIn(ss[n + 1], peer, cid)) <==>
            && env.keyKnown && env.dialOk
            && ((service.Docker? && env.serveDocker) || (service.Tcp? && (env.serveDocker || dial != ""))))
      && ss[n + 1].daemons[peer].send == ss[n].daemons[peer].send +
           (if Live(EndIn(ss[n + 1], peer, cid)) then []
            else if env.keyKnown && service.Tcp? && !env.serveDocker && dial == "" then []
            else if env.keyKnown && service.CapsService? && env.sealOk then
              [Relay(me, cid, NoService, "", Sealed(peer, me, env.caps)), no]
            else [no])
  {
    hide Start, C.Inv, View, HandleMessage, Spoil;
    AskedAsOpened(ss, acts, k, n, cid, service, dial);
    var id := acts[n].me;
    var m := ss[n].inbox[id][0];
    RunOk(ss, acts, n, cid);
    FreshFrame(ss[n].daemons[id], m, acts[n].env);
  }
}
