/** What holds of every channel in every run of any number of daemons around one hub. */
module RelayRuns {
  import opened Basics
  import opened Endpoint
  import opened DaemonModel
  import opened RelaySystem
  import opened RelayViews
  import C = Channel

  ghost predicate Run(ss: seq<System>, acts: seq<Act>) {
    && |ss| == |acts| + 1 && Start(ss[0])
    && forall i :: 0 <= i < |acts| ==> Enabled(ss[i], acts[i]) && ss[i + 1] == Step(ss[i], acts[i])
  }

  lemma StartOk(s: System, cid: string)
    requires Start(s)
    ensures Routed(s) && C.Inv(View(s, cid))
  {
    hide C.Inv;
    C.InvStart();
  }

  lemma {:induction false} RunOk(ss: seq<System>, acts: seq<Act>, n: nat, cid: string)
    requires Run(ss, acts) && n < |ss|
    ensures Routed(ss[n]) && C.Inv(View(ss[n], cid))
  {
    hide Enabled, Step, Routed, View, Start, C.Inv, C.Step, C.Enabled;
    if n == 0 {
      StartOk(ss[0], cid);
    } else {
      RunOk(ss, acts, n - 1, cid);
      var s, a := ss[n - 1], acts[n - 1];
      RoutedStep(s, a);
      Refinement(s, a, cid);
      match ActOf(s, a, cid)
      case Some(ca) => C.InvStep(View(s, cid), ca);
      case None =>
    }
  }

  // --- which steps disturb a channel -------------------------------------------------------------

  /** A step that loses or refuses a message of the channel, or at which a key is missing or
      sealing fails. */
  predicate Disturbs(s: System, a: Act, cid: string)
    requires Enabled(s, a)
  {
    ChannelOf(s, a) == cid &&
    match a
    case Hub(_, verdict) => !verdict.Forward?
    case LoseAt(_, _) => true
    case _ => KeyMissing(s, a, cid)
  }

  predicate KeyMissing(s: System, a: Act, cid: string)
    requires Enabled(s, a)
  {
    ChannelOf(s, a) == cid &&
    match a
    case OpenTo(_, _, _, _, _, sealOk) => !sealOk
    case LocalAt(_, _, op) => C.KeyFailure(op)
    case Handle(_, env) => C.EnvFailure(env)
    case _ => false
  }

  ghost predicate Undisturbed(ss: seq<System>, acts: seq<Act>, n: nat, cid: string)
    requires Run(ss, acts) && n < |ss|
  {
    forall i :: 0 <= i < n ==> !Disturbs(ss[i], acts[i], cid)
  }

  ghost predicate KeysKnown(ss: seq<System>, acts: seq<Act>, n: nat, cid: string)
    requires Run(ss, acts) && n < |ss|
  {
    forall i :: 0 <= i < n ==> !KeyMissing(ss[i], acts[i], cid)
  }

  lemma FlagsStep(s: System, a: Act, cid: string)
    requires Routed(s) && Enabled(s, a)
    ensures cid in s.opens || ChannelOf(s, a) == cid <==> cid in Step(s, a).opens
    ensures var s' := Step(s, a);
      cid in s.opens ==> ((s'.opens[cid].clean <==> s.opens[cid].clean && !Disturbs(s, a, cid))
                       && (s'.opens[cid].keyed <==> s.opens[cid].keyed && !KeyMissing(s, a, cid)))
    ensures var s' := Step(s, a);
      cid !in s.opens && cid in s'.opens ==>
        s'.opens[cid].clean == s'.opens[cid].keyed == !KeyMissing(s, a, cid) == !Disturbs(s, a, cid)
  {
    hide DaemonOk, InboxOk, OpensOk, OpenChannel, LocalStep, HandleMessage, Allowed, C.KeyFailure, C.EnvFailure;
    if ChannelOf(s, a) != cid {
      Unspoiled(s, a, cid);
    } else if !a.OpenTo? {
      OfKnown(s, a);
    }
  }

  /** Only an opening is of a channel not drawn yet. */
  lemma OfKnown(s: System, a: Act)
    requires Routed(s) && Enabled(s, a) && !a.OpenTo?
    ensures ChannelOf(s, a) in s.opens
  {
    hide Allowed;
    match a
    case LocalAt(me, cid, _) => SideOf(s, s.daemons[me], cid);
    case Hub(me, _) => QueueShorter(s, s.daemons[me]);
    case Handle(me, _) => assert DeliveryOk(s, me, s.inbox[me][0]);
    case LoseAt(me, i) => assert DeliveryOk(s, me, s.inbox[me][i]);
  }

  /** The history flags say what they should. */
  lemma {:induction false} FlagsMean(ss: seq<System>, acts: seq<Act>, n: nat, cid: string)
    requires Run(ss, acts) && n < |ss|
    ensures cid in ss[n].opens ==>
      && (ss[n].opens[cid].clean <==> Undisturbed(ss, acts, n, cid))
      && (ss[n].opens[cid].keyed <==> KeysKnown(ss, acts, n, cid))
    ensures cid !in ss[n].opens ==> forall i :: 0 <= i < n ==> ChannelOf(ss[i], acts[i]) != cid
  {
    hide Enabled, Step, Routed, Start, C.Inv, ChannelOf;
    if n > 0 {
      FlagsMean(ss, acts, n - 1, cid);
      RunOk(ss, acts, n - 1, cid);
      FlagsStep(ss[n - 1], acts[n - 1], cid);
    } else {
      NothingOpen(ss[0]);
    }
  }

  lemma NothingOpen(s: System)
    requires Start(s)
    ensures s.opens == map[]
  {}

  // --- the theorems ------------------------------------------------------------------------------

  function ConsumerEnd(s: System, cid: string): End {
    if cid in s.opens then EndIn(s, s.opens[cid].cons, cid) else Absent(0)
  }

  function ProviderEnd(s: System, cid: string): End {
    if cid in s.opens then EndIn(s, s.opens[cid].prov, cid) else Absent(0)
  }

  lemma ViewParts(s: System, cid: string)
    ensures View(s, cid).cons == ConsumerEnd(s, cid) && View(s, cid).prov == ProviderEnd(s, cid)
    ensures View(s, cid).begun <==> cid in s.opens
    ensures cid in s.opens ==> var p := s.opens[cid];
      View(s, cid).toProv == Flight(s, p.cons, p.prov, cid) && View(s, cid).toCons == Flight(s, p.prov, p.cons, cid)
      && View(s, cid).clean == p.clean && View(s, cid).keyed == p.keyed
  {}

  /** Both directions of every channel carry their bytes in order: for every run a subsequence of
      the chunks read, for an undisturbed channel a prefix of the bytes with nothing missing while
      the receiver is open. */
  lemma BytesInOrder(ss: seq<System>, acts: seq<Act>, n: nat, cid: string)
    requires Run(ss, acts) && n < |ss| && cid in ss[n].opens
    ensures var s, p := ss[n], ss[n].opens[cid];
      && C.Streams(ConsumerEnd(s, cid), Flight(s, p.prov, p.cons, cid), ProviderEnd(s, cid),
                   Undisturbed(ss, acts, n, cid))
      && C.Streams(ProviderEnd(s, cid), Flight(s, p.cons, p.prov, cid), ConsumerEnd(s, cid),
                   Undisturbed(ss, acts, n, cid))
  {
    hide Run, View, C.Inv, C.Streams, Undisturbed, KeysKnown, Flight, ConsumerEnd, ProviderEnd, Routed;
    RunOk(ss, acts, n, cid);
    FlagsMean(ss, acts, n, cid);
    ViewParts(ss[n], cid);
    C.BothStreams(View(ss[n], cid));
  }

  /** An end of a link with a connection has handed it every byte it took, without one nothing. */
  lemma LinkHandsOver(ss: seq<System>, acts: seq<Act>, n: nat, cid: string)
    requires Run(ss, acts) && n < |ss|
    ensures forall e :: e == ConsumerEnd(ss[n], cid) || e == ProviderEnd(ss[n], cid) ==>
      e.Present? && e.ch.kind.Link? ==>
        if e.ch.attached then e.ch.written == C.Held(e) && e.ch.buf == []
        else e.ch.buf == C.Held(e) && e.ch.written == []
  {
    hide Run, View, ConsumerEnd, ProviderEnd, Routed, EndOk, C.ShapeOk, C.ClosesOk, C.CloseLast,
      C.DirsOk, C.CapsOk, C.StaysOk, C.Held;
    RunOk(ss, acts, n, cid);
    ViewParts(ss[n], cid);
    forall e | (e == ConsumerEnd(ss[n], cid) || e == ProviderEnd(ss[n], cid)) && e.Present? && e.ch.kind.Link?
      ensures if e.ch.attached then e.ch.written == C.Held(e) && e.ch.buf == []
        else e.ch.buf == C.Held(e) && e.ch.written == []
    {
      C.LinkWritten(e);
    }
  }

  /** When the consumer of an undisturbed link or forward no longer has the channel, it has taken
      exactly the bytes the provider read, and the provider has closed, once. */
  lemma DeliveredInFull(ss: seq<System>, acts: seq<Act>, n: nat, cid: string)
    requires Run(ss, acts) && n < |ss| && cid in ss[n].opens && Undisturbed(ss, acts, n, cid)
    requires ConsumerEnd(ss[n], cid).Present? ==>
      !Live(ConsumerEnd(ss[n], cid)) && !ConsumerEnd(ss[n], cid).ch.kind.Caps?
    ensures var e, e' := ConsumerEnd(ss[n], cid), ProviderEnd(ss[n], cid);
      C.Held(e) == Flat(ReadOf(e')) && e'.closes == 1 && !Live(e')
  {
    hide Run, View, ConsumerEnd, ProviderEnd, Routed, Undisturbed, KeysKnown, C.Held, C.ClosesOk,
      C.CloseLast, C.DirsOk, C.CapsOk, C.StaysOk, EndOk;
    RunOk(ss, acts, n, cid);
    FlagsMean(ss, acts, n, cid);
    ViewParts(ss[n], cid);
    C.PresentConsumer(View(ss[n], cid));
    C.CompleteDelivery(View(ss[n], cid));
  }

  /** What a caps probe can decode is nothing or exactly the provider's one report. */
  lemma ProbeExact(ss: seq<System>, acts: seq<Act>, n: nat, cid: string)
    requires Run(ss, acts) && n < |ss| && ConsumerEnd(ss[n], cid).Present? && ConsumerEnd(ss[n], cid).ch.kind.Caps?
    ensures var c := ConsumerEnd(ss[n], cid).ch;
      c.written == [] && (c.buf == [] || ReadOf(ProviderEnd(ss[n], cid)) == [c.buf])
  {
    hide Run, View, Routed, C.Inv;
    RunOk(ss, acts, n, cid);
    ViewParts(ss[n], cid);
    C.ProbeExact(View(ss[n], cid));
  }

  lemma SideByRole(s: System, me: string, cid: string)
    requires C.ShapeOk(View(s, cid)) && cid in s.opens && me in s.daemons && EndAt(s.daemons[me], cid).Present?
    requires me == s.opens[cid].cons || me == s.opens[cid].prov
    ensures me == if EndAt(s.daemons[me], cid).ch.provider then s.opens[cid].prov else s.opens[cid].cons
  {
    hide Flight, Chunks;
  }

  /** In an undisturbed probe, the close finds the report in the buffer. */
  lemma ProbeAnswered(ss: seq<System>, acts: seq<Act>, n: nat, me: string, cid: string)
    requires Run(ss, acts) && n < |ss| && Undisturbed(ss, acts, n, cid)
    requires me in ss[n].inbox && ss[n].inbox[me] != []
    requires ss[n].inbox[me][0].Closed? && ss[n].inbox[me][0].channel == cid
    requires me in ss[n].daemons && Live(EndAt(ss[n].daemons[me], cid))
    requires var c := EndAt(ss[n].daemons[me], cid).ch; !c.provider && c.kind.Caps?
    ensures ReadOf(ProviderEnd(ss[n], cid)) == [EndAt(ss[n].daemons[me], cid).ch.buf]
  {
    hide Run, C.ClosesOk, C.CloseLast, C.DirsOk, C.CapsOk, C.StaysOk, EndOk, Undisturbed, KeysKnown, Due, Sent, Chunks;
    RunOk(ss, acts, n, cid);
    FlagsMean(ss, acts, n, cid);
    var s, q := ss[n], ss[n].inbox[me];
    assert DeliveryOk(s, me, q[0]);
    SideByRole(s, me, cid);
    DueWithout(q, 0, cid);
    assert q[..0] == [];
    DueNone([], cid);
    C.ProbeAnswered(View(s, cid));
  }

  /** The machine handles a relay frame for a channel it has already closed, from a peer whose key
      it does not know. */
  ghost predicate Repeats(s: System, a: Act, me: string, cid: string)
    requires Enabled(s, a)
  {
    && a.Handle? && a.me == me && s.inbox[me][0].channel == cid && s.inbox[me][0].Relayed? && !a.env.keyKnown
    && EndIn(s, me, cid).closes >= 1
  }

  /** The first message in a machine's inbox is the first of its channel's flight to it. */
  lemma HeadOfView(s: System, me: string, cid: string)
    requires Routed(s) && me in s.inbox && s.inbox[me] != [] && s.inbox[me][0].channel == cid
    ensures cid in s.opens && s.opens[cid].cons != s.opens[cid].prov
    ensures me == s.opens[cid].cons || me == s.opens[cid].prov
    ensures me == s.opens[cid].cons ==> View(s, cid).toCons != [] && View(s, cid).toCons[0] == FrameOf(s.inbox[me][0])
    ensures me == s.opens[cid].prov ==> View(s, cid).toProv != [] && View(s, cid).toProv[0] == FrameOf(s.inbox[me][0])
  {
    hide Due, Sent, DaemonOk, EndIn;
    var q := s.inbox[me];
    assert DeliveryOk(s, me, q[0]);
    DueWithout(q, 0, cid);
    assert q[..0] == [];
    DueNone([], cid);
  }

  lemma RepeatsInView(s: System, a: Act, me: string, cid: string)
    requires Routed(s) && Enabled(s, a) && cid in s.opens && (me == s.opens[cid].cons || me == s.opens[cid].prov)
    ensures Repeats(s, a, me, cid) <==>
      match ActOf(s, a, cid)
      case Some(ca) => C.ClosesAgain(View(s, cid), ca, RoleOf(s, me, cid))
      case None => false
  {
    hide Due, Sent, InboxOk, DaemonOk, Allowed, View;
    EndOfView(s, me, cid);
    if a.Handle? && s.inbox[a.me][0].channel == cid {
      HeadOfView(s, a.me, cid);
      RelayedFrame(s.inbox[a.me][0]);
    }
  }

  lemma RelayedFrame(m: Delivery)
    ensures C.IsRelay(FrameOf(m)) <==> m.Relayed?
  {}

  lemma ClosesStep(s: System, a: Act, me: string, cid: string)
    requires Routed(s) && Enabled(s, a) && C.Inv(View(s, cid))
    ensures C.NextCount(EndIn(s, me, cid).closes, EndIn(Step(s, a), me, cid).closes, Repeats(s, a, me, cid))
  {
    hide Step, Enabled, Routed, C.Step, C.Enabled, View, C.ClosesAgain, Repeats, ActOf, Follows, EndIn,
      C.ShapeOk, C.ClosesOk, C.CloseLast, C.DirsOk, C.CapsOk, C.StaysOk, EndOk, C.UnclosedOk;
    EndOfView(s, me, cid);
    RoutedStep(s, a);
    EndOfView(Step(s, a), me, cid);
    OpensKept(s, a, cid);
    RefinedBy(s, a, cid);
    NoRepeatElsewhere(s, a, me, cid);
    match ActOf(s, a, cid)
    case Some(ca) =>
      C.ClosesCount(View(s, cid), ca);
      if cid in s.opens && (me == s.opens[cid].cons || me == s.opens[cid].prov) { RepeatsInView(s, a, me, cid); }
    case None =>
      if cid in s.opens && (me == s.opens[cid].cons || me == s.opens[cid].prov) { RepeatsInView(s, a, me, cid); }
  }

  lemma OpensKept(s: System, a: Act, cid: string)
    requires Routed(s) && Enabled(s, a)
    ensures cid in s.opens ==> cid in Step(s, a).opens && Step(s, a).opens[cid].cons == s.opens[cid].cons
    ensures cid in s.opens ==> cid in Step(s, a).opens && Step(s, a).opens[cid].prov == s.opens[cid].prov
    ensures cid in s.opens ==> s.opens[cid].cons != s.opens[cid].prov
  {
    hide Step, Enabled, DaemonOk, InboxOk;
    StepExtends(s, a);
  }

  lemma RefinedBy(s: System, a: Act, cid: string)
    requires Routed(s) && Enabled(s, a)
    ensures match ActOf(s, a, cid)
            case Some(ca) => C.Enabled(View(s, cid), ca) && View(Step(s, a), cid) == C.Step(View(s, cid), ca)
            case None => View(Step(s, a), cid) == View(s, cid)
  {
    hide Step, Enabled, Routed, C.Step, C.Enabled, View, ActOf;
    Refinement(s, a, cid);
  }

  lemma NoRepeatElsewhere(s: System, a: Act, me: string, cid: string)
    requires Routed(s) && Enabled(s, a)
    ensures Repeats(s, a, me, cid) ==> cid in s.opens && (me == s.opens[cid].cons || me == s.opens[cid].prov)
  {
    hide Allowed, DaemonOk, InboxOk;
    if Repeats(s, a, me, cid) { HeadOfView(s, me, cid); }
  }

  /** An end sends a second close exactly when, its peer's key unknown, it handles a relay frame for
      the channel it has closed. */
  lemma {:induction false} SecondCloseIff(ss: seq<System>, acts: seq<Act>, n: nat, me: string, cid: string)
    requires Run(ss, acts) && n < |ss|
    ensures EndIn(ss[n], me, cid).closes > 1 <==> exists i :: 0 <= i < n && Repeats(ss[i], acts[i], me, cid)
  {
    hide Enabled, Step, Routed, Start, C.Inv, EndIn, View, Repeats;
    if n == 0 {
      NothingAtStart(ss[0], me, cid);
    } else {
      SecondCloseIff(ss, acts, n - 1, me, cid);
      RunOk(ss, acts, n - 1, cid);
      ClosesStep(ss[n - 1], acts[n - 1], me, cid);
      RepeatsMeans(ss[n - 1], acts[n - 1], me, cid);
      assert Repeats(ss[n - 1], acts[n - 1], me, cid) || !Repeats(ss[n - 1], acts[n - 1], me, cid);
    }
  }

  lemma RepeatsMeans(s: System, a: Act, me: string, cid: string)
    requires Enabled(s, a)
    ensures Repeats(s, a, me, cid) ==> EndIn(s, me, cid).closes >= 1
  {
    hide Enabled, EndIn;
  }

  lemma NothingAtStart(s: System, me: string, cid: string)
    requires Start(s)
    ensures EndIn(s, me, cid) == Absent(0)
  {}

  /** Either end sends at most one close exactly when it never handles a relay frame, the peer's key
      unknown, for a channel it has closed; it sends none while it has the channel; and a done
      channel is closed at most once in any run. */
  lemma ClosedOnce(ss: seq<System>, acts: seq<Act>, n: nat, me: string, cid: string)
    requires Run(ss, acts) && n < |ss|
    ensures var e := EndIn(ss[n], me, cid);
      && (e.closes <= 1 <==> forall i :: 0 <= i < n ==> !Repeats(ss[i], acts[i], me, cid))
      && (Live(e) ==> e.closes == 0)
      && (e.Present? ==> e.ch.done <= 1)
  {
    hide Enabled, Step, Start, View, Routed, EndIn, Repeats, C.Inv;
    SecondCloseIff(ss, acts, n, me, cid);
    RunOk(ss, acts, n, cid);
    EndOfView(ss[n], me, cid);
    C.OneCloseEach(View(ss[n], cid));
  }

  // --- forwards ---------------------------------------------------------------------------------

  lemma BufferStep(s: System, a: Act, me: string, cid: string)
    requires Routed(s) && Enabled(s, a) && C.Inv(View(s, cid))
    ensures C.Settling(EndIn(s, me, cid), EndIn(Step(s, a), me, cid))
  {
    hide Step, Enabled, Routed, C.Step, C.Enabled, View, ActOf, EndIn,
      C.ClosesOk, C.CloseLast, C.DirsOk, C.CapsOk, C.StaysOk, EndOk, C.UnclosedOk, C.ShapeOk;
    EndOfView(s, me, cid);
    RoutedStep(s, a);
    EndOfView(Step(s, a), me, cid);
    OpensKept(s, a, cid);
    RefinedBy(s, a, cid);
    match ActOf(s, a, cid)
    case Some(ca) => C.BuffersStay(View(s, cid), ca);
    case None =>
  }

  lemma {:induction false} BufferKept(ss: seq<System>, acts: seq<Act>, k: nat, n: nat, me: string, cid: string)
    requires Run(ss, acts) && k <= n < |ss|
    ensures C.Settling(EndIn(ss[k], me, cid), EndIn(ss[n], me, cid))
    decreases n
  {
    hide Enabled, Step, Routed, Start, C.Inv, EndIn, View;
    if k < n {
      BufferKept(ss, acts, k, n - 1, me, cid);
      RunOk(ss, acts, n - 1, cid);
      BufferStep(ss[n - 1], acts[n - 1], me, cid);
    }
  }

  /** A forward has at every later time handed its connection all that it took exactly when its
      buffer was empty as the connection was attached. */
  lemma ForwardLosslessIff(ss: seq<System>, acts: seq<Act>, k: nat, n: nat, me: string, cid: string)
    requires Run(ss, acts) && k < n < |ss| && acts[k] == LocalAt(me, cid, Attach)
    requires EndIn(ss[k], me, cid).Present? && EndIn(ss[k], me, cid).ch.kind.Fwd?
    ensures var e := EndIn(ss[n], me, cid);
      e.Present? && (e.ch.written == Flat(e.ch.got) <==> EndIn(ss[k], me, cid).ch.buf == [])
  {
    hide Enabled, Step, Routed, Start, C.Inv, EndIn, View, EndOk, Flat;
    AttachedNext(ss[k], acts[k]);
    BufferKept(ss, acts, k + 1, n, me, cid);
    RunOk(ss, acts, n, cid);
    EndOfView(ss[n], me, cid);
    EndsOk(View(ss[n], cid));
    Endpoint.ForwardLosslessIff(EndIn(ss[n], me, cid));
  }

  /** A local connection is at every later time open without its channel exactly when the channel was
      already closed as it was attached. And nothing ever wakes what waits for the channel's end:
      the done channel of a link or forward is not closed. */
  lemma AttachedTooLate(ss: seq<System>, acts: seq<Act>, k: nat, n: nat, me: string, cid: string)
    requires Run(ss, acts) && k < n < |ss| && acts[k] == LocalAt(me, cid, Attach)
    ensures var e := EndIn(ss[n], me, cid);
      && e.Present? && e.ch.done == 0
      && (C.Orphaned(e) <==> !Live(EndIn(ss[k], me, cid)))
  {
    hide Enabled, Step, Routed, Start, C.Inv, EndIn, View, ContentOk, PumpOk;
    AttachedNext(ss[k], acts[k]);
    BufferKept(ss, acts, k + 1, n, me, cid);
    RunOk(ss, acts, n, cid);
    EndOfView(ss[n], me, cid);
    EndsOk(View(ss[n], cid));
  }

  /** A machine attached a connection to a channel it had already closed. */
  ghost predicate AttachesLate(s: System, a: Act, me: string, cid: string) {
    a == LocalAt(me, cid, Attach) && !Live(EndIn(s, me, cid))
  }

  /** A connection is open without its channel exactly when it was attached too late; no dialed
      connection ever is. */
  lemma OrphanedIff(ss: seq<System>, acts: seq<Act>, n: nat, me: string, cid: string)
    requires Run(ss, acts) && n < |ss|
    ensures C.Orphaned(EndIn(ss[n], me, cid)) <==> exists k :: 0 <= k < n && AttachesLate(ss[k], acts[k], me, cid)
    ensures C.Orphaned(EndIn(ss[n], me, cid)) ==> !EndIn(ss[n], me, cid).ch.provider
  {
    hide Start, Enabled, Step, EndIn, View, C.Inv, Routed, ContentOk, DoneOk;
    RunOk(ss, acts, n, cid);
    EndOfView(ss[n], me, cid);
    EndsOk(View(ss[n], cid));
    if C.Orphaned(EndIn(ss[n], me, cid)) {
      var k := AttachedBy(ss, acts, n, me, cid);
      AttachedTooLate(ss, acts, k, n, me, cid);
      assert AttachesLate(ss[k], acts[k], me, cid);
    }
    if k: nat :| k < n && AttachesLate(ss[k], acts[k], me, cid) {
      AttachedTooLate(ss, acts, k, n, me, cid);
    }
  }

  predicate AttachedHere(e: End) {
    e.Present? && e.ch.attached && !e.ch.provider
  }

  lemma {:induction false} AttachedBy(ss: seq<System>, acts: seq<Act>, n: nat, me: string, cid: string) returns (k: nat)
    requires Run(ss, acts) && n < |ss| && AttachedHere(EndIn(ss[n], me, cid))
    ensures k < n && acts[k] == LocalAt(me, cid, Attach)
  {
    hide Enabled, Step, Start, EndIn, Machines;
    RunOk(ss, acts, if n == 0 then 0 else n - 1, cid);
    if n == 0 {
      NothingAtStart(ss[0], me, cid);
      assert false;
    }
    if AttachedHere(EndIn(ss[n - 1], me, cid)) {
      k := AttachedBy(ss, acts, n - 1, me, cid);
    } else {
      AttachStep(ss[n - 1], acts[n - 1], me, cid);
      k := n - 1;
    }
  }

  lemma AttachStep(s: System, a: Act, me: string, cid: string)
    requires Machines(s) && Enabled(s, a)
    requires !AttachedHere(EndIn(s, me, cid)) && AttachedHere(EndIn(Step(s, a), me, cid))
    ensures a == LocalAt(me, cid, Attach)
  {
    hide Packets, Spoil, Local, Answer, Receive, Allowed, AttachedHere;
    var d := s.daemons[a.me];
    OpenedUnattached(EndAt(d, cid), a);
    match a
    case LocalAt(_, c, op) => LocalAttaches(d.recs[c].end, op);
    case Handle(_, env) => AnswerAttaches(EndAt(d, cid), s.inbox[a.me][0], env);
    case _ =>
  }

  lemma OpenedUnattached(e: End, a: Act)
    ensures a.OpenTo? ==> !AttachedHere(OpenEnd(e, a.service, a.dial, a.sealOk).end)
  {}

  lemma LocalAttaches(e: End, op: LocalOp)
    requires Allowed(e, op)
    ensures AttachedHere(Local(e, op).end) ==> AttachedHere(e) || op == Attach
  {}

  lemma AnswerAttaches(e: End, m: Delivery, env: Env)
    ensures AttachedHere(Answer(e, m, env).end) ==> AttachedHere(e)
    ensures AttachedHere(Receive(e, FrameOf(m), env).end) ==> AttachedHere(e)
  {}

  lemma EndsOk(c: C.Chan)
    requires C.Inv(c)
    ensures EndOk(c.cons) && EndOk(c.prov)
  {
    hide EndOk;
  }

  lemma AttachedNext(s: System, a: Act)
    requires Enabled(s, a) && a.LocalAt? && a.op == Attach
    ensures var e, e' := EndIn(s, a.me, a.cid), EndIn(Step(s, a), a.me, a.cid);
      && e.Present? && e'.Present? && e'.ch.attached && e'.ch.kind == e.ch.kind && !e.ch.kind.Caps?
      && (e.ch.kind.Fwd? ==> e'.ch.buf == e.ch.buf) && (C.Orphaned(e') <==> !Live(e))
  {}

  /** The two machines of a channel are those of the step that opened it. */
  lemma {:induction false} OpenedBy(ss: seq<System>, acts: seq<Act>, k: nat, n: nat)
    requires Run(ss, acts) && k < n < |ss| && acts[k].OpenTo?
    ensures var a := acts[k];
      a.cid in ss[n].opens && ss[n].opens[a.cid].cons == a.me && ss[n].opens[a.cid].prov == a.peer
  {
    hide Start, Enabled, Routed, C.Inv, View, OpenChannel, LocalStep, HandleMessage, Spoil;
    if n == k + 1 {
      assert ss[n] == Step(ss[k], acts[k]);
    } else {
      hide Step;
      OpenedBy(ss, acts, k, n - 1);
      RunOk(ss, acts, n - 1, acts[k].cid);
      StepExtends(ss[n - 1], acts[n - 1]);
    }
  }

  /** Absent, then open, then closed, at every machine and in every run: no channel reopens. */
  lemma {:induction false} NeverReopened(ss: seq<System>, acts: seq<Act>, i: nat, j: nat, me: string, cid: string)
    requires Run(ss, acts) && i <= j < |ss|
    ensures C.Stage(EndIn(ss[i], me, cid)) <= C.Stage(EndIn(ss[j], me, cid))
    decreases j
  {
    hide Enabled, Step, Routed, Start, C.Inv, C.Stage, EndIn;
    if i < j {
      NeverReopened(ss, acts, i, j - 1, me, cid);
      RunOk(ss, acts, j - 1, cid);
      StageStep(ss[j - 1], acts[j - 1], me, cid);
    }
  }

  lemma StageStep(s: System, a: Act, me: string, cid: string)
    requires Routed(s) && Enabled(s, a) && C.Inv(View(s, cid))
    ensures C.Stage(EndIn(s, me, cid)) <= C.Stage(EndIn(Step(s, a), me, cid))
  {
    hide Enabled, Step, Routed, C.Inv, C.Step, C.Enabled, View, C.Stage;
    EndOfView(s, me, cid);
    RoutedStep(s, a);
    EndOfView(Step(s, a), me, cid);
    StepExtends(s, a);
    Refinement(s, a, cid);
    match ActOf(s, a, cid)
    case Some(ca) => C.NeverReopens(View(s, cid), ca);
    case None =>
  }

  /** A machine's end of a channel is one of the view's two, or untouched. */
  lemma EndOfView(s: System, me: string, cid: string)
    requires Routed(s)
    ensures if cid in s.opens && me == s.opens[cid].cons then EndIn(s, me, cid) == View(s, cid).cons
            else if cid in s.opens && me == s.opens[cid].prov then EndIn(s, me, cid) == View(s, cid).prov
            else EndIn(s, me, cid) == Absent(0)
    ensures cid !in s.opens ==> View(s, cid).cons == Absent(0) && View(s, cid).prov == Absent(0)
    ensures C.Stage(Absent(0)) == 0
  {
    hide DeliveryOk, PacketOk, Flight;
    if me in s.daemons {
      assert DaemonOk(s, s.daemons[me]);
    }
  }

  /** Every box that reaches a machine opens, and was sealed by the machine at the other end. */
  lemma BoxesOpen(ss: seq<System>, acts: seq<Act>, n: nat, me: string, i: nat)
    requires Run(ss, acts) && n < |ss| && me in ss[n].inbox && i < |ss[n].inbox[me]|
    ensures var m := ss[n].inbox[me][i];
      && Authentic(me, m) && m.channel in ss[n].opens
      && (m.Relayed? ==> Between(ss[n], m.channel, me, m.data.from))
  {
    hide Run, C.Inv, View;
    RunOk(ss, acts, n, "");
    assert DeliveryOk(ss[n], me, ss[n].inbox[me][i]);
  }

  /** The end of a local connection's input changes nothing but its own pump: no channel table,
      no queue, no other end. */
  lemma HalfCloseIsLocal(s: System, me: string, cid: string)
    requires Enabled(s, LocalAt(me, cid, Eof)) && !s.daemons[me].recs[cid].end.ch.provider
    ensures var d := s.daemons[me];
      Step(s, LocalAt(me, cid, Eof))
        == s.(daemons := s.daemons[me := d.(recs := d.recs[cid := d.recs[cid].(end := EndPump(d.recs[cid].end))])])
  {
    assert s.daemons[me].send + [] == s.daemons[me].send;
    if cid in s.opens {
      assert s.opens[cid := s.opens[cid]] == s.opens;
    }
  }

  /** Handling a close sends nothing and leaves the machine without the channel. */
  lemma CloseIsNotAnswered(s: System, me: string, env: Env)
    requires Enabled(s, Handle(me, env)) && !s.inbox[me][0].Relayed?
    ensures var s' := Step(s, Handle(me, env));
      s'.daemons[me].send == s.daemons[me].send && !Live(EndAt(s'.daemons[me], s.inbox[me][0].channel))
  {
    assert s.daemons[me].send + [] == s.daemons[me].send;
  }
}
