/** Three runs of two machines and one channel, opened by c to p. In the first the service speaks
    before the consumer attaches its connection; in the second the hub refuses the channel before
    that; in the third p does not know c's key. */
module RelayExample {
  import opened Basics
  import opened Endpoint
  import opened DaemonModel
  import opened RelaySystem
  import C = Channel
  import R = RelayRuns

  function Pair(rc: map<string, Rec>, sc: seq<Packet>, ic: seq<Delivery>,
                rp: map<string, Rec>, sp: seq<Packet>, ip: seq<Delivery>, opens: map<string, Party>): System {
    System(map["c" := Daemon("c", rc, sc), "p" := Daemon("p", rp, sp)], map["c" := ic, "p" := ip], opens)
  }

  /** The one record of a machine. */
  function Only(peer: string, e: End): map<string, Rec> {
    map["k" := Rec(peer, e)]
  }

  function Opens(clean: bool, keyed: bool): map<string, Party> {
    map["k" := Party("c", "p", clean, keyed)]
  }

  const OPENING := Relay("p", "k", Tcp, "db:1", Sealed("c", "p", []))
  const OPENED := Relayed("c", "k", Tcp, "db:1", Sealed("c", "p", []))
  const GOOD := Env(true, true, true, true, [])
  const KEYLESS := Env(false, true, true, true, [])

  /** The consumer's end of the forward. */
  function Fwds(attached: bool, open: bool, buf: Bytes, pump: Pump, read: seq<Bytes>, got: seq<Bytes>,
                live: bool): End
  {
    Present(Ch(Fwd, false, attached, open, [], buf, 0, pump, read, got), live, 0)
  }

  /** The provider's, once it has dialed. */
  function Serves(pump: Pump, read: seq<Bytes>): End {
    Present(Ch(Link, true, true, true, [], [], 0, pump, read, []), true, 0)
  }

  predicate Goes(s: System, a: Act, s': System) {
    Enabled(s, a) && Step(s, a) == s'
  }

  /** A run from its states and steps. */
  lemma Follow(at: nat -> System, does: nat -> Act, n: nat) returns (ss: seq<System>, acts: seq<Act>)
    requires Start(at(0)) && forall i :: 0 <= i < n ==> Goes(at(i), does(i), at(i + 1))
    ensures R.Run(ss, acts) && |acts| == n && ss[n] == at(n) && forall i :: 0 <= i < n ==> acts[i] == does(i)
  {
    hide Enabled, Step, Start;
    ss, acts := seq(n + 1, i requires 0 <= i => at(i)), seq(n, i requires 0 <= i => does(i));
    forall i | 0 <= i < n
      ensures Enabled(ss[i], acts[i]) && ss[i + 1] == Step(ss[i], acts[i])
    {
      assert Goes(at(i), does(i), at(i + 1));
    }
  }

  // --- single steps --------------------------------------------------------------------------------

  lemma Replaced<V>(x: V, y: V, z: V)
    ensures map["c" := x, "p" := y]["c" := z] == map["c" := z, "p" := y]
    ensures map["c" := x, "p" := y]["p" := z] == map["c" := x, "p" := z]
  {}

  lemma OneRecord(peer: string, e: End, e': End)
    ensures Only(peer, e)["k" := Rec(peer, e')] == Only(peer, e')
    ensures map[]["k" := Rec(peer, e')] == Only(peer, e')
  {}

  lemma OneParty(clean: bool, keyed: bool, clean': bool, keyed': bool)
    ensures Opens(clean, keyed)["k" := Party("c", "p", clean', keyed')] == Opens(clean', keyed')
    ensures map[]["k" := Party("c", "p", clean', keyed')] == Opens(clean', keyed')
  {}

  lemma OnePacket(me: string, to: string, f: Frame)
    ensures Packets(me, to, "k", [f]) == [PacketOf(me, to, "k", f)] && Packets(me, to, "k", []) == []
  {
    assert [f][..0] == [];
  }

  lemma OpenGoes()
    ensures var s := Pair(map[], [], [], map[], [], [], map[]);
      && Start(s)
      && Goes(s, OpenTo("c", "p", "k", Tcp, "db:1", true),
              Pair(Only("p", Fwds(false, false, [], Idle, [], [], true)), [OPENING], [], map[], [], [],
                   Opens(true, true)))
  {
    var none := Daemon("c", map[], []);
    OnePacket("c", "p", Open(Tcp, "db:1"));
    OneRecord("p", Absent(0), Fwds(false, false, [], Idle, [], [], true));
    OneParty(true, true, true, true);
    assert [] + [OPENING] == [OPENING];
    Replaced(none, Daemon("p", map[], []), OpenChannel(none, "p", "k", Tcp, "db:1", true));
  }

  /** Something happens at one end; the other machine has a record and a queue. */
  lemma LocalGoes(me: string, e: End, op: LocalOp, other: map<string, Rec>, q: seq<Packet>, ok: bool, keyed: bool)
    requires (me == "c" || me == "p") && Allowed(e, op) && !C.KeyFailure(op)
    ensures var o := Local(e, op);
      && (me == "c" ==>
            Goes(Pair(Only("p", e), [], [], other, q, [], Opens(ok, keyed)), LocalAt("c", "k", op),
                 Pair(Only("p", o.end), Packets("c", "p", "k", o.frames), [], other, q, [], Opens(ok, keyed))))
      && (me == "p" ==>
            Goes(Pair(other, q, [], Only("c", e), [], [], Opens(ok, keyed)), LocalAt("p", "k", op),
                 Pair(other, q, [], Only("c", o.end), Packets("p", "c", "k", o.frames), [], Opens(ok, keyed))))
  {
    hide Local, Allowed, Packets;
    var o, peer := Local(e, op), if me == "c" then "p" else "c";
    var d, d' := Daemon(me, Only(peer, e), []), Daemon(me, Only(peer, o.end), Packets(me, peer, "k", o.frames));
    OneRecord(peer, e, o.end);
    OneParty(ok, keyed, ok, keyed);
    assert [] + Packets(me, peer, "k", o.frames) == Packets(me, peer, "k", o.frames);
    assert LocalStep(d, "k", op) == d';
    if me == "c" {
      Replaced(d, Daemon("p", other, q), d');
    } else {
      Replaced(Daemon("c", other, q), d, d');
    }
  }

  /** The hub passes c's only packet on. */
  lemma PassGoes(rc: map<string, Rec>, p: Packet, rp: map<string, Rec>, sp: seq<Packet>, ok: bool, keyed: bool)
    requires p.to == "p"
    ensures Goes(Pair(rc, [p], [], rp, sp, [], Opens(ok, keyed)), Hub("c", Forward),
                 Pair(rc, [], [], rp, sp, [Forwarded("c", p)], Opens(ok, keyed)))
  {
    assert [p][1..] == [] && [] + [Forwarded("c", p)] == [Forwarded("c", p)];
    Replaced(Daemon("c", rc, [p]), Daemon("p", rp, sp), Daemon("c", rc, []));
    Replaced<seq<Delivery>>([], [], [Forwarded("c", p)]);
  }

  /** The provider handles the only message from c. */
  lemma HandleGoes(rc: map<string, Rec>, sp: seq<Packet>, e: End, m: Delivery, env: Env, ok: bool, keyed: bool)
    requires m.Relayed? && m.from == "c" && m.channel == "k" && Authentic("p", m)
    ensures var o, good := Answer(e, m, env), !C.EnvFailure(env);
      && Goes(Pair(rc, [], [], Only("c", e), sp, [m], Opens(ok, keyed)), Handle("p", env),
              Pair(rc, [], [], Only("c", o.end), sp + Packets("p", "c", "k", o.frames), [],
                   Opens(ok && good, keyed && good)))
      && (e == Absent(0) ==>
            Goes(Pair(rc, [], [], map[], sp, [m], Opens(ok, keyed)), Handle("p", env),
                 Pair(rc, [], [], Only("c", o.end), sp + Packets("p", "c", "k", o.frames), [],
                      Opens(ok && good, keyed && good))))
  {
    hide Answer, Packets;
    var o, good := Answer(e, m, env), !C.EnvFailure(env);
    var d' := Daemon("p", Only("c", o.end), sp + Packets("p", "c", "k", o.frames));
    OneRecord("c", e, o.end);
    OneParty(ok, keyed, ok && good, keyed && good);
    assert [m][1..] == [];
    assert HandleMessage(Daemon("p", Only("c", e), sp), m, env) == d';
    assert e == Absent(0) ==> HandleMessage(Daemon("p", map[], sp), m, env) == d';
    Replaced(Daemon("c", rc, []), Daemon("p", Only("c", e), sp), d');
    Replaced(Daemon("c", rc, []), Daemon("p", map[], sp), d');
    Replaced<seq<Delivery>>([], [m], []);
  }

  /** The hub passes p's only packet on. */
  lemma PassBackGoes(rc: map<string, Rec>, p: Packet, rp: map<string, Rec>, ok: bool, keyed: bool)
    requires p.to == "c"
    ensures Goes(Pair(rc, [], [], rp, [p], [], Opens(ok, keyed)), Hub("p", Forward),
                 Pair(rc, [], [Forwarded("p", p)], rp, [], [], Opens(ok, keyed)))
  {
    assert [p][1..] == [] && [] + [Forwarded("p", p)] == [Forwarded("p", p)];
    Replaced(Daemon("c", rc, []), Daemon("p", rp, [p]), Daemon("p", rp, []));
    Replaced<seq<Delivery>>([], [], [Forwarded("p", p)]);
  }

  /** The hub refuses c's only packet. */
  lemma RefuseGoes(rc: map<string, Rec>, p: Packet, rp: map<string, Rec>)
    requires p.Relay? && p.channel == "k"
    ensures Goes(Pair(rc, [p], [], rp, [], [], Opens(true, true)), Hub("c", Reject),
                 Pair(rc, [], [Failed("k")], rp, [], [], Opens(false, true)))
  {
    assert [p][1..] == [] && [] + [Failed("k")] == [Failed("k")];
    OneParty(true, true, false, true);
    Replaced(Daemon("c", rc, [p]), Daemon("p", rp, []), Daemon("c", rc, []));
    Replaced<seq<Delivery>>([], [], [Failed("k")]);
  }

  /** The consumer handles its only message, and has nothing to answer. */
  lemma HeardGoes(e: End, m: Delivery, rp: map<string, Rec>, ok: bool, keyed: bool)
    requires m.channel == "k" && Authentic("c", m) && Live(e) && (m.Relayed? ==> m.service.NoService?)
    ensures Goes(Pair(Only("p", e), [], [m], rp, [], [], Opens(ok, keyed)), Handle("c", GOOD),
                 Pair(Only("p", Receive(e, FrameOf(m), GOOD).end), [], [], rp, [], [], Opens(ok, keyed)))
  {
    var e' := Receive(e, FrameOf(m), GOOD).end;
    var d, d' := Daemon("c", Only("p", e), []), Daemon("c", Only("p", e'), []);
    OnePacket("c", "p", Close);
    OneRecord("p", e, e');
    OneParty(ok, keyed, ok, keyed);
    var none: seq<Packet> := [];
    assert [m][1..] == [] && none + none == none;
    assert HandleMessage(d, m, GOOD) == d';
    Replaced(d, Daemon("p", rp, []), d');
    Replaced<seq<Delivery>>([m], [], []);
  }

  // --- the service speaks first --------------------------------------------------------------------

  const SPOKEN := Relay("c", "k", NoService, "", Sealed("p", "c", [7]))
  const HEARD := Relayed("p", "k", NoService, "", Sealed("p", "c", [7]))

  function Fwd0(): End {
    Fwds(false, false, [], Idle, [], [], true)
  }

  function Buffering(): End {
    Fwds(false, false, [7], Idle, [], [[7]], true)
  }

  function Speaking(read: seq<Bytes>): End {
    Serves(Running(None), read)
  }

  function Start0(): System {
    Pair(map[], [], [], map[], [], [], map[])
  }

  /** Once the consumer has opened the channel. */
  function Opened(): System {
    Pair(Only("p", Fwd0()), [OPENING], [], map[], [], [], Opens(true, true))
  }

  function FirstAt(n: int): System {
    if n <= 0 then Start0()
    else if n == 1 then Opened()
    else if n == 2 then Pair(Only("p", Fwd0()), [], [], map[], [], [OPENED], Opens(true, true))
    else if n == 3 then Pair(Only("p", Fwd0()), [], [], Only("c", Serves(Idle, [])), [], [], Opens(true, true))
    else if n == 4 then Pair(Only("p", Fwd0()), [], [], Only("c", Speaking([])), [], [], Opens(true, true))
    else if n == 5 then
      Pair(Only("p", Fwd0()), [], [], Only("c", Serves(Running(Some([7])), [[7]])), [], [], Opens(true, true))
    else if n == 6 then Pair(Only("p", Fwd0()), [], [], Only("c", Speaking([[7]])), [SPOKEN], [], Opens(true, true))
    else if n == 7 then Pair(Only("p", Fwd0()), [], [HEARD], Only("c", Speaking([[7]])), [], [], Opens(true, true))
    else if n == 8 then Pair(Only("p", Buffering()), [], [], Only("c", Speaking([[7]])), [], [], Opens(true, true))
    else
      Pair(Only("p", Fwds(true, true, [7], Idle, [], [[7]], true)), [], [], Only("c", Speaking([[7]])), [], [],
           Opens(true, true))
  }

  function FirstDoes(n: int): Act {
    if n <= 0 then OpenTo("c", "p", "k", Tcp, "db:1", true)
    else if n == 1 then Hub("c", Forward)
    else if n == 2 then Handle("p", GOOD)
    else if n == 3 then LocalAt("p", "k", StartPump(true))
    else if n == 4 then LocalAt("p", "k", Read([7]))
    else if n == 5 then LocalAt("p", "k", Send(true))
    else if n == 6 then Hub("p", Forward)
    else if n == 7 then Handle("c", GOOD)
    else LocalAt("c", "k", Attach)
  }

  lemma Dialing()
    ensures Goes(FirstAt(0), FirstDoes(0), FirstAt(1)) && Goes(FirstAt(1), FirstDoes(1), FirstAt(2))
    ensures Goes(FirstAt(2), FirstDoes(2), FirstAt(3)) && Start(FirstAt(0))
  {
    hide Goes, Start;
    OpenGoes();
    PassGoes(Only("p", Fwd0()), OPENING, map[], [], true, true);
    HandleGoes(Only("p", Fwd0()), [], Absent(0), OPENED, GOOD, true, true);
    OnePacket("p", "c", Close);
    var none: seq<Packet> := [];
    assert none + none == none;
  }

  lemma Greeting()
    ensures Goes(FirstAt(3), FirstDoes(3), FirstAt(4)) && Goes(FirstAt(4), FirstDoes(4), FirstAt(5))
    ensures Goes(FirstAt(5), FirstDoes(5), FirstAt(6)) && Goes(FirstAt(6), FirstDoes(6), FirstAt(7))
  {
    hide Goes;
    OnePacket("p", "c", Data([7]));
    var none: seq<Bytes> := [];
    assert none + [[7]] == [[7]];
    LocalGoes("p", Serves(Idle, []), StartPump(true), Only("p", Fwd0()), [], true, true);
    LocalGoes("p", Speaking([]), Read([7]), Only("p", Fwd0()), [], true, true);
    LocalGoes("p", Serves(Running(Some([7])), [[7]]), Send(true), Only("p", Fwd0()), [], true, true);
    PassBackGoes(Only("p", Fwd0()), SPOKEN, Only("c", Speaking([[7]])), true, true);
  }

  lemma Attaching()
    ensures Goes(FirstAt(7), FirstDoes(7), FirstAt(8)) && Goes(FirstAt(8), FirstDoes(8), FirstAt(9))
  {
    hide Goes;
    OnePacket("c", "p", Close);
    var none: seq<Bytes> := [];
    var byte: Bytes := [];
    assert none + [[7]] == [[7]] && byte + [7] == [7];
    HeardGoes(Fwd0(), HEARD, Only("c", Speaking([[7]])), true, true);
    LocalGoes("c", Buffering(), Attach, Only("c", Speaking([[7]])), [], true, true);
  }

  /** A forward that has taken a byte it will never hand over. */
  ghost predicate KeepsGreeting(ss: seq<System>, acts: seq<Act>) {
    && R.Run(ss, acts) && acts != [] && acts[|acts| - 1] == LocalAt("c", "k", Attach)
    && var e := EndIn(ss[|acts|], "c", "k");
       e.Present? && e.ch.kind.Fwd? && e.ch.got == [[7]] && e.ch.written == [] && e.ch.buf == [7]
  }

  lemma ServiceSpeaksFirst()
    ensures exists ss, acts :: KeepsGreeting(ss, acts)
  {
    hide Goes, R.Run, Start;
    Dialing();
    Greeting();
    Attaching();
    assert forall i :: 0 <= i < 9 ==> Goes(FirstAt(i), FirstDoes(i), FirstAt(i + 1));
    var ss, acts := Follow(i => FirstAt(i), i => FirstDoes(i), 9);
    assert KeepsGreeting(ss, acts);
  }

  // --- the channel is refused before the connection is attached -------------------------------------

  function SecondAt(n: int): System {
    if n <= 0 then Start0()
    else if n == 1 then Opened()
    else if n == 2 then Pair(Only("p", Fwd0()), [], [Failed("k")], map[], [], [], Opens(false, true))
    else if n == 3 then
      Pair(Only("p", Fwds(false, false, [], Idle, [], [], false)), [], [], map[], [], [], Opens(false, true))
    else Pair(Only("p", Fwds(true, true, [], Idle, [], [], false)), [], [], map[], [], [], Opens(false, true))
  }

  function SecondDoes(n: int): Act {
    if n <= 0 then OpenTo("c", "p", "k", Tcp, "db:1", true)
    else if n == 1 then Hub("c", Reject)
    else if n == 2 then Handle("c", GOOD)
    else LocalAt("c", "k", Attach)
  }

  /** A connection open at a machine whose channel is gone. */
  ghost predicate LeavesOpen(ss: seq<System>, acts: seq<Act>) {
    && R.Run(ss, acts) && acts != [] && acts[|acts| - 1] == LocalAt("c", "k", Attach)
    && C.Orphaned(EndIn(ss[|acts|], "c", "k"))
  }

  lemma RefusedFirst()
    ensures exists ss, acts :: LeavesOpen(ss, acts)
  {
    hide Goes, R.Run, Start;
    OpenGoes();
    OnePacket("c", "p", Close);
    RefuseGoes(Only("p", Fwd0()), OPENING, map[]);
    HeardGoes(Fwd0(), Failed("k"), map[], false, true);
    LocalGoes("c", Fwds(false, false, [], Idle, [], [], false), Attach, map[], [], false, true);
    assert forall i :: 0 <= i < 4 ==> Goes(SecondAt(i), SecondDoes(i), SecondAt(i + 1));
    var ss, acts := Follow(i => SecondAt(i), i => SecondDoes(i), 4);
    assert LeavesOpen(ss, acts);
  }

  // --- the provider does not know the consumer's key ------------------------------------------------

  const SAID := Relay("p", "k", NoService, "", Sealed("c", "p", [7]))
  const TOLD := Relayed("c", "k", NoService, "", Sealed("c", "p", [7]))
  const NO := RelayClose("c", "k")

  function Talking(pump: Pump, read: seq<Bytes>): map<string, Rec> {
    Only("p", Fwds(true, true, [], pump, read, [], true))
  }

  function Closed(n: nat): map<string, Rec> {
    Only("c", Absent(n))
  }

  /** The machines once the provider has closed n times. */
  function Keyless(rc: map<string, Rec>, sc: seq<Packet>, sp: seq<Packet>, ip: seq<Delivery>, n: nat): System {
    Pair(rc, sc, [], Closed(n), sp, ip, Opens(false, false))
  }

  function ThirdAt(n: int): System {
    if n <= 0 then Start0()
    else if n == 1 then Opened()
    else if n == 2 then Pair(Only("p", Fwd0()), [], [], map[], [], [OPENED], Opens(true, true))
    else if n == 3 then Keyless(Only("p", Fwd0()), [], [NO], [], 1)
    else if n == 4 then Keyless(Talking(Idle, []), [], [NO], [], 1)
    else if n == 5 then Keyless(Talking(Running(None), []), [], [NO], [], 1)
    else if n == 6 then Keyless(Talking(Running(Some([7])), [[7]]), [], [NO], [], 1)
    else if n == 7 then Keyless(Talking(Running(None), [[7]]), [SAID], [NO], [], 1)
    else if n == 8 then Keyless(Talking(Running(None), [[7]]), [], [NO], [TOLD], 1)
    else Keyless(Talking(Running(None), [[7]]), [], [NO, NO], [], 2)
  }

  function ThirdDoes(n: int): Act {
    if n <= 0 then OpenTo("c", "p", "k", Tcp, "db:1", true)
    else if n == 1 then Hub("c", Forward)
    else if n == 2 then Handle("p", KEYLESS)
    else if n == 3 then LocalAt("c", "k", Attach)
    else if n == 4 then LocalAt("c", "k", StartPump(true))
    else if n == 5 then LocalAt("c", "k", Read([7]))
    else if n == 6 then LocalAt("c", "k", Send(true))
    else if n == 7 then Hub("c", Forward)
    else Handle("p", KEYLESS)
  }

  lemma TurnedAway()
    ensures Goes(ThirdAt(0), ThirdDoes(0), ThirdAt(1)) && Goes(ThirdAt(1), ThirdDoes(1), ThirdAt(2))
    ensures Goes(ThirdAt(2), ThirdDoes(2), ThirdAt(3)) && Start(ThirdAt(0))
  {
    hide Goes, Start;
    OpenGoes();
    PassGoes(Only("p", Fwd0()), OPENING, map[], [], true, true);
    HandleGoes(Only("p", Fwd0()), [], Absent(0), OPENED, KEYLESS, true, true);
    OnePacket("p", "c", Close);
    var none: seq<Packet> := [];
    assert none + [NO] == [NO];
  }

  lemma Insisting()
    ensures forall i :: 3 <= i < 7 ==> Goes(ThirdAt(i), ThirdDoes(i), ThirdAt(i + 1))
  {
    hide Goes;
    OnePacket("c", "p", Data([7]));
    var none: seq<Bytes> := [];
    assert none + [[7]] == [[7]];
    LocalGoes("c", Fwd0(), Attach, Closed(1), [NO], false, false);
    LocalGoes("c", Talking(Idle, [])["k"].end, StartPump(true), Closed(1), [NO], false, false);
    LocalGoes("c", Talking(Running(None), [])["k"].end, Read([7]), Closed(1), [NO], false, false);
    LocalGoes("c", Talking(Running(Some([7])), [[7]])["k"].end, Send(true), Closed(1), [NO], false, false);
  }

  lemma TurnedAwayAgain()
    ensures Goes(ThirdAt(7), ThirdDoes(7), ThirdAt(8)) && Goes(ThirdAt(8), ThirdDoes(8), ThirdAt(9))
  {
    hide Goes;
    PassGoes(Talking(Running(None), [[7]]), SAID, Closed(1), [NO], false, false);
    HandleGoes(Talking(Running(None), [[7]]), [NO], Absent(1), TOLD, KEYLESS, false, false);
    OnePacket("p", "c", Close);
    assert [NO] + [NO] == [NO, NO];
  }

  /** The provider has sent two closes of one channel. */
  ghost predicate ClosesTwice(ss: seq<System>, acts: seq<Act>) {
    && R.Run(ss, acts) && acts != [] && acts[|acts| - 1] == Handle("p", KEYLESS)
    && EndIn(ss[|acts|], "p", "k").closes == 2
    && "p" in ss[|acts|].daemons && ss[|acts|].daemons["p"].send == [NO, NO]
  }

  lemma UnknownPeerClosedTwice()
    ensures exists ss, acts :: ClosesTwice(ss, acts)
  {
    hide Goes, R.Run, Start;
    TurnedAway();
    Insisting();
    TurnedAwayAgain();
    assert forall i :: 0 <= i < 9 ==> Goes(ThirdAt(i), ThirdDoes(i), ThirdAt(i + 1));
    var ss, acts := Follow(i => ThirdAt(i), i => ThirdDoes(i), 9);
    assert ClosesTwice(ss, acts);
  }
}
