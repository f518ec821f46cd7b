/** Daemons and the real hub together: sessions come and go, the hub handles requests as `HubModel`
    says, daemons read their session's queue. Everything the daemons do in such a run they do in a
    run of `RelaySystem`, whose inbox of a machine is the part of its session's queue that the
    machine has not read; queues that nobody reads any more are lost messages. */
module RelayHub {
  import opened Basics
  import opened Endpoint
  import opened DaemonModel
  import opened RelaySystem
  import opened SealedText
  import C = Channel
  import H = HubModel
  import HR = HubRuns
  import HubStore
  import R = RelayRuns

  function ServiceName(s: Service): string {
    match s
    case NoService => ""
    case Docker => "docker"
    case Tcp => "tcp"
    case CapsService => "caps"
  }

  function ServiceNamed(name: string): Service {
    if name == "docker" then Docker
    else if name == "tcp" then Tcp
    else if name == "caps" then CapsService
    else NoService
  }

  lemma NamesInvert(s: Service)
    ensures ServiceNamed(ServiceName(s)) == s
  {
    assert |"docker"| == 6 && |"tcp"| == 3 && |"caps"| == 4;
  }

  /** A packet as the hub reads it. */
  function RequestOf(p: Packet, k: Codec): H.Request {
    match p
    case Relay(to, cid, service, dial, data) => H.Relay(to, cid, ServiceName(service), dial, k.text(data))
    case RelayClose(to, cid) => H.RelayClose(to, cid)
  }

  /** A message about a channel as the daemon reads it. */
  function Decoded(m: H.Message, k: Codec): Delivery
    requires H.ForChannel(m)
  {
    match m
    case Relayed(from, cid, name, dial, data) => Relayed(from, cid, ServiceNamed(name), dial, k.unbox(data))
    case Closed(from, cid) => Closed(from, cid)
    case Error(cid) => Failed(cid)
  }

  /** What a queue holds for channels. */
  function Deliveries(out: seq<H.Message>, k: Codec): seq<Delivery> {
    if out == [] then []
    else
      var m := out[|out| - 1];
      Deliveries(out[..|out| - 1], k) + if H.ForChannel(m) then [Decoded(m, k)] else []
  }

  lemma {:induction false} DeliveriesAppend(a: seq<H.Message>, b: seq<H.Message>, k: Codec)
    ensures Deliveries(a + b, k) == Deliveries(a, k) + Deliveries(b, k)
  {
    if b == [] {
      assert a + b == a;
    } else {
      assert (a + b)[..|a + b| - 1] == a + b[..|b| - 1];
      DeliveriesAppend(a, b[..|b| - 1], k);
    }
  }

  lemma OneDelivery(m: H.Message, k: Codec)
    ensures Deliveries([m], k) == if H.ForChannel(m) then [Decoded(m, k)] else []
  {
    assert [m][..0] == [];
  }

  lemma {:induction false} NoDeliveries(out: seq<H.Message>, k: Codec)
    requires forall m :: m in out ==> !H.ForChannel(m)
    ensures Deliveries(out, k) == []
  {
    if out != [] {
      NoDeliveries(out[..|out| - 1], k);
    }
  }

  // --- the whole --------------------------------------------------------------------------

  /** `owner` says which machine's daemon dialed a session, `conn` which session a daemon reads and
      writes now, `read` how much of a session's queue has reached it, `drawn` the channel ids
      ever drawn. */
  datatype Whole<!S(==)> = Whole(hub: H.HubState<S>, daemons: map<string, Daemon>, drawn: set<string>,
                                 owner: map<S, string>, conn: map<string, S>, read: map<S, nat>)

  datatype Move<!S(==)> =
    | Dial(s: S, id: string)                          // a daemon connects, leaving an earlier session
    | Serve(s: S, req: H.Request, henv: H.Env<S>)     // the hub handles anything but a relay or a close
    | Transmit(id: string, henv: H.Env<S>)            // the hub handles a daemon's next relay or close
    | Drop(id: string)                                // the next relay or close is lost on its way
    | Deliver(id: string, env: Env)                   // a daemon handles the next message of its session
    | Skip(id: string)                                // that message is lost on its way
    | Hangup(s: S, henv: H.Env<S>)                    // a session ends
    | Restart                                         // the hub stops and starts again
    | OpenTo(me: string, peer: string, cid: string, service: Service, dial: string, sealOk: bool)
    | LocalAt(me: string, cid: string, op: LocalOp)

  /** What the session's queue still has for its daemon. */
  function Pending<S>(w: Whole<S>, t: S): seq<H.Message> {
    if t !in w.hub.sessions || t !in w.read || w.read[t] > |w.hub.sessions[t].out| then []
    else w.hub.sessions[t].out[w.read[t]..]
  }

  function Unread<S>(w: Whole<S>, id: string): seq<H.Message> {
    if id in w.conn then Pending(w, w.conn[id]) else []
  }

  function InboxOf<S>(w: Whole<S>, id: string, k: Codec): seq<Delivery> {
    Deliveries(Unread(w, id), k)
  }

  predicate Online<S>(w: Whole<S>, id: string) {
    id in w.daemons && id in w.conn && w.conn[id] in w.hub.sessions
  }

  predicate Possible<S>(w: Whole<S>, a: Move<S>) {
    match a
    case Dial(s, id) => s !in w.owner && s !in w.hub.sessions && id != ""
    case Serve(s, req, _) =>
      s in w.hub.sessions && s in w.owner && !req.Relay? && !req.RelayClose? && (req.Hello? ==> req.id == w.owner[s])
    case Transmit(id, _) => Online(w, id) && w.daemons[id].send != []
    case Drop(id) => id in w.daemons && w.daemons[id].send != []
    case Deliver(id, _) => Online(w, id) && Unread(w, id) != []
    case Skip(id) => Online(w, id) && Unread(w, id) != []
    case Hangup(s, _) => s in w.hub.sessions
    case Restart => true
    case OpenTo(me, peer, cid, service, _, _) =>
      me in w.daemons && peer in w.daemons && me != peer && cid !in w.drawn && !service.NoService?
    case LocalAt(me, cid, op) =>
      me in w.daemons && cid in w.daemons[me].recs && Allowed(w.daemons[me].recs[cid].end, op)
  }

  function Advance<S>(w: Whole<S>, id: string): map<string, Daemon>
    requires id in w.daemons && w.daemons[id].send != []
  {
    w.daemons[id := w.daemons[id].(send := w.daemons[id].send[1..])]
  }

  function ReadOne<S>(w: Whole<S>, id: string): map<S, nat>
    requires Online(w, id) && Unread(w, id) != []
  {
    w.read[w.conn[id] := w.read[w.conn[id]] + 1]
  }

  /** The one step of the hub in a move, if there is one. */
  function HubAct<S>(w: Whole<S>, a: Move<S>, k: Codec): Option<HR.Act<S>>
    requires Possible(w, a)
  {
    match a
    case Dial(s, _) => Some(HR.Join(s))
    case Serve(s, req, henv) => Some(HR.Receive(s, req, henv))
    case Transmit(id, henv) => Some(HR.Receive(w.conn[id], RequestOf(w.daemons[id].send[0], k), henv))
    case Hangup(s, henv) => Some(HR.Part(s, henv))
    case Restart => Some(HR.Restart)
    case _ => None
  }

  function Next<S>(w: Whole<S>, a: Move<S>, k: Codec): Whole<S>
    requires Possible(w, a)
  {
    match a
    case Dial(s, id) =>
      w.(hub := H.Connect(w.hub, s), owner := w.owner[s := id], conn := w.conn[id := s], read := w.read[s := 0])
    case Serve(s, req, henv) => w.(hub := H.Handle(w.hub, s, req, henv))
    case Transmit(id, henv) =>
      w.(hub := H.Handle(w.hub, w.conn[id], RequestOf(w.daemons[id].send[0], k), henv), daemons := Advance(w, id))
    case Drop(id) => w.(daemons := Advance(w, id))
    case Deliver(id, env) =>
      var m := Unread(w, id)[0];
      var d := w.daemons[id];
      w.(read := ReadOne(w, id),
         daemons := w.daemons[id := if H.ForChannel(m) then HandleMessage(d, Decoded(m, k), env) else d])
    case Skip(id) => w.(read := ReadOne(w, id))
    case Hangup(s, henv) => w.(hub := H.Leave(w.hub, s, henv))
    case Restart => w.(hub := w.hub.(clients := map[], sessions := map[]))
    case OpenTo(me, peer, cid, service, dial, sealOk) =>
      w.(daemons := w.daemons[me := OpenChannel(w.daemons[me], peer, cid, service, dial, sealOk)],
         drawn := w.drawn + {cid})
    case LocalAt(me, cid, op) => w.(daemons := w.daemons[me := LocalStep(w.daemons[me], cid, op)])
  }

  lemma HubSteps<S>(w: Whole<S>, a: Move<S>, k: Codec)
    requires Possible(w, a)
    ensures match HubAct(w, a, k)
            case Some(act) => HR.Step(w.hub, act, Next(w, a, k).hub)
            case None => Next(w, a, k).hub == w.hub
  {
    hide H.Handle, H.Leave, HandleMessage, LocalStep, OpenChannel, Allowed;
  }

  // --- what holds of the whole on its own -----------------------------------------------------

  ghost predicate SessionOk<S>(w: Whole<S>, t: S) {
    && t in w.owner && t in w.read && t in w.hub.sessions && w.read[t] <= |w.hub.sessions[t].out|
    && (w.hub.sessions[t].id == "" || w.hub.sessions[t].id == w.owner[t])
  }

  ghost predicate WholeOk<S>(w: Whole<S>) {
    && HR.RegistryOk(w.hub)
    && (forall t :: t in w.hub.sessions ==> SessionOk(w, t))
    && (forall id :: id in w.conn ==> id != "" && w.conn[id] in w.owner && w.owner[w.conn[id]] == id)
  }

  /** The hub did something, and every queue still begins as it did. */
  ghost predicate Grew<S>(h: H.HubState<S>, h': H.HubState<S>) {
    forall t :: t in h'.sessions ==> t in h.sessions && h.sessions[t].out <= h'.sessions[t].out
  }

  lemma HandleGrows<S>(h: H.HubState<S>, t: S, req: H.Request, env: H.Env<S>)
    requires t in h.sessions
    ensures Grew(h, H.Handle(h, t, req, env))
  {
    if req.Relay? || req.RelayClose? {
      hide HubStore.Less;
    } else {
      HR.HandleNoFrames(h, t, req, env);
      hide H.Handle;
    }
  }

  lemma LeaveGrows<S>(h: H.HubState<S>, t: S, env: H.Env<S>)
    requires t in h.sessions
    ensures var h' := H.Leave(h, t, env);
      && h'.sessions.Keys == h.sessions.Keys - {t} && Grew(h, h')
      && (forall u :: u in h'.sessions ==> h'.sessions[u].id == h.sessions[u].id)
      && forall u :: u in h'.sessions ==>
           forall m :: m in h'.sessions[u].out[|h.sessions[u].out|..] ==> !H.ForChannel(m)
  {
    hide H.Broadcast;
    var id := h.sessions[t].id;
    var h1 := h.(clients := if id != "" then h.clients - {id} else h.clients, sessions := h.sessions - {t});
    HR.BroadcastKeeps(h1, env);
  }

  /** Sessions keep being what they are. */
  lemma SessionsKept<S>(w: Whole<S>, w': Whole<S>)
    requires WholeOk(w) && HR.RegistryOk(w'.hub) && Grew(w.hub, w'.hub)
    requires w'.owner == w.owner && w'.conn == w.conn && w'.read == w.read
    requires forall t :: t in w'.hub.sessions ==>
      w'.hub.sessions[t].id == w.hub.sessions[t].id || w'.hub.sessions[t].id == w.owner[t]
    ensures WholeOk(w')
  {
    hide HR.RegistryOk;
    forall t | t in w'.hub.sessions
      ensures SessionOk(w', t)
    {
      assert SessionOk(w, t);
    }
  }

  lemma WholeStep<S>(w: Whole<S>, a: Move<S>, k: Codec)
    requires WholeOk(w) && Possible(w, a)
    ensures WholeOk(Next(w, a, k))
  {
    hide H.Handle, H.Leave, HR.RegistryOk, HandleMessage, LocalStep, OpenChannel, Allowed, HR.Step;
    var w' := Next(w, a, k);
    HubSteps(w, a, k);
    if HubAct(w, a, k).Some? {
      HR.StepOk(w.hub, HubAct(w, a, k).value, w'.hub);
    }
    match a
    case Serve(s, req, henv) =>
      HR.HandleIds(w.hub, s, req, henv);
      HandleGrows(w.hub, s, req, henv);
      SessionsKept(w, w');
    case Transmit(id, henv) =>
      var req := RequestOf(w.daemons[id].send[0], k);
      HR.HandleIds(w.hub, w.conn[id], req, henv);
      HandleGrows(w.hub, w.conn[id], req, henv);
      SessionsKept(w, w');
    case Hangup(s, henv) =>
      LeaveGrows(w.hub, s, henv);
      SessionsKept(w, w');
    case Dial(s, id) => DialOk(w, s, id);
    case Deliver(id, env) => ReadOk(w, w', id);
    case Skip(id) => ReadOk(w, w', id);
    case _ => SessionsKept(w, w');
  }

  lemma DialOk<S>(w: Whole<S>, s: S, id: string)
    requires WholeOk(w) && s !in w.owner && s !in w.hub.sessions && id != "" && HR.RegistryOk(H.Connect(w.hub, s))
    ensures WholeOk(w.(hub := H.Connect(w.hub, s), owner := w.owner[s := id], conn := w.conn[id := s],
                       read := w.read[s := 0]))
  {
    hide HR.RegistryOk;
    assert forall t :: t in w.hub.sessions ==> SessionOk(w, t);
  }

  lemma ReadOk<S>(w: Whole<S>, w': Whole<S>, id: string)
    requires WholeOk(w) && Online(w, id) && Unread(w, id) != []
    requires w'.hub == w.hub && w'.owner == w.owner && w'.conn == w.conn && w'.read == ReadOne(w, id)
    ensures WholeOk(w')
  {
    hide HR.RegistryOk;
    forall t | t in w.hub.sessions
      ensures SessionOk(w', t)
    {
      assert SessionOk(w, t);
    }
  }

  // --- what a move does to the inboxes ---------------------------------------------------------

  /** A queue that grew by nothing about channels. */
  lemma SameDeliveries(out: seq<H.Message>, out': seq<H.Message>, n: nat, k: Codec)
    requires out <= out' && n <= |out| && forall m :: m in out'[|out|..] ==> !H.ForChannel(m)
    ensures Deliveries(out'[n..], k) == Deliveries(out[n..], k)
  {
    assert out'[n..] == out[n..] + out'[|out|..];
    DeliveriesAppend(out[n..], out'[|out|..], k);
    NoDeliveries(out'[|out|..], k);
  }

  /** The queues of the sessions in both states grew by nothing about channels. */
  lemma SameInbox<S>(w: Whole<S>, w': Whole<S>, id: string, k: Codec)
    requires WholeOk(w) && w'.conn == w.conn && w'.read == w.read
    requires id in w.conn && w.conn[id] in w.hub.sessions ==>
      && w.conn[id] in w'.hub.sessions && w.hub.sessions[w.conn[id]].out <= w'.hub.sessions[w.conn[id]].out
      && forall m :: m in w'.hub.sessions[w.conn[id]].out[|w.hub.sessions[w.conn[id]].out|..] ==> !H.ForChannel(m)
    requires id in w.conn && w.conn[id] !in w.hub.sessions ==> w.conn[id] !in w'.hub.sessions
    ensures InboxOf(w', id, k) == InboxOf(w, id, k)
  {
    hide HR.RegistryOk;
    if id in w.conn && w.conn[id] in w.hub.sessions {
      var t := w.conn[id];
      assert SessionOk(w, t);
      SameDeliveries(w.hub.sessions[t].out, w'.hub.sessions[t].out, w.read[t], k);
    }
  }

  /** One message was queued for session u. */
  lemma QueuedInbox<S>(w: Whole<S>, u: S, m: H.Message, id: string, k: Codec)
    requires WholeOk(w) && u in w.hub.sessions
    ensures var w' := w.(hub := H.Queue(w.hub, u, m));
      InboxOf(w', id, k)
        == InboxOf(w, id, k) + if id in w.conn && w.conn[id] == u && H.ForChannel(m) then [Decoded(m, k)] else []
  {
    hide HR.RegistryOk;
    if id in w.conn && w.conn[id] == u {
      assert SessionOk(w, u);
      var out, n := w.hub.sessions[u].out, w.read[u];
      assert (out + [m])[n..] == out[n..] + [m];
      DeliveriesAppend(out[n..], [m], k);
      OneDelivery(m, k);
    }
  }

  /** The daemon's session has one message less for it. */
  lemma ReadInbox<S>(w: Whole<S>, id: string, other: string, k: Codec)
    requires WholeOk(w) && Online(w, id) && Unread(w, id) != []
    ensures var w', m := w.(read := ReadOne(w, id)), Unread(w, id)[0];
      && (H.ForChannel(m) ==> InboxOf(w, id, k) != [] && InboxOf(w, id, k)[0] == Decoded(m, k)
                              && InboxOf(w', id, k) == InboxOf(w, id, k)[1..])
      && (!H.ForChannel(m) ==> InboxOf(w', id, k) == InboxOf(w, id, k))
      && (other != id ==> InboxOf(w', other, k) == InboxOf(w, other, k))
  {
    hide Deliveries, Decoded, H.ForChannel;
    ReadQueue(w, id, other);
    FirstDelivery(Unread(w, id), k);
  }

  lemma ReadQueue<S>(w: Whole<S>, id: string, other: string)
    requires WholeOk(w) && Online(w, id) && Unread(w, id) != []
    ensures var w' := w.(read := ReadOne(w, id));
      Unread(w', id) == Unread(w, id)[1..] && (other != id ==> Unread(w', other) == Unread(w, other))
  {
    hide HR.RegistryOk;
    assert SessionOk(w, w.conn[id]);
  }

  lemma FirstDelivery(q: seq<H.Message>, k: Codec)
    requires q != []
    ensures if H.ForChannel(q[0]) then
        Deliveries(q, k) == [Decoded(q[0], k)] + Deliveries(q[1..], k)
      else Deliveries(q[1..], k) == Deliveries(q, k)
  {
    hide Deliveries, Decoded, H.ForChannel;
    assert q == [q[0]] + q[1..];
    DeliveriesAppend([q[0]], q[1..], k);
    OneDelivery(q[0], k);
  }

  // --- runs of the relay system built along the way ---------------------------------------------

  /** The relay system is where the whole is. */
  ghost predicate Rel<S>(w: Whole<S>, s: System, k: Codec) {
    s.daemons == w.daemons && s.opens.Keys == w.drawn && forall id :: id in s.inbox ==> s.inbox[id] == InboxOf(w, id, k)
  }

  /** A channel of which nothing was lost still has nothing lost. */
  predicate CleanKept(s: System, s': System, cid: string) {
    cid in s.opens && s.opens[cid].clean ==> cid in s'.opens && s'.opens[cid].clean
  }

  lemma Extend(ss: seq<System>, acts: seq<Act>, a: Act) returns (ss': seq<System>, acts': seq<Act>)
    requires R.Run(ss, acts) && Enabled(ss[|acts|], a)
    ensures R.Run(ss', acts') && ss <= ss' && acts' == acts + [a] && ss'[|acts'|] == Step(ss[|acts|], a)
    ensures forall cid :: !R.Disturbs(ss[|acts|], a, cid) ==> CleanKept(ss[|acts|], ss'[|acts'|], cid)
  {
    hide Enabled, Step, Start, R.Disturbs, C.Inv, Routed;
    ss', acts' := ss + [Step(ss[|acts|], a)], acts + [a];
    R.RunOk(ss, acts, |acts|, "");
    forall cid
      ensures !R.Disturbs(ss[|acts|], a, cid) ==> CleanKept(ss[|acts|], Step(ss[|acts|], a), cid)
    {
      R.FlagsStep(ss[|acts|], a, cid);
    }
  }

  /** The run goes on with losses only. */
  ghost predicate OnlyLosses(acts: seq<Act>, acts': seq<Act>) {
    acts <= acts' && forall j :: |acts| <= j < |acts'| ==> acts'[j].LoseAt?
  }

  /** Channels none of whose messages are in the queue. */
  predicate Without(q: seq<Delivery>, cid: string) {
    forall i :: 0 <= i < |q| ==> q[i].channel != cid
  }

  /** The inboxes of the given machines have no message of the channel. */
  ghost predicate NoneOf(s: System, ids: set<string>, cid: string) {
    forall id :: id in ids && id in s.inbox ==> Without(s.inbox[id], cid)
  }

  /** Two states that differ only in inboxes and flags, flags of the given kind of channel kept. */
  ghost predicate Lost(s: System, s': System, ids: set<string>) {
    && s'.daemons == s.daemons && s'.opens.Keys == s.opens.Keys && s'.inbox.Keys == s.inbox.Keys
    && (forall id :: id in s.inbox ==> s'.inbox[id] == if id in ids then [] else s.inbox[id])
    && (forall cid :: NoneOf(s, ids, cid) ==> CleanKept(s, s', cid))
  }

  lemma LoseFirst(s: System, id: string)
    requires Machines(s) && id in s.inbox && s.inbox[id] != []
    ensures var a := LoseAt(id, 0);
      && Enabled(s, a) && Step(s, a).daemons == s.daemons && Step(s, a).opens.Keys == s.opens.Keys
      && Step(s, a).inbox == s.inbox[id := s.inbox[id][1..]]
      && forall cid :: R.Disturbs(s, a, cid) <==> s.inbox[id][0].channel == cid
  {
    assert C.Remove(s.inbox[id], 0) == s.inbox[id][1..];
  }

  /** A queue nobody reads any more: its messages are lost one by one. */
  lemma LoseAll(ss: seq<System>, acts: seq<Act>, id: string) returns (ss': seq<System>, acts': seq<Act>)
    requires R.Run(ss, acts) && id in ss[|acts|].inbox
    ensures R.Run(ss', acts') && ss <= ss' && OnlyLosses(acts, acts') && Lost(ss[|acts|], ss'[|acts'|], {id})
    decreases |ss[|acts|].inbox[id]|
  {
    hide Enabled, Step, Start, R.Disturbs, C.Inv, DaemonOk, InboxOk, OpensOk, Without;
    var s := ss[|acts|];
    if s.inbox[id] == [] {
      ss', acts' := ss, acts;
    } else {
      R.RunOk(ss, acts, |acts|, "");
      LoseFirst(s, id);
      var ss1, acts1 := Extend(ss, acts, LoseAt(id, 0));
      ss', acts' := LoseAll(ss1, acts1, id);
      LostMore(s, ss1[|acts1|], ss'[|acts'|], id);
    }
  }

  lemma LostMore(s: System, s1: System, s': System, id: string)
    requires id in s.inbox && s.inbox[id] != []
    requires s1.daemons == s.daemons && s1.opens.Keys == s.opens.Keys && s1.inbox == s.inbox[id := s.inbox[id][1..]]
    requires forall cid :: s.inbox[id][0].channel != cid ==> CleanKept(s, s1, cid)
    requires Lost(s1, s', {id})
    ensures Lost(s, s', {id})
  {
    forall cid | NoneOf(s, {id}, cid)
      ensures CleanKept(s, s', cid)
    {
      assert Without(s.inbox[id], cid) && s.inbox[id][0].channel != cid;
      assert NoneOf(s1, {id}, cid) && CleanKept(s, s1, cid) && CleanKept(s1, s', cid);
    }
  }

  lemma {:induction false} LoseSet(ss: seq<System>, acts: seq<Act>, ids: set<string>)
    returns (ss': seq<System>, acts': seq<Act>)
    requires R.Run(ss, acts) && ids <= ss[|acts|].inbox.Keys
    ensures R.Run(ss', acts') && ss <= ss' && OnlyLosses(acts, acts') && Lost(ss[|acts|], ss'[|acts'|], ids)
    decreases ids
  {
    hide Enabled, Step, Start, Without, Lost;
    ss', acts' := ss, acts;
    if id :| id in ids {
      ss', acts' := LoseAll(ss, acts, id);
      var s1 := ss'[|acts'|];
      KeysLost(ss[|acts|], s1, {id});
      ss', acts' := LoseSet(ss', acts', ids - {id});
      LostBoth(ss[|acts|], s1, ss'[|acts'|], id, ids);
    } else {
      NothingLost(ss[|acts|], ids);
    }
  }

  lemma KeysLost(s: System, s': System, ids: set<string>)
    requires Lost(s, s', ids)
    ensures s'.inbox.Keys == s.inbox.Keys
  {}

  lemma NothingLost(s: System, ids: set<string>)
    requires ids == {}
    ensures Lost(s, s, ids)
  {}

  lemma LostBoth(s: System, s1: System, s': System, id: string, ids: set<string>)
    requires Lost(s, s1, {id}) && Lost(s1, s', ids - {id}) && id in ids
    ensures Lost(s, s', ids)
  {
    hide Without;
    forall cid | NoneOf(s, ids, cid)
      ensures CleanKept(s, s', cid)
    {
      assert NoneOf(s, {id}, cid) && NoneOf(s1, ids - {id}, cid);
    }
  }

  // --- one move at a time -------------------------------------------------------------------------

  /** The hub puts the daemon's next relay or close on the queue its addressee reads. */
  predicate Passes<S>(w: Whole<S>, id: string, henv: H.Env<S>)
    requires Online(w, id) && w.daemons[id].send != []
  {
    var h, p := w.hub, w.daemons[id].send[0];
    && h.sessions[w.conn[id]].id != "" && p.to != "" && p.channel != ""
    && (p.Relay? ==> H.HasAclOp !in henv.fails && HubStore.Authorised(h.tables, h.sessions[w.conn[id]].id, p.to))
    && p.to in h.clients && h.clients[p.to] !in henv.lostReplies
    && p.to in w.conn && w.conn[p.to] == h.clients[p.to]
  }

  /** The hub answers a relay with an error. */
  predicate Rejects<S>(w: Whole<S>, id: string, henv: H.Env<S>)
    requires Online(w, id) && w.daemons[id].send != []
  {
    var h, p, t := w.hub, w.daemons[id].send[0], w.conn[id];
    && p.Relay? && h.sessions[t].id != "" && p.to != "" && p.channel != "" && H.HasAclOp !in henv.fails
    && (!HubStore.Authorised(h.tables, h.sessions[t].id, p.to) || p.to !in h.clients) && t !in henv.lostReplies
  }

  function VerdictOf<S>(w: Whole<S>, id: string, henv: H.Env<S>): Verdict
    requires Online(w, id) && w.daemons[id].send != []
  {
    if Passes(w, id, henv) then Forward else if Rejects(w, id, henv) then Reject else Ignore
  }

  /** What handling the packet does to the sessions. */
  function AfterPacket<S>(w: Whole<S>, id: string, henv: H.Env<S>, k: Codec): H.HubState<S>
    requires Online(w, id) && w.daemons[id].send != []
  {
    H.Handle(w.hub, w.conn[id], RequestOf(w.daemons[id].send[0], k), henv)
  }

  /** The message the hub makes of a packet. */
  function Carried(from: string, p: Packet, k: Codec): H.Message {
    match p
    case Relay(_, cid, service, dial, data) => H.Relayed(from, cid, ServiceName(service), dial, k.text(data))
    case RelayClose(_, cid) => H.Closed(from, cid)
  }

  lemma CarriedBack(from: string, p: Packet, k: Codec)
    requires Inverts(k)
    ensures H.ForChannel(Carried(from, p, k)) && Decoded(Carried(from, p, k), k) == Forwarded(from, p)
  {
    if p.Relay? {
      NamesInvert(p.service);
      assert k.unbox(k.text(p.data)) == p.data;
    }
  }

  /** The hub queues at most one message: the carried one for the session registered under the
      address, or an error for the sender. */
  lemma PacketHandled<S>(w: Whole<S>, id: string, henv: H.Env<S>, k: Codec)
    requires WholeOk(w) && Online(w, id) && w.daemons[id].send != []
    ensures var h', p, from := AfterPacket(w, id, henv, k), w.daemons[id].send[0], w.hub.sessions[w.conn[id]].id;
      && (Passes(w, id, henv) ==> h' == H.Queue(w.hub, w.hub.clients[p.to], Carried(from, p, k)))
      && (Rejects(w, id, henv) ==> h' == H.Queue(w.hub, w.conn[id], H.Error(p.channel)))
      && (!Passes(w, id, henv) && !Rejects(w, id, henv) ==>
           h' == w.hub || (p.to in w.hub.clients && from != ""
                           && h' == H.Queue(w.hub, w.hub.clients[p.to], Carried(from, p, k))
                           && (p.to in w.conn ==> w.conn[p.to] != w.hub.clients[p.to])))
      && (Passes(w, id, henv) ==> from == id)
  {
    hide HubStore.Less, H.Queue;
    assert SessionOk(w, w.conn[id]);
  }

  /** A machine whose session a registered session is, is the one it is registered as. */
  lemma ReaderIsAddressee<S>(w: Whole<S>, to: string, id: string)
    requires WholeOk(w) && to in w.hub.clients && id in w.conn && w.conn[id] == w.hub.clients[to]
    ensures id == to
  {
    assert SessionOk(w, w.hub.clients[to]);
  }

  lemma TransmitRel<S>(w: Whole<S>, s: System, id: string, henv: H.Env<S>, k: Codec)
    requires WholeOk(w) && Rel(w, s, k) && Routed(s) && Inverts(k) && Possible(w, Transmit(id, henv))
    ensures var a := Hub(id, VerdictOf(w, id, henv));
      Enabled(s, a) && Rel(Next(w, Transmit(id, henv), k), Step(s, a), k)
  {
    hide HR.RegistryOk, H.Handle, Passes, Rejects, WholeOk, H.Queue, InboxOf, DaemonOk, InboxOk, Spoil, Decoded,
      H.ForChannel, Carried, Forwarded;
    var p, from, w' := w.daemons[id].send[0], w.hub.sessions[w.conn[id]].id, Next(w, Transmit(id, henv), k);
    QueueShorter(s, s.daemons[id]);
    PacketHandled(w, id, henv, k);
    PassesOrRejects(w, id, henv);
    CarriedBack(from, p, k);
    FailedBack(p.channel, k);
    SpoilKeeps(s, p.channel, true, false);
    forall x | x in s.inbox
      ensures Step(s, Hub(id, VerdictOf(w, id, henv))).inbox[x] == InboxOf(w', x, k)
    {
      PacketInbox(w, id, henv, x, k);
    }
  }

  lemma PassesOrRejects<S>(w: Whole<S>, id: string, henv: H.Env<S>)
    requires WholeOk(w) && Online(w, id) && w.daemons[id].send != []
    ensures !(Passes(w, id, henv) && Rejects(w, id, henv))
    ensures Passes(w, id, henv) ==> var to := w.daemons[id].send[0].to; to in w.conn && to in w.hub.clients
    ensures Rejects(w, id, henv) ==> w.daemons[id].send[0].Relay? && w.daemons[id].send[0].channel != ""
  {}

  lemma FailedBack(cid: string, k: Codec)
    ensures H.ForChannel(H.Error(cid)) <==> cid != ""
    ensures cid != "" ==> Decoded(H.Error(cid), k) == Failed(cid)
  {}

  /** What a packet does to each inbox. */
  lemma PacketInbox<S>(w: Whole<S>, id: string, henv: H.Env<S>, x: string, k: Codec)
    requires WholeOk(w) && Inverts(k) && Possible(w, Transmit(id, henv))
    ensures var p, from := w.daemons[id].send[0], w.hub.sessions[w.conn[id]].id;
      InboxOf(Next(w, Transmit(id, henv), k), x, k) == InboxOf(w, x, k) +
        (if Passes(w, id, henv) && x == p.to then [Forwarded(id, p)]
         else if Rejects(w, id, henv) && x == id then [Failed(p.channel)] else [])
  {
    hide HR.RegistryOk, H.Handle, Passes, Rejects, WholeOk, H.Queue, Decoded, H.ForChannel, Carried, Forwarded,
      Deliveries;
    var p, from, t := w.daemons[id].send[0], w.hub.sessions[w.conn[id]].id, w.conn[id];
    PacketHandled(w, id, henv, k);
    PassesOrRejects(w, id, henv);
    CarriedBack(from, p, k);
    FailedBack(p.channel, k);
    OwnSession(w, id);
    if p.to in w.hub.clients {
      RegisteredIsOpen(w, p.to);
      QueuedInbox(w, w.hub.clients[p.to], Carried(from, p, k), x, k);
      if x in w.conn && w.conn[x] == w.hub.clients[p.to] { ReaderIsAddressee(w, p.to, x); }
    }
    QueuedInbox(w, t, H.Error(p.channel), x, k);
    if x in w.conn && w.conn[x] == t { OneReader(w, x, id); }
    if Passes(w, id, henv) { ReadByAddressee(w, id, henv); }
  }

  lemma ReadByAddressee<S>(w: Whole<S>, id: string, henv: H.Env<S>)
    requires Online(w, id) && w.daemons[id].send != [] && Passes(w, id, henv)
    ensures var to := w.daemons[id].send[0].to; to in w.conn && to in w.hub.clients && w.conn[to] == w.hub.clients[to]
  {}

  lemma OwnSession<S>(w: Whole<S>, id: string)
    requires WholeOk(w) && Online(w, id)
    ensures w.hub.sessions[w.conn[id]].id == "" || w.hub.sessions[w.conn[id]].id == id
  {
    assert SessionOk(w, w.conn[id]);
  }

  lemma RegisteredIsOpen<S>(w: Whole<S>, to: string)
    requires WholeOk(w) && to in w.hub.clients
    ensures w.hub.clients[to] in w.hub.sessions
  {}

  lemma OneReader<S>(w: Whole<S>, x: string, id: string)
    requires WholeOk(w) && x in w.conn && id in w.conn && w.conn[x] == w.conn[id]
    ensures x == id
  {}

  lemma ServeRel<S>(w: Whole<S>, s: System, a: Move<S>, k: Codec)
    requires WholeOk(w) && Rel(w, s, k) && Possible(w, a) && a.Serve?
    ensures Rel(Next(w, a, k), s, k)
  {
    hide HR.RegistryOk, H.Handle, H.ForChannel, InboxOf;
    HR.HandleNoFrames(w.hub, a.s, a.req, a.henv);
    forall id | id in s.inbox
      ensures InboxOf(Next(w, a, k), id, k) == InboxOf(w, id, k)
    {
      SameInbox(w, Next(w, a, k), id, k);
    }
  }

  lemma DropRel<S>(w: Whole<S>, s: System, id: string, k: Codec)
    requires Rel(w, s, k) && Routed(s) && Possible(w, Move<S>.Drop(id))
    ensures var a := Hub(id, Ignore); Enabled(s, a) && Rel(Next(w, Move<S>.Drop(id), k), Step(s, a), k)
  {
    hide DaemonOk, InboxOk, InboxOf, Spoil;
    SpoilKeeps(s, w.daemons[id].send[0].channel, true, false);
    SameSessions(w, Next(w, Move<S>.Drop(id), k), k);
  }

  /** The inboxes are made of sessions alone. */
  lemma SameSessions<S>(w: Whole<S>, w': Whole<S>, k: Codec)
    requires w'.hub == w.hub && w'.conn == w.conn && w'.read == w.read
    ensures forall id :: InboxOf(w', id, k) == InboxOf(w, id, k)
  {
    hide Deliveries;
  }

  lemma OpenRel<S>(w: Whole<S>, s: System, a: Move<S>, k: Codec)
    requires Rel(w, s, k) && Routed(s) && Possible(w, a) && a.OpenTo?
    ensures var sa := Act.OpenTo(a.me, a.peer, a.cid, a.service, a.dial, a.sealOk);
      Enabled(s, sa) && Rel(Next(w, a, k), Step(s, sa), k) && Step(s, sa).opens[a.cid].clean == a.sealOk
  {
    hide DaemonOk, InboxOk, InboxOf, OpenChannel;
    SameSessions(w, Next(w, a, k), k);
  }

  lemma LocalRel<S>(w: Whole<S>, s: System, a: Move<S>, k: Codec)
    requires Rel(w, s, k) && Routed(s) && Possible(w, a) && a.LocalAt?
    ensures var sa := Act.LocalAt(a.me, a.cid, a.op); Enabled(s, sa) && Rel(Next(w, a, k), Step(s, sa), k)
  {
    hide DaemonOk, InboxOk, InboxOf, LocalStep, Allowed, Spoil;
    SpoilKeeps(s, a.cid, false, C.KeyFailure(a.op));
    SameSessions(w, Next(w, a, k), k);
  }

  /** Reading takes the first message of one inbox, if it is about a channel. */
  lemma ReadInboxes<S>(w: Whole<S>, s: System, id: string, k: Codec)
    requires WholeOk(w) && Rel(w, s, k) && Online(w, id) && Unread(w, id) != [] && id in s.inbox
    ensures var w', m := w.(read := ReadOne(w, id)), Unread(w, id)[0];
      if H.ForChannel(m) then
        && s.inbox[id] != [] && s.inbox[id][0] == Decoded(m, k)
        && forall x :: x in s.inbox ==> s.inbox[id := s.inbox[id][1..]][x] == InboxOf(w', x, k)
      else forall x :: x in s.inbox ==> s.inbox[x] == InboxOf(w', x, k)
  {
    hide InboxOf, HR.RegistryOk, Decoded, H.ForChannel, Unread, WholeOk;
    ReadInbox(w, id, id, k);
    forall x | x in s.inbox && x != id
      ensures InboxOf(w.(read := ReadOne(w, id)), x, k) == s.inbox[x]
    {
      ReadInbox(w, id, x, k);
    }
  }

  lemma ReadRel<S>(w: Whole<S>, s: System, a: Move<S>, k: Codec)
    requires WholeOk(w) && Rel(w, s, k) && Routed(s) && Possible(w, a) && (a.Deliver? || a.Skip?)
    ensures var m := Unread(w, a.id)[0];
      if H.ForChannel(m) then
        var sa := if a.Deliver? then Handle(a.id, a.env) else LoseAt(a.id, 0);
        && Enabled(s, sa) && s.inbox[a.id] != [] && s.inbox[a.id][0] == Decoded(m, k)
        && Rel(Next(w, a, k), Step(s, sa), k)
      else Rel(Next(w, a, k), s, k)
  {
    hide DaemonOk, InboxOk, InboxOf, HandleMessage, Spoil, HR.RegistryOk, Decoded, H.ForChannel, Unread, WholeOk;
    ReadInboxes(w, s, a.id, k);
    SameSessions(w.(read := ReadOne(w, a.id)), Next(w, a, k), k);
    if H.ForChannel(Unread(w, a.id)[0]) {
      var m := s.inbox[a.id][0];
      if a.Deliver? {
        SpoilKeeps(s, m.channel, false, C.EnvFailure(a.env));
      } else {
        SpoilKeeps(s, m.channel, true, false);
        assert C.Remove(s.inbox[a.id], 0) == s.inbox[a.id][1..];
      }
    } else {
      assert w.daemons[a.id := w.daemons[a.id]] == w.daemons;
    }
  }

  /** The machines whose unread messages a move throws away. */
  ghost function Abandoned<S>(w: Whole<S>, a: Move<S>): set<string> {
    match a
    case Dial(_, id) => {id}
    case Hangup(s, _) => set id | id in w.conn && w.conn[id] == s
    case Restart => w.conn.Keys
    case _ => {}
  }

  lemma AbandonRel<S>(w: Whole<S>, s: System, s': System, a: Move<S>, k: Codec)
    requires WholeOk(w) && Rel(w, s, k) && Possible(w, a) && (a.Dial? || a.Hangup? || a.Restart?)
    requires Lost(s, s', Abandoned(w, a) * s.inbox.Keys)
    ensures Rel(Next(w, a, k), s', k)
  {
    hide HR.RegistryOk, H.Leave, H.ForChannel, InboxOf, CleanKept;
    var w' := Next(w, a, k);
    if a.Hangup? { LeaveGrows(w.hub, a.s, a.henv); }
    forall id | id in s'.inbox
      ensures s'.inbox[id] == InboxOf(w', id, k)
    {
      if id in Abandoned(w, a) {
        NothingUnread(w', id, k);
      } else if a.Hangup? {
        SameInbox(w, w', id, k);
      } else {
        SameQueue(w, w', id, k);
      }
    }
  }

  lemma NothingUnread<S>(w: Whole<S>, id: string, k: Codec)
    requires id in w.conn && w.conn[id] in w.hub.sessions && w.conn[id] in w.read ==>
      w.read[w.conn[id]] >= |w.hub.sessions[w.conn[id]].out|
    ensures InboxOf(w, id, k) == []
  {}

  lemma SameQueue<S>(w: Whole<S>, w': Whole<S>, id: string, k: Codec)
    requires id in w.conn <==> id in w'.conn
    requires id in w.conn ==> w'.conn[id] == w.conn[id]
    requires id in w.conn ==> Pending(w', w.conn[id]) == Pending(w, w.conn[id])
    ensures InboxOf(w', id, k) == InboxOf(w, id, k)
  {
    hide Deliveries, Pending;
  }

  /** Nothing of the channel is lost or refused in this move, and no key it needs is missing. */
  ghost predicate Calm<S>(w: Whole<S>, a: Move<S>, cid: string, k: Codec)
    requires Possible(w, a)
  {
    match a
    case Transmit(id, henv) => w.daemons[id].send[0].channel == cid ==> Passes(w, id, henv)
    case Drop(id) => w.daemons[id].send[0].channel != cid
    case Deliver(id, env) => About(Unread(w, id)[0], cid) ==> !C.EnvFailure(env)
    case Skip(id) => !About(Unread(w, id)[0], cid)
    case OpenTo(_, _, c, _, _, sealOk) => c == cid ==> sealOk
    case LocalAt(_, c, op) => c == cid ==> !C.KeyFailure(op)
    case _ => forall id :: id in Abandoned(w, a) ==> Without(InboxOf(w, id, k), cid)
  }

  predicate About(m: H.Message, cid: string) {
    H.ForChannel(m) && m.channel == cid
  }

  /** The step of the relay system a move is, if it is one. */
  function StepOf<S>(w: Whole<S>, a: Move<S>): Option<Act>
    requires Possible(w, a)
  {
    match a
    case Transmit(id, henv) => Some(Hub(id, VerdictOf(w, id, henv)))
    case Drop(id) => Some(Hub(id, Ignore))
    case Deliver(id, env) => if H.ForChannel(Unread(w, id)[0]) then Some(Handle(id, env)) else None
    case Skip(id) => if H.ForChannel(Unread(w, id)[0]) then Some(LoseAt(id, 0)) else None
    case OpenTo(me, peer, cid, service, dial, sealOk) => Some(Act.OpenTo(me, peer, cid, service, dial, sealOk))
    case LocalAt(me, cid, op) => Some(Act.LocalAt(me, cid, op))
    case _ => None
  }

  /** The steps from p to q are those of the move: its one step, or losses only. */
  ghost predicate Does<S>(w: Whole<S>, a: Move<S>, acts: seq<Act>, p: nat, q: nat)
    requires Possible(w, a)
  {
    && p <= q <= |acts|
    && match StepOf(w, a)
       case Some(sa) => q == p + 1 && acts[p] == sa
       case None => forall j :: p <= j < q ==> acts[j].LoseAt?
  }

  /** Where one move leads. */
  ghost predicate Leads<S>(w: Whole<S>, a: Move<S>, s: System, s': System, k: Codec)
    requires Possible(w, a)
  {
    && Rel(Next(w, a, k), s', k)
    && (forall cid :: Calm(w, a, cid, k) ==> CleanKept(s, s', cid))
    && (a.OpenTo? ==> a.cid in s'.opens && s'.opens[a.cid].clean == a.sealOk)
  }

  lemma OneAct<S>(ss: seq<System>, acts: seq<Act>, w: Whole<S>, a: Move<S>, k: Codec, sa: Act)
    returns (ss': seq<System>, acts': seq<Act>)
    requires R.Run(ss, acts) && Possible(w, a) && Enabled(ss[|acts|], sa) && Rel(Next(w, a, k), Step(ss[|acts|], sa), k)
    requires forall cid :: Calm(w, a, cid, k) ==> !R.Disturbs(ss[|acts|], sa, cid)
    requires a.OpenTo? ==> a.cid in Step(ss[|acts|], sa).opens && Step(ss[|acts|], sa).opens[a.cid].clean == a.sealOk
    requires StepOf(w, a) == Some(sa)
    ensures R.Run(ss', acts') && Leads(w, a, ss[|acts|], ss'[|acts'|], k)
    ensures ss <= ss' && acts <= acts' && Does(w, a, acts', |acts|, |acts'|)
  {
    hide Enabled, Step, Start, R.Disturbs, Calm, Rel, Next, CleanKept, Possible, StepOf;
    ss', acts' := Extend(ss, acts, sa);
  }

  lemma PacketDisturbs<S>(w: Whole<S>, s: System, id: string, verdict: Verdict, k: Codec)
    requires Rel(w, s, k) && Enabled(s, Hub(id, verdict)) && id in w.daemons
    ensures forall cid :: R.Disturbs(s, Hub(id, verdict), cid) <==>
      w.daemons[id].send[0].channel == cid && !verdict.Forward?
  {}

  lemma ReadDisturbs<S>(w: Whole<S>, s: System, a: Move<S>, k: Codec)
    requires Rel(w, s, k) && Possible(w, a) && (a.Deliver? || a.Skip?) && H.ForChannel(Unread(w, a.id)[0])
    requires a.id in s.inbox && s.inbox[a.id] != [] && s.inbox[a.id][0] == Decoded(Unread(w, a.id)[0], k)
    requires Enabled(s, if a.Deliver? then Handle(a.id, a.env) else LoseAt(a.id, 0))
    ensures forall cid :: Calm(w, a, cid, k) ==>
      !R.Disturbs(s, if a.Deliver? then Handle(a.id, a.env) else LoseAt(a.id, 0), cid)
  {
    hide InboxOf;
  }

  lemma ActDisturbs<S>(w: Whole<S>, s: System, a: Move<S>, k: Codec)
    requires Possible(w, a)
    ensures a.OpenTo? ==>
      var sa := Act.OpenTo(a.me, a.peer, a.cid, a.service, a.dial, a.sealOk);
      Enabled(s, sa) ==> forall cid :: Calm(w, a, cid, k) ==> !R.Disturbs(s, sa, cid)
    ensures a.LocalAt? ==>
      var sa := Act.LocalAt(a.me, a.cid, a.op);
      Enabled(s, sa) ==> forall cid :: Calm(w, a, cid, k) ==> !R.Disturbs(s, sa, cid)
  {
    hide Allowed, C.KeyFailure;
  }

  /** A move of the whole is a run of steps of the relay system. */
  lemma Simulated<S>(ss: seq<System>, acts: seq<Act>, w: Whole<S>, a: Move<S>, k: Codec)
    returns (ss': seq<System>, acts': seq<Act>)
    requires R.Run(ss, acts) && WholeOk(w) && Rel(w, ss[|acts|], k) && Inverts(k) && Possible(w, a)
    ensures R.Run(ss', acts') && Leads(w, a, ss[|acts|], ss'[|acts'|], k)
    ensures ss <= ss' && acts <= acts' && Does(w, a, acts', |acts|, |acts'|)
  {
    hide Enabled, Step, Start, R.Disturbs, C.Inv, Rel, Next, WholeOk, Inverts, InboxOf, Decoded, Routed, Passes, Lost;
    var s := ss[|acts|];
    R.RunOk(ss, acts, |acts|, "");
    SameMachines(w, s, k);
    match a
    case Serve(_, _, _) =>
      ServeRel(w, s, a, k);
      ss', acts' := ss, acts;
    case Transmit(id, henv) =>
      TransmitRel(w, s, id, henv, k);
      PacketDisturbs(w, s, id, VerdictOf(w, id, henv), k);
      ss', acts' := OneAct(ss, acts, w, a, k, Hub(id, VerdictOf(w, id, henv)));
    case Drop(id) =>
      DropRel(w, s, id, k);
      PacketDisturbs(w, s, id, Ignore, k);
      ss', acts' := OneAct(ss, acts, w, a, k, Hub(id, Ignore));
    case Deliver(id, env) => ss', acts' := ReadSimulated(ss, acts, w, a, k);
    case Skip(id) => ss', acts' := ReadSimulated(ss, acts, w, a, k);
    case OpenTo(me, peer, cid, service, dial, sealOk) =>
      OpenRel(w, s, a, k);
      ActDisturbs(w, s, a, k);
      OpenedIn(w, a, Step(s, Act.OpenTo(me, peer, cid, service, dial, sealOk)), k);
      ss', acts' := OneAct(ss, acts, w, a, k, Act.OpenTo(me, peer, cid, service, dial, sealOk));
    case LocalAt(me, cid, op) =>
      LocalRel(w, s, a, k);
      ActDisturbs(w, s, a, k);
      ss', acts' := OneAct(ss, acts, w, a, k, Act.LocalAt(me, cid, op));
    case _ =>
      ss', acts' := LoseSet(ss, acts, Abandoned(w, a) * s.inbox.Keys);
      AbandonRel(w, s, ss'[|acts'|], a, k);
      AbandonCalm(w, s, ss'[|acts'|], a, k);
  }

  lemma SameMachines<S>(w: Whole<S>, s: System, k: Codec)
    requires Rel(w, s, k) && Routed(s)
    ensures s.daemons == w.daemons && s.inbox.Keys == w.daemons.Keys
  {}

  lemma OpenedIn<S>(w: Whole<S>, a: Move<S>, s': System, k: Codec)
    requires Possible(w, a) && a.OpenTo? && Rel(Next(w, a, k), s', k)
    ensures a.cid in s'.opens
  {}

  lemma ReadSimulated<S>(ss: seq<System>, acts: seq<Act>, w: Whole<S>, a: Move<S>, k: Codec)
    returns (ss': seq<System>, acts': seq<Act>)
    requires R.Run(ss, acts) && WholeOk(w) && Rel(w, ss[|acts|], k) && Possible(w, a) && (a.Deliver? || a.Skip?)
    requires Routed(ss[|acts|]) && a.id in ss[|acts|].inbox
    ensures R.Run(ss', acts') && Leads(w, a, ss[|acts|], ss'[|acts'|], k)
    ensures ss <= ss' && acts <= acts' && Does(w, a, acts', |acts|, |acts'|)
  {
    hide Enabled, Step, Start, R.Disturbs, Rel, Next, WholeOk, InboxOf, Decoded, Routed, Calm, H.ForChannel;
    var s := ss[|acts|];
    ReadRel(w, s, a, k);
    if H.ForChannel(Unread(w, a.id)[0]) {
      ReadDisturbs(w, s, a, k);
      ss', acts' := OneAct(ss, acts, w, a, k, if a.Deliver? then Handle(a.id, a.env) else LoseAt(a.id, 0));
    } else {
      ss', acts' := ss, acts;
    }
  }

  lemma AbandonCalm<S>(w: Whole<S>, s: System, s': System, a: Move<S>, k: Codec)
    requires Rel(w, s, k) && Possible(w, a) && (a.Dial? || a.Hangup? || a.Restart?)
    requires Lost(s, s', Abandoned(w, a) * s.inbox.Keys)
    ensures forall cid :: Calm(w, a, cid, k) ==> CleanKept(s, s', cid)
  {
    hide InboxOf, CleanKept, Without, Abandoned;
    forall cid | Calm(w, a, cid, k)
      ensures CleanKept(s, s', cid)
    {
      assert NoneOf(s, Abandoned(w, a) * s.inbox.Keys, cid);
    }
  }
}
