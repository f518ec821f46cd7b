/** The machine list as the daemons see it: updates broadcast by the hub, and the peer
    cache each daemon builds from them. */
module HubPeers {
  import opened HubStore
  import opened HubModel
  import opened HubRuns

  type Peers = map<string, MachineInfo>

  /** The cache a list stands for; a later line for the same id wins. */
  function PeersOf(list: seq<MachineInfo>): Peers {
    if list == [] then map[] else map[list[0].id := list[0]] + PeersOf(list[1..])
  }

  /** The daemon's cache is thrown away and rebuilt from the list. */
  method ReplacePeers(list: seq<MachineInfo>) returns (peers: Peers)
    ensures peers == PeersOf(list)
    ensures forall id :: id in peers ==> peers[id].id == id && peers[id] in list
  {
    peers := map[];
    var i := 0;
    while i < |list|
      invariant 0 <= i <= |list|
      invariant peers + PeersOf(list[i..]) == PeersOf(list)
      invariant forall id :: id in peers ==> peers[id].id == id && peers[id] in list
    {
      assert list[i..][1..] == list[i + 1..];
      ghost var before := peers;
      peers := peers[list[i].id := list[i]];
      assert before + (map[list[i].id := list[i]] + PeersOf(list[i + 1..])) == peers + PeersOf(list[i + 1..]);
      i := i + 1;
    }
    assert peers + PeersOf(list[i..]) == peers;
  }

  function HandleMessage(peers: Peers, m: Message): Peers {
    if m.Update? then PeersOf(m.machines) else peers
  }

  /** The cache after the messages of a queue, in order. */
  function ApplyAll(peers: Peers, queue: seq<Message>): Peers {
    if queue == [] then peers
    else HandleMessage(ApplyAll(peers, queue[..|queue| - 1]), queue[|queue| - 1])
  }

  lemma {:induction false} ApplyAppend(peers: Peers, q: seq<Message>, r: seq<Message>)
    ensures ApplyAll(peers, q + r) == ApplyAll(ApplyAll(peers, q), r)
  {
    if r == [] {
      assert q + r == q;
    } else {
      var n := |q + r| - 1;
      assert (q + r)[..n] == q + r[..|r| - 1];
      ApplyAppend(peers, q, r[..|r| - 1]);
    }
  }

  /** The machine list the hub stands for, keyed by id. */
  function Directory<S>(h: HubState<S>): Peers {
    map id | id in h.tables.machines :: InfoOf(h, id)
  }

  lemma OnlineIffRegistered<S>(h: HubState<S>, id: string)
    requires RegistryOk(h) && id in h.tables.machines
    ensures Directory(h)[id].online <==> exists s :: Registered(h, s) && h.sessions[s].id == id
  {
    if id in h.clients {
      assert Registered(h, h.clients[id]);
    }
  }

  /** The store listed every id it holds, in whatever order. */
  predicate RowsComplete(rows: seq<string>, t: Tables) {
    (set id | id in rows) == t.machines.Keys
  }

  lemma {:induction false} ListedPeers<S>(h: HubState<S>, rows: seq<string>)
    ensures PeersOf(Infos(h, rows, {})) == map id | id in rows :: InfoOf(h, id)
  {
    hide InfoOf;
    if rows != [] {
      ListedPeers(h, rows[1..]);
      InfoId(h, rows[0]);
      var rest := Infos(h, rows[1..], {});
      assert ([InfoOf(h, rows[0])] + rest)[1..] == rest;
      assert rows == [rows[0]] + rows[1..];
    }
  }

  lemma InfoId<S>(h: HubState<S>, id: string)
    ensures InfoOf(h, id).id == id
  {}

  lemma ListIsDirectory<S>(h: HubState<S>, env: Env<S>)
    requires env.fails == {} && RowsComplete(env.rows, h.tables)
    ensures PeersOf(MachineList(h, env)) == Directory(h)
  {
    hide InfoOf, Infos, PeersOf;
    ListedPeers(h, env.rows);
    assert forall id :: id in env.rows <==> id in (set id | id in env.rows);
  }

  /** Two states that agree on everything the list is made of. */
  ghost predicate SameDirectory<S>(h: HubState<S>, h': HubState<S>) {
    && h'.tables.machines == h.tables.machines && h'.clients == h.clients
    && h'.sessions.Keys == h.sessions.Keys
    && forall s :: s in h.sessions ==>
      h'.sessions[s].id == h.sessions[s].id && h'.sessions[s].name == h.sessions[s].name
  }

  lemma DirectoryKept<S>(h: HubState<S>, h': HubState<S>)
    requires SameDirectory(h, h')
    ensures Directory(h') == Directory(h)
    ensures forall s :: Registered(h', s) <==> Registered(h, s)
  {}

  /** Whatever the daemon knew before, its queue brings its cache up to date. */
  ghost predicate UpToDate<S>(h: HubState<S>, s: S)
    requires s in h.sessions
  {
    forall peers :: ApplyAll(peers, h.sessions[s].out) == Directory(h)
  }

  ghost predicate Coherent<S>(h: HubState<S>, s: S) {
    Registered(h, s) ==> UpToDate(h, s)
  }

  /** A broadcast that reaches a registered session makes it up to date, whatever was lost
      before. */
  lemma BroadcastRepairs<S>(h: HubState<S>, s: S, env: Env<S>)
    requires env.fails == {} && RowsComplete(env.rows, h.tables) && s !in env.lostUpdates
    ensures Coherent(Broadcast(h, env), s)
  {
    BroadcastKeeps(h, env);
    var h' := Broadcast(h, env);
    hide MachineList, InfoOf, PeersOf, RowsComplete;
    ListIsDirectory(h, env);
    DirectoryKept(h, h');
    if Registered(h', s) {
      var m := Update(MachineList(h, env));
      assert h'.sessions[s].out == h.sessions[s].out + [m];
      forall peers
        ensures ApplyAll(peers, h'.sessions[s].out) == Directory(h')
      {
        ApplyAppend(peers, h.sessions[s].out, [m]);
        assert [m][..0] == [];
      }
    }
  }

  /** A direct answer that is not a list, or is the current list, keeps a session up to date. */
  lemma ReplyCoherent<S>(h: HubState<S>, h': HubState<S>, t: S, m: Message, env: Env<S>, s: S)
    requires SameDirectory(h, h') && h'.sessions == h.sessions && t in h.sessions && Coherent(h, s)
    requires m.Update? ==> PeersOf(m.machines) == Directory(h)
    ensures Coherent(Reply(h', t, m, env), s)
  {
    hide InfoOf, PeersOf;
    var h2 := Reply(h', t, m, env);
    DirectoryKept(h, h2);
    if Registered(h2, s) && s == t && t !in env.lostReplies {
      forall peers
        ensures ApplyAll(peers, h2.sessions[s].out) == Directory(h2)
      {
        ApplyAppend(peers, h.sessions[s].out, [m]);
        assert [m][..0] == [];
      }
    }
  }

  lemma HandleCoherent<S>(h: HubState<S>, t: S, req: Request, env: Env<S>, s: S)
    requires RegistryOk(h) && t in h.sessions && Coherent(h, s)
    requires env.fails == {} && s !in env.lostUpdates
    requires RowsComplete(env.rows, Handle(h, t, req, env).tables)
    ensures Coherent(Handle(h, t, req, env), s)
  {
    hide Coherent, Directory, Broadcast, Reply, MachineList, Less, RowsComplete, Lookup, Register;
    var id := h.sessions[t].id;
    ReplyCoherent(h, h, t, Error(""), env, s);
    match req
    case Hello(id, name, pubkey, token) =>
      if !(id == "" || pubkey == "" || (h.token != "" && token != h.token)) {
        var h1 := Register(h.(tables := Upsert(h.tables, id, name, pubkey)), t, id, name);
        RegisteredSession(h.(tables := Upsert(h.tables, id, name, pubkey)), t, id, name);
        AnswerCoherent(h1, t, Welcome(id, name), env, s);
      }
    case MakeCode =>
      var h1 := h.(tables := h.tables.(codes := h.tables.codes[env.code := CodeRow(id, env.now + CODE_TTL)]));
      ReplyCoherent(h, h1, t, CodeCreated(env.code), env, s);
    case Pair(code, name, pubkey) =>
      if id != "" && Lookup(h.tables, code, env.now).Owner? {
        FoundCode(h.tables, code, env.now);
        var owner := h.tables.codes[code].owner;
        var h1 := h.(tables := h.tables.(codes := h.tables.codes - {code}));
        ReplyCoherent(h, h1, t, Error(""), env, s);
        var h2 := h1.(tables := Upsert(h1.tables, id, name, pubkey));
        var h3 := h2.(tables := h2.tables.(acls := h2.tables.acls + {PairOf(owner, id)}));
        if owner != id {
          AnswerCoherent(h3, t, Paired(owner), env, s);
        }
      }
    case Revoke(target) =>
      if id != "" && target != "" {
        var h1 := h.(tables := h.tables.(acls := h.tables.acls - {PairOf(id, target)}));
        AnswerCoherent(h1, t, Revoked(target), env, s);
      }
    case List =>
      ReplyKeeps(h, t, Update(MachineList(h, env)), env);
      ListIsDirectory(h, env);
      ReplyCoherent(h, h, t, Update(MachineList(h, env)), env, s);
    case Relay(to, channel, service, dial, data) =>
      ReplyCoherent(h, h, t, Error(channel), env, s);
      if to in h.clients {
        ReplyCoherent(h, h, h.clients[to], Relayed(id, channel, service, dial, data), env, s);
      }
    case RelayClose(to, channel) =>
      if to in h.clients {
        ReplyCoherent(h, h, h.clients[to], Closed(id, channel), env, s);
      }
    case Unknown =>
  }

  lemma RegisteredSession<S>(h: HubState<S>, t: S, id: string, name: string)
    requires t in h.sessions
    ensures t in Register(h, t, id, name).sessions
  {}

  lemma ReplyKeeps<S>(h: HubState<S>, t: S, m: Message, env: Env<S>)
    requires t in h.sessions
    ensures Reply(h, t, m, env).tables == h.tables
  {}

  /** A reply followed by a broadcast. */
  lemma AnswerCoherent<S>(h: HubState<S>, t: S, m: Message, env: Env<S>, s: S)
    requires t in h.sessions && env.fails == {} && s !in env.lostUpdates
    requires RowsComplete(env.rows, Broadcast(Reply(h, t, m, env), env).tables)
    ensures Coherent(Broadcast(Reply(h, t, m, env), env), s)
  {
    hide Coherent, Broadcast, RowsComplete;
    ReplyKeeps(h, t, m, env);
    BroadcastKeeps(Reply(h, t, m, env), env);
    BroadcastRepairs(Reply(h, t, m, env), s, env);
  }

  /** A step in which the store does not fail and no update to s is lost. */
  ghost predicate Faithful<S>(a: Act<S>, h': HubState<S>, s: S) {
    && (a.Receive? ==> a.env.fails == {} && s !in a.env.lostUpdates && RowsComplete(a.env.rows, h'.tables))
    && (a.Part? ==> a.env.fails == {} && s !in a.env.lostUpdates && RowsComplete(a.env.rows, h'.tables))
  }

  lemma StepCoherent<S>(h: HubState<S>, a: Act<S>, h': HubState<S>, s: S)
    requires RegistryOk(h) && Step(h, a, h') && Faithful(a, h', s) && Coherent(h, s)
    ensures Coherent(h', s)
  {
    match a
    case Join(t) =>
      JoinCoherent(h, t, s);
    case Receive(t, req, env) => HandleCoherent(h, t, req, env, s);
    case Part(t, env) => LeaveCoherent(h, t, env, s);
    case Restart =>
  }

  lemma JoinCoherent<S>(h: HubState<S>, t: S, s: S)
    requires RegistryOk(h) && t !in h.sessions && Coherent(h, s)
    ensures Coherent(Connect(h, t), s)
  {
    var h' := Connect(h, t);
    assert !Registered(h', t);
    assert Directory(h') == Directory(h);
  }

  lemma LeaveCoherent<S>(h: HubState<S>, t: S, env: Env<S>, s: S)
    requires RegistryOk(h) && t in h.sessions && Coherent(h, s)
    requires env.fails == {} && s !in env.lostUpdates && RowsComplete(env.rows, h.tables)
    ensures Coherent(Leave(h, t, env), s)
  {
    hide MachineList, RowsComplete, Broadcast;
    var id := h.sessions[t].id;
    var h1 := h.(clients := if id != "" then h.clients - {id} else h.clients, sessions := h.sessions - {t});
    if id != "" {
      BroadcastRepairs(h1, s, env);
    } else {
      assert Directory(h1) == Directory(h);
    }
  }

  /** Over a whole run without store errors or updates lost to s: whatever part of its queue
      the daemon of a registered session has already handled, handling the rest gives it
      exactly the hub's machine list. */
  lemma {:induction false} CacheCoherent<S>(hs: seq<HubState<S>>, acts: seq<Act<S>>, n: nat, s: S, done: nat,
                                            before: Peers)
    requires Run(hs, acts) && n < |hs| && Registered(hs[n], s) && done <= |hs[n].sessions[s].out|
    requires forall i :: 0 <= i < n ==> Faithful(acts[i], hs[i + 1], s)
    ensures var out := hs[n].sessions[s].out;
      ApplyAll(ApplyAll(before, out[..done]), out[done..]) == Directory(hs[n])
  {
    hide Step, Faithful, Directory;
    RunCoherent(hs, acts, n, s);
    var out := hs[n].sessions[s].out;
    assert out[..done] + out[done..] == out;
    ApplyAppend(before, out[..done], out[done..]);
  }

  lemma {:induction false} RunCoherent<S>(hs: seq<HubState<S>>, acts: seq<Act<S>>, n: nat, s: S)
    requires Run(hs, acts) && n < |hs|
    requires forall i :: 0 <= i < n ==> Faithful(acts[i], hs[i + 1], s)
    ensures Coherent(hs[n], s)
  {
    hide Step, Faithful, UpToDate;
    if n > 0 {
      RunOk(hs, acts, n - 1);
      RunCoherent(hs, acts, n - 1, s);
      StepCoherent(hs[n - 1], acts[n - 1], hs[n], s);
    }
  }
}
