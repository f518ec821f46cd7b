/** What the hub answers, and what its rows, sessions and registry are, told from the messages it has
    received. */
module HubHistory {
  import opened Basics
  import opened HubStore
  import opened HubModel
  import opened HubRuns
  import opened HubPeers

  // --- one step --------------------------------------------------------------------------------

  /** A hello the hub accepts: it names a machine and its key and, if the hub has a token, that. */
  ghost predicate Enters<S>(h: HubState<S>, a: Act<S>, s: S) {
    && a.Receive? && a.s == s && a.req.Hello? && a.req.id != "" && a.req.pubkey != ""
    && (h.token == "" || a.req.token == h.token) && UpsertOp !in a.env.fails
  }

  ghost predicate Links<S>(h: HubState<S>, a: Act<S>) {
    && a.Receive? && a.req.Pair? && Redeems(h, a, a.req.code)
    && Pairs(h, a, h.tables.codes[a.req.code].owner, IdOf(h, a.s))
  }

  ghost predicate Cuts<S>(h: HubState<S>, a: Act<S>) {
    a.Receive? && a.req.Revoke? && Revokes(h, a, IdOf(h, a.s), a.req.target)
  }

  /** What the session that sent the request is told. */
  ghost function AnswerDue<S>(h: HubState<S>, a: Act<S>): Message
    requires a.Receive?
  {
    if Enters(h, a, a.s) then Welcome(a.req.id, a.req.name)
    else if MintsAny(h, a) then CodeCreated(a.env.code)
    else if Links(h, a) then Paired(h.tables.codes[a.req.code].owner)
    else if Cuts(h, a) then Revoked(a.req.target)
    else if a.req.List? then Update(MachineList(h, a.env))
    else Error("")
  }

  ghost function Answer<S>(t: S, s: S, m: Message, env: Env<S>): seq<Message> {
    if t == s && s !in env.lostReplies then [m] else []
  }

  /** The machine list as it is now, for everybody registered. */
  ghost function Notice<S>(h: HubState<S>, t: S, env: Env<S>): seq<Message> {
    if Registered(h, t) && t !in env.lostUpdates then [Update(MachineList(h, env))] else []
  }

  /** Every queue gained this and no more. */
  ghost predicate Answered<S>(h: HubState<S>, h': HubState<S>, s: S, m: Message, all: bool, env: Env<S>) {
    && h'.sessions.Keys == h.sessions.Keys
    && forall t :: t in h.sessions ==>
         h'.sessions[t].out == h.sessions[t].out + Answer(t, s, m, env) + if all then Notice(h', t, env) else []
  }

  ghost predicate SameQueues<S>(h: HubState<S>, h1: HubState<S>) {
    h1.sessions.Keys == h.sessions.Keys && forall t :: t in h.sessions ==> h1.sessions[t].out == h.sessions[t].out
  }

  lemma Replied<S>(h: HubState<S>, h1: HubState<S>, s: S, m: Message, env: Env<S>)
    requires s in h.sessions && SameQueues(h, h1)
    ensures Answered(h, Reply(h1, s, m, env), s, m, false, env)
  {
    hide MachineList;
  }

  lemma {:induction false} SameInfos<S>(h: HubState<S>, h': HubState<S>, rows: seq<string>, fails: set<StoreOp>)
    requires SameDirectory(h, h')
    ensures Infos(h', rows, fails) == Infos(h, rows, fails)
  {
    if rows != [] {
      SameInfos(h, h', rows[1..], fails);
    }
  }

  lemma Announced<S>(h: HubState<S>, h1: HubState<S>, s: S, m: Message, env: Env<S>)
    requires s in h.sessions && SameQueues(h, h1)
    ensures Answered(h, Broadcast(Reply(h1, s, m, env), env), s, m, true, env)
  {
    var h2 := Reply(h1, s, m, env);
    var h' := Broadcast(h2, env);
    Replied(h, h1, s, m, env);
    BroadcastKeeps(h2, env);
    SameInfos(h2, h', env.rows, env.fails);
    DirectoryKept(h2, h');
    hide Infos, Reply;
    forall t | t in h.sessions
      ensures h'.sessions[t].out == h.sessions[t].out + Answer(t, s, m, env) + Notice(h', t, env)
    {
      assert h.sessions[t].out + Answer(t, s, m, env) + [] == h.sessions[t].out + Answer(t, s, m, env);
    }
  }

  /** Any request but a relay or a close is answered, once, with what is due, unless the answer is
      lost; and when a machine entered or a link changed, everybody registered gets the new list. */
  lemma RequestAnswered<S>(h: HubState<S>, a: Act<S>, h': HubState<S>)
    requires Step(h, a, h') && a.Receive? && !a.req.Relay? && !a.req.RelayClose?
    ensures Answered(h, h', a.s, AnswerDue(h, a), Enters(h, a, a.s) || Links(h, a) || Cuts(h, a), a.env)
  {
    hide Broadcast, Reply, Answered, MachineList, Less;
    var s, env := a.s, a.env;
    Replied(h, h, s, Error(""), env);
    match a.req
    case Hello(id, name, pubkey, token) =>
      Announced(h, Register(h.(tables := Upsert(h.tables, id, name, pubkey)), s, id, name), s, Welcome(id, name), env);
    case MakeCode =>
      var row := CodeRow(IdOf(h, s), env.now + CODE_TTL);
      Replied(h, h.(tables := h.tables.(codes := h.tables.codes[env.code := row])), s, CodeCreated(env.code), env);
    case Pair(code, name, pubkey) => PairAnswered(h, a, h');
    case Revoke(target) =>
      var id := IdOf(h, s);
      Announced(h, h.(tables := h.tables.(acls := h.tables.acls - {PairOf(id, target)})), s, Revoked(target), env);
    case List => Replied(h, h, s, Update(MachineList(h, env)), env);
    case Unknown =>
  }

  lemma PairAnswered<S>(h: HubState<S>, a: Act<S>, h': HubState<S>)
    requires Step(h, a, h') && a.Receive? && a.req.Pair?
    ensures Answered(h, h', a.s, if Links(h, a) then Paired(h.tables.codes[a.req.code].owner) else Error(""),
                     Links(h, a), a.env)
  {
    hide Broadcast, Reply, Answered, MachineList, Less;
    var s, env, code, id := a.s, a.env, a.req.code, IdOf(h, a.s);
    Replied(h, h, s, Error(""), env);
    if Redeems(h, a, code) {
      var owner := h.tables.codes[code].owner;
      var h1 := h.(tables := h.tables.(codes := h.tables.codes - {code}));
      var h2 := h1.(tables := Upsert(h1.tables, id, a.req.name, a.req.pubkey));
      var h3 := h2.(tables := h2.tables.(acls := h2.tables.acls + {PairOf(owner, id)}));
      Replied(h, h1, s, Error(""), env);
      Replied(h, h2, s, Error(""), env);
      Announced(h, h3, s, Paired(owner), env);
    }
  }

  /** When a session that had an id ends, everybody still registered gets the new list; when it had none,
      nobody hears of it. */
  lemma EndAnnounced<S>(h: HubState<S>, a: Act<S>, h': HubState<S>, t: S)
    requires Step(h, a, h') && a.Part? && t in h'.sessions
    ensures t in h.sessions
    ensures h'.sessions[t].out == h.sessions[t].out + if IdOf(h, a.s) != "" then Notice(h', t, a.env) else []
  {
    hide Infos;
    var id := h.sessions[a.s].id;
    var h1 := h.(clients := if id != "" then h.clients - {id} else h.clients, sessions := h.sessions - {a.s});
    BroadcastKeeps(h1, a.env);
    SameInfos(h1, Broadcast(h1, a.env), a.env.rows, a.env.fails);
    DirectoryKept(h1, Broadcast(h1, a.env));
    assert h.sessions[t].out + [] == h.sessions[t].out;
  }

  // --- what a step does to rows, sessions and registry -----------------------------------------

  /** A machine gave its name and key, in a hello or with a code it redeemed. */
  ghost predicate Writes<S>(h: HubState<S>, a: Act<S>, id: string) {
    && a.Receive?
    && ((Enters(h, a, a.s) && a.req.id == id)
        || (a.req.Pair? && IdOf(h, a.s) == id && Redeems(h, a, a.req.code)
            && h.tables.codes[a.req.code].owner != id && UpsertOp !in a.env.fails))
  }

  /** Registry, ids and names as they were. */
  ghost predicate SameRegistry<S>(h: HubState<S>, h': HubState<S>) {
    && h'.token == h.token && h'.clients == h.clients && h'.sessions.Keys == h.sessions.Keys
    && forall t :: t in h.sessions ==>
         h'.sessions[t].id == h.sessions[t].id && h'.sessions[t].name == h.sessions[t].name
  }

  lemma AnswerKeeps<S>(h: HubState<S>, s: S, m: Message, env: Env<S>)
    requires s in h.sessions
    ensures var h1, h2 := Reply(h, s, m, env), Broadcast(Reply(h, s, m, env), env);
      SameRegistry(h, h1) && h1.tables == h.tables && SameRegistry(h, h2) && h2.tables == h.tables
  {
    hide MachineList, Notified;
    var h1 := Reply(h, s, m, env);
    assert Broadcast(h1, env).token == h1.token;
    hide Broadcast;
    BroadcastKeeps(h1, env);
  }

  /** The state after an accepted hello, its queues aside. */
  lemma Entering<S>(h: HubState<S>, a: Act<S>, h': HubState<S>)
    requires Step(h, a, h') && a.Receive? && Enters(h, a, a.s)
    ensures var h1 := Register(h.(tables := Upsert(h.tables, a.req.id, a.req.name, a.req.pubkey)), a.s,
                               a.req.id, a.req.name);
      SameRegistry(h1, h') && h'.tables == h1.tables
  {
    hide Broadcast, Reply, SameRegistry;
    var h1 := Register(h.(tables := Upsert(h.tables, a.req.id, a.req.name, a.req.pubkey)), a.s, a.req.id, a.req.name);
    AnswerKeeps(h1, a.s, Welcome(a.req.id, a.req.name), a.env);
  }

  /** Any other message leaves the registry alone. */
  lemma NotEntering<S>(h: HubState<S>, a: Act<S>, h': HubState<S>)
    requires Step(h, a, h') && a.Receive? && !Enters(h, a, a.s)
    ensures SameRegistry(h, h')
  {
    hide Broadcast, Reply, SameRegistry, MachineList, Less, OnRelay, OnRelayClose;
    var s, env, id := a.s, a.env, IdOf(h, a.s);
    AnswerKeeps(h, s, Error(""), env);
    match a.req
    case Hello(_, _, _, _) =>
    case MakeCode =>
      var row := CodeRow(id, env.now + CODE_TTL);
      var h1 := h.(tables := h.tables.(codes := h.tables.codes[env.code := row]));
      AnswerKeeps(h1, s, CodeCreated(env.code), env);
      SameTables(h, h1, h');
    case Pair(_, _, _) => PairRegistry(h, a, h');
    case Revoke(target) =>
      var h1 := h.(tables := h.tables.(acls := h.tables.acls - {PairOf(id, target)}));
      AnswerKeeps(h1, s, Revoked(target), env);
      SameTables(h, h1, h');
    case List => AnswerKeeps(h, s, Update(MachineList(h, env)), env);
    case Relay(_, _, _, _, _) => RelayRegistry(h, a, h');
    case RelayClose(_, _) => RelayRegistry(h, a, h');
    case Unknown =>
  }

  lemma SameTables<S>(h: HubState<S>, h1: HubState<S>, h': HubState<S>)
    requires h1 == h.(tables := h1.tables)
    ensures SameRegistry(h1, h') ==> SameRegistry(h, h')
  {}

  lemma PairRegistry<S>(h: HubState<S>, a: Act<S>, h': HubState<S>)
    requires Step(h, a, h') && a.Receive? && a.req.Pair?
    ensures SameRegistry(h, h')
    ensures h'.tables.machines ==
      if Writes(h, a, IdOf(h, a.s)) then h.tables.machines[IdOf(h, a.s) := MachineRow(a.req.name, a.req.pubkey)]
      else h.tables.machines
  {
    hide Broadcast, Reply, SameRegistry, MachineList, Less;
    var s, env, code, id := a.s, a.env, a.req.code, IdOf(h, a.s);
    AnswerKeeps(h, s, Error(""), env);
    if Redeems(h, a, code) {
      var owner := h.tables.codes[code].owner;
      var h1 := h.(tables := h.tables.(codes := h.tables.codes - {code}));
      var h2 := h1.(tables := Upsert(h1.tables, id, a.req.name, a.req.pubkey));
      var h3 := h2.(tables := h2.tables.(acls := h2.tables.acls + {PairOf(owner, id)}));
      AnswerKeeps(h1, s, Error(""), env);
      AnswerKeeps(h2, s, Error(""), env);
      AnswerKeeps(h3, s, Paired(owner), env);
      SameTables(h, h1, h');
      SameTables(h, h2, h');
      SameTables(h, h3, h');
    }
  }

  lemma RelayRegistry<S>(h: HubState<S>, a: Act<S>, h': HubState<S>)
    requires Step(h, a, h') && a.Receive? && (a.req.Relay? || a.req.RelayClose?)
    ensures SameRegistry(h, h')
  {
    hide MachineList, Less, Broadcast;
  }

  lemma Leaving<S>(h: HubState<S>, s: S, env: Env<S>)
    requires s in h.sessions
    ensures var h', id := Leave(h, s, env), h.sessions[s].id;
      && h'.token == h.token && h'.tables == h.tables
      && h'.clients == (if id != "" then h.clients - {id} else h.clients)
      && h'.sessions.Keys == h.sessions.Keys - {s}
      && forall t :: t in h'.sessions ==>
           h'.sessions[t].id == h.sessions[t].id && h'.sessions[t].name == h.sessions[t].name
  {
    var id := h.sessions[s].id;
    var h1 := h.(clients := if id != "" then h.clients - {id} else h.clients, sessions := h.sessions - {s});
    BroadcastKeeps(h1, env);
    assert Broadcast(h1, env).token == h1.token;
    hide Broadcast;
  }

  lemma RowStep<S>(h: HubState<S>, a: Act<S>, h': HubState<S>, id: string)
    requires Step(h, a, h')
    ensures id in h'.tables.machines <==> id in h.tables.machines || Writes(h, a, id)
    ensures id in h'.tables.machines ==>
      h'.tables.machines[id] ==
        if Writes(h, a, id) then MachineRow(a.req.name, a.req.pubkey) else h.tables.machines[id]
  {
    hide SameRegistry, Handle, Leave;
    match a
    case Join(_) =>
    case Restart =>
    case Part(s, env) => Leaving(h, s, env);
    case Receive(s, req, env) =>
      if Enters(h, a, s) {
        Entering(h, a, h');
      } else if req.Pair? {
        PairRegistry(h, a, h');
      } else {
        SameMachines(h, a, h');
      }
  }

  lemma SameMachines<S>(h: HubState<S>, a: Act<S>, h': HubState<S>)
    requires Step(h, a, h') && a.Receive? && !Enters(h, a, a.s) && !a.req.Pair?
    ensures h'.tables.machines == h.tables.machines
  {
    hide MachineList, Less, Notified;
  }

  lemma SessionStep<S>(h: HubState<S>, a: Act<S>, h': HubState<S>, s: S)
    requires Step(h, a, h')
    ensures h'.token == h.token
    ensures s in h'.sessions <==> a == Act<S>.Join(s) || (s in h.sessions && !a.Restart? && !(a.Part? && a.s == s))
    ensures s in h'.sessions ==>
      var t := h'.sessions[s];
      if Enters(h, a, s) then t.id == a.req.id && t.name == a.req.name
      else if a == Act<S>.Join(s) then t.id == ""
      else t.id == h.sessions[s].id && t.name == h.sessions[s].name
  {
    hide Handle, Leave;
    match a
    case Join(_) =>
    case Restart =>
    case Part(t, env) => Leaving(h, t, env);
    case Receive(t, req, env) => if Enters(h, a, t) { Entering(h, a, h'); } else { NotEntering(h, a, h'); }
  }

  /** Whoever is registered as k no longer is: the hub restarts, a session that knows itself as k
      ends or enters under another id, or somebody enters as k. */
  ghost predicate Ousts<S>(h: HubState<S>, a: Act<S>, k: string) {
    || a.Restart? || (a.Part? && IdOf(h, a.s) == k)
    || (a.Receive? && Enters(h, a, a.s) && (a.req.id == k || IdOf(h, a.s) == k))
  }

  lemma RegistryStep<S>(h: HubState<S>, a: Act<S>, h': HubState<S>, k: string, s: S)
    requires Step(h, a, h') && k != ""
    ensures (k in h'.clients && h'.clients[k] == s) <==>
      || (Enters(h, a, s) && a.req.id == k)
      || (k in h.clients && h.clients[k] == s && !Ousts(h, a, k))
  {
    hide Handle, Leave;
    match a
    case Join(_) =>
    case Restart =>
    case Part(t, env) => Leaving(h, t, env);
    case Receive(t, req, env) => if Enters(h, a, t) { Entering(h, a, h'); } else { NotEntering(h, a, h'); }
  }

  // --- over whole runs -------------------------------------------------------------------------

  /** Session s entered at step j and has not entered again since, nor joined anew. */
  ghost predicate LastHello<S>(hs: seq<HubState<S>>, acts: seq<Act<S>>, n: nat, j: nat, s: S)
    requires Run(hs, acts) && n < |hs|
  {
    && j < n && Enters(hs[j], acts[j], s)
    && forall i :: j < i < n ==> !Enters(hs[i], acts[i], s) && acts[i] != Act<S>.Join(s)
  }

  /** A session has an id exactly when it has presented the hub's token since it joined, and id and
      name are those of its last such hello. */
  lemma {:induction false} IntroducedIff<S>(hs: seq<HubState<S>>, acts: seq<Act<S>>, n: nat, s: S)
    requires Run(hs, acts) && n < |hs|
    ensures hs[n].token == hs[0].token
    ensures s in hs[n].sessions ==>
      && (hs[n].sessions[s].id != "" <==> exists j: nat :: LastHello(hs, acts, n, j, s))
      && forall j: nat :: LastHello(hs, acts, n, j, s) ==>
           hs[n].sessions[s].id == acts[j].req.id && hs[n].sessions[s].name == acts[j].req.name
  {
    hide Step, Enters;
    if n == 0 {
      NoSessions(hs[0]);
    } else {
      var m := n - 1;
      IntroducedIff(hs, acts, m, s);
      SessionStep(hs[m], acts[m], hs[n], s);
      EntersAs(hs[m], acts[m], s);
      if Enters(hs[m], acts[m], s) {
        assert LastHello(hs, acts, n, m, s);
      } else if acts[m] != Act<S>.Join(s) {
        assert forall j: nat :: LastHello(hs, acts, n, j, s) <==> LastHello(hs, acts, m, j, s);
      }
    }
  }

  lemma NoSessions<S>(h: HubState<S>)
    requires Init(h)
    ensures h.sessions == map[] && h.clients == map[] && h.tables.machines == map[]
  {}

  lemma EntersAs<S>(h: HubState<S>, a: Act<S>, s: S)
    ensures Enters(h, a, s) ==> a.Receive? && a.req.Hello? && a.s == s && a.req.id != "" && a != Act<S>.Join(s)
  {}

  /** Session s entered as k at step j, and nothing has ousted k since. */
  ghost predicate EnteredAt<S>(hs: seq<HubState<S>>, acts: seq<Act<S>>, n: nat, j: nat, k: string, s: S)
    requires Run(hs, acts) && n < |hs|
  {
    && j < n && acts[j].Receive? && Enters(hs[j], acts[j], s) && acts[j].req.id == k
    && forall i :: j < i < n ==> !Ousts(hs[i], acts[i], k)
  }

  /** Who is registered under an id: the session that entered as it last, unless the hub restarted
      since, or a session that knew itself by it ended or took another id, be it the same or not. */
  lemma {:induction false} RegisteredIff<S>(hs: seq<HubState<S>>, acts: seq<Act<S>>, n: nat, k: string, s: S)
    requires Run(hs, acts) && n < |hs| && k != ""
    ensures (k in hs[n].clients && hs[n].clients[k] == s) <==> exists j: nat :: EnteredAt(hs, acts, n, j, k, s)
  {
    hide Step, Enters, Ousts;
    if n == 0 {
      NoSessions(hs[0]);
    } else {
      var m := n - 1;
      RegisteredIff(hs, acts, m, k, s);
      RegistryStep(hs[m], acts[m], hs[n], k, s);
      EntersAs(hs[m], acts[m], s);
      if acts[m].Receive? && Enters(hs[m], acts[m], s) && acts[m].req.id == k {
        assert EnteredAt(hs, acts, n, m, k, s);
      } else {
        assert forall j: nat :: EnteredAt(hs, acts, n, j, k, s) <==>
          EnteredAt(hs, acts, m, j, k, s) && !Ousts(hs[m], acts[m], k);
      }
    }
  }

  /** The machine gave its name and key at step j and not again since. */
  ghost predicate WrittenAt<S>(hs: seq<HubState<S>>, acts: seq<Act<S>>, n: nat, j: nat, id: string)
    requires Run(hs, acts) && n < |hs|
  {
    j < n && Writes(hs[j], acts[j], id) && forall i :: j < i < n ==> !Writes(hs[i], acts[i], id)
  }

  lemma WritesAs<S>(h: HubState<S>, a: Act<S>, id: string)
    ensures Writes(h, a, id) ==> a.Receive? && (a.req.Hello? || a.req.Pair?)
  {}

  /** A machine has a row exactly when it once gave its name and key, and the row is what it gave
      last. */
  lemma {:induction false} RowIff<S>(hs: seq<HubState<S>>, acts: seq<Act<S>>, n: nat, id: string)
    requires Run(hs, acts) && n < |hs|
    ensures id in hs[n].tables.machines <==> exists j: nat :: WrittenAt(hs, acts, n, j, id)
    ensures forall j: nat :: WrittenAt(hs, acts, n, j, id) ==>
      && acts[j].Receive? && (acts[j].req.Hello? || acts[j].req.Pair?)
      && id in hs[n].tables.machines
      && hs[n].tables.machines[id] == MachineRow(acts[j].req.name, acts[j].req.pubkey)
  {
    hide Step, Writes;
    if n == 0 {
      NoSessions(hs[0]);
    } else {
      var m := n - 1;
      RowIff(hs, acts, m, id);
      RowStep(hs[m], acts[m], hs[n], id);
      WritesAs(hs[m], acts[m], id);
      if Writes(hs[m], acts[m], id) {
        assert WrittenAt(hs, acts, n, m, id);
      } else {
        assert forall j: nat :: WrittenAt(hs, acts, n, j, id) <==> WrittenAt(hs, acts, m, j, id);
      }
    }
  }

  /** The line of a machine: the key it gave last; online if somebody is registered for it; and the
      name that session gave, or, without one, the name the machine gave last. */
  lemma DirectoryLine<S>(hs: seq<HubState<S>>, acts: seq<Act<S>>, n: nat, w: nat, id: string)
    requires Run(hs, acts) && n < |hs| && id != "" && WrittenAt(hs, acts, n, w, id)
    ensures acts[w].Receive? && (acts[w].req.Hello? || acts[w].req.Pair?) && id in Directory(hs[n])
    ensures var line := Directory(hs[n])[id];
      && line.id == id && line.pubkey == acts[w].req.pubkey
      && (line.online <==> exists j: nat, s :: EnteredAt(hs, acts, n, j, id, s))
      && (forall j: nat, s :: EnteredAt(hs, acts, n, j, id, s) && acts[j].req.name != "" ==>
            line.name == acts[j].req.name)
      && ((forall j: nat, s :: EnteredAt(hs, acts, n, j, id, s) ==> acts[j].req.name == "") ==>
            line.name == acts[w].req.name)
  {
    hide Step, Enters, Ousts, Writes, EnteredAt;
    RowIff(hs, acts, n, id);
    RunOk(hs, acts, n);
    if id in hs[n].clients {
      RegisteredIff(hs, acts, n, id, hs[n].clients[id]);
      var j: nat :| EnteredAt(hs, acts, n, j, id, hs[n].clients[id]);
    }
    forall j: nat, s | EnteredAt(hs, acts, n, j, id, s)
      ensures Introduced(hs, acts, n, j, id, s)
    {
      RegisteredIff(hs, acts, n, id, s);
      EnteredLast(hs, acts, n, j, id, s);
      IntroducedIff(hs, acts, n, s);
    }
  }

  /** Session s is registered under the id and goes by the name it gave at step j. */
  ghost predicate Introduced<S>(hs: seq<HubState<S>>, acts: seq<Act<S>>, n: nat, j: nat, id: string, s: S)
    requires Run(hs, acts) && n < |hs|
  {
    && j < n && acts[j].Receive? && acts[j].req.Hello?
    && id in hs[n].clients && hs[n].clients[id] == s && s in hs[n].sessions
    && hs[n].sessions[s].name == acts[j].req.name
  }

  /** The hello that registered a session is its last one. */
  lemma EnteredLast<S>(hs: seq<HubState<S>>, acts: seq<Act<S>>, n: nat, j: nat, id: string, s: S)
    requires Run(hs, acts) && n < |hs| && id != "" && EnteredAt(hs, acts, n, j, id, s)
    ensures LastHello(hs, acts, n, j, s) && acts[j].Receive? && acts[j].req.Hello? && s in hs[n].sessions
  {
    hide Step, Enters, Init;
    EntersAs(hs[j], acts[j], s);
    RunOk(hs, acts, n);
    RegisteredIff(hs, acts, n, id, s);
    forall i | j < i < n
      ensures !Enters(hs[i], acts[i], s) && acts[i] != Act<S>.Join(s)
    {
      assert EnteredAt(hs, acts, i, j, id, s);
      RegisteredIff(hs, acts, i, id, s);
      RunOk(hs, acts, i);
      SessionStep(hs[i], acts[i], hs[i + 1], s);
      JoinsNew(hs[i], acts[i], hs[i + 1], s);
      EntersAs(hs[i], acts[i], s);
    }
  }

  lemma JoinsNew<S>(h: HubState<S>, a: Act<S>, h': HubState<S>, s: S)
    requires Step(h, a, h') && s in h.sessions
    ensures a != Act<S>.Join(s)
  {
    hide Handle, Leave;
  }

  // --- the list ------------------------------------------------------------------------------------

  ghost function Ids(list: seq<MachineInfo>): seq<string> {
    seq(|list|, i requires 0 <= i < |list| => list[i].id)
  }

  /** The rows the store could read. */
  ghost function Readable(rows: seq<string>, fails: set<StoreOp>): seq<string> {
    if rows == [] then [] else (if GetOp(rows[0]) in fails then [] else [rows[0]]) + Readable(rows[1..], fails)
  }

  /** The list has one line for every row that could be read, in the store's order, and the line of a
      machine is the one the directory has. */
  lemma {:induction false} ListLines<S>(h: HubState<S>, rows: seq<string>, env: Env<S>)
    ensures Ids(Infos(h, rows, env.fails)) == Readable(rows, env.fails)
    ensures forall m :: m in Infos(h, rows, env.fails) && m.id in h.tables.machines ==> m == Directory(h)[m.id]
    ensures MachineList(h, env) == if ListOp in env.fails then [] else Infos(h, env.rows, env.fails)
  {
    if rows != [] {
      ListLines(h, rows[1..], env);
      InfoId(h, rows[0]);
      hide InfoOf;
      var first := if GetOp(rows[0]) in env.fails then [] else [InfoOf(h, rows[0])];
      assert Ids(first + Infos(h, rows[1..], env.fails)) == Ids(first) + Ids(Infos(h, rows[1..], env.fails));
    }
  }

  // --- codes -----------------------------------------------------------------------------------------

  /** A code minted and not redeemed since is good for twenty-four hours from its minting, for the
      machine that asked for it, and for no second more. */
  lemma {:induction false} GoodForADay<S>(hs: seq<HubState<S>>, acts: seq<Act<S>>, n: nat, j: nat, code: string,
                                          row: CodeRow, now: int)
    requires Run(hs, acts) && n < |hs| && MintedAt(hs, acts, n, j, code, row)
    ensures code in hs[n].tables.codes && hs[n].tables.codes[code] == row && acts[j].Receive?
    ensures Lookup(hs[n].tables, code, now) ==
      if now <= acts[j].env.now + 86400 then Owner(IdOf(hs[j], acts[j].s)) else Expired
  {
    hide Step, Redeems, Init;
    CodeStep(hs[n - 1], acts[n - 1], hs[n], code);
    if j < n - 1 {
      GoodForADay(hs, acts, n - 1, j, code, row, now);
    }
  }
}
