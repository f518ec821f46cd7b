/** What each hub handler does, as functions on the hub's state. `S` stands for a session.

    An environment gives what the hub does not control in one step: the clock, the random
    code, the order in which the store lists ids, which store operations fail, and which
    sessions take no reply or no update within the five seconds the hub waits. */
module HubModel {
  import opened HubStore

  datatype MachineInfo = MachineInfo(id: string, name: string, pubkey: string, online: bool)

  datatype Request =
    | Hello(id: string, name: string, pubkey: string, token: string)
    | MakeCode
    | Pair(code: string, name: string, pubkey: string)
    | Revoke(target: string)
    | List
    | Relay(to: string, channel: string, service: string, dial: string, data: string)
    | RelayClose(to: string, channel: string)
    | Unknown

  datatype Message =
    | Welcome(id: string, name: string)
    | CodeCreated(code: string)
    | Paired(peer: string)
    | Revoked(target: string)
    | Update(machines: seq<MachineInfo>)
    | Error(channel: string)
    | Relayed(from: string, channel: string, service: string, dial: string, data: string)
    | Closed(from: string, channel: string)

  /** A message about a channel. */
  predicate ForChannel(m: Message) {
    m.Relayed? || m.Closed? || (m.Error? && m.channel != "")
  }

  datatype Session = Session(id: string, name: string, out: seq<Message>)

  datatype HubState<!S(==)> =
    HubState(token: string, tables: Tables, clients: map<string, S>, sessions: map<S, Session>)

  datatype StoreOp = UpsertOp | CreateOp | ConsumeOp | AddAclOp | HasAclOp | DeleteAclOp | ListOp | GetOp(id: string)

  datatype Env<!S(==)> = Env(now: int, code: string, rows: seq<string>, fails: set<StoreOp>,
                             lostReplies: set<S>, lostUpdates: set<S>)

  const CODE_TTL: int := 24 * 60 * 60

  function IdOf<S>(h: HubState<S>, s: S): string {
    if s in h.sessions then h.sessions[s].id else ""
  }

  predicate Registered<S>(h: HubState<S>, s: S) {
    s in h.sessions && h.sessions[s].id in h.clients && h.clients[h.sessions[s].id] == s
  }

  function Queue<S>(h: HubState<S>, s: S, m: Message): HubState<S>
    requires s in h.sessions
  {
    h.(sessions := h.sessions[s := h.sessions[s].(out := h.sessions[s].out + [m])])
  }

  function Reply<S>(h: HubState<S>, s: S, m: Message, env: Env<S>): HubState<S>
    requires s in h.sessions
  {
    if s in env.lostReplies then h else Queue(h, s, m)
  }

  function InfoOf<S>(h: HubState<S>, id: string): MachineInfo {
    var row := GetRow(h.tables, id);
    var online := id in h.clients;
    var name := if online && h.clients[id] in h.sessions && h.sessions[h.clients[id]].name != ""
                then h.sessions[h.clients[id]].name else row.name;
    MachineInfo(id, name, row.pubkey, online)
  }

  function Infos<S>(h: HubState<S>, rows: seq<string>, fails: set<StoreOp>): seq<MachineInfo> {
    if rows == [] then []
    else (if GetOp(rows[0]) in fails then [] else [InfoOf(h, rows[0])]) + Infos(h, rows[1..], fails)
  }

  lemma {:induction false} InfosSnoc<S>(h: HubState<S>, rows: seq<string>, id: string, fails: set<StoreOp>)
    ensures Infos(h, rows + [id], fails)
         == Infos(h, rows, fails) + (if GetOp(id) in fails then [] else [InfoOf(h, id)])
  {
    hide InfoOf;
    if rows == [] {
      assert rows + [id] == [id];
      assert [id][1..] == [];
    } else {
      assert (rows + [id])[1..] == rows[1..] + [id];
      InfosSnoc(h, rows[1..], id, fails);
    }
  }

  lemma NoInfos<S>(h: HubState<S>, fails: set<StoreOp>)
    ensures Infos(h, [], fails) == []
  {}

  function MachineList<S>(h: HubState<S>, env: Env<S>): seq<MachineInfo> {
    if ListOp in env.fails then [] else Infos(h, env.rows, env.fails)
  }

  function Notified<S>(h: HubState<S>, s: S, m: Message, env: Env<S>): Session
    requires s in h.sessions
  {
    if Registered(h, s) && s !in env.lostUpdates then h.sessions[s].(out := h.sessions[s].out + [m])
    else h.sessions[s]
  }

  function Broadcast<S>(h: HubState<S>, env: Env<S>): HubState<S> {
    var m := Update(MachineList(h, env));
    h.(sessions := map s | s in h.sessions :: Notified(h, s, m, env))
  }

  function Register<S>(h: HubState<S>, s: S, id: string, name: string): HubState<S>
    requires s in h.sessions
  {
    var before := h.sessions[s].id;
    h.(clients := (if before != "" then h.clients - {before} else h.clients)[id := s],
       sessions := h.sessions[s := h.sessions[s].(id := id, name := name)])
  }

  function OnHello<S>(h: HubState<S>, s: S, id: string, name: string, pubkey: string, token: string,
                      env: Env<S>): HubState<S>
    requires s in h.sessions
  {
    if id == "" || pubkey == "" then Reply(h, s, Error(""), env)
    else if h.token != "" && token != h.token then Reply(h, s, Error(""), env)
    else if UpsertOp in env.fails then Reply(h, s, Error(""), env)
    else
      var h1 := Register(h.(tables := Upsert(h.tables, id, name, pubkey)), s, id, name);
      Broadcast(Reply(h1, s, Welcome(id, name), env), env)
  }

  function OnMakeCode<S>(h: HubState<S>, s: S, env: Env<S>): HubState<S>
    requires s in h.sessions
  {
    var id := h.sessions[s].id;
    if id == "" || CreateOp in env.fails || env.code in h.tables.codes then Reply(h, s, Error(""), env)
    else
      var t := h.tables.(codes := h.tables.codes[env.code := CodeRow(id, env.now + CODE_TTL)]);
      Reply(h.(tables := t), s, CodeCreated(env.code), env)
  }

  function OnPair<S>(h: HubState<S>, s: S, code: string, name: string, pubkey: string, env: Env<S>): HubState<S>
    requires s in h.sessions
  {
    var id := h.sessions[s].id;
    if id == "" || ConsumeOp in env.fails || !Lookup(h.tables, code, env.now).Owner? then Reply(h, s, Error(""), env)
    else
      var owner := h.tables.codes[code].owner;
      var h1 := h.(tables := h.tables.(codes := h.tables.codes - {code}));
      if owner == id || UpsertOp in env.fails then Reply(h1, s, Error(""), env)
      else
        var h2 := h1.(tables := Upsert(h1.tables, id, name, pubkey));
        if AddAclOp in env.fails then Reply(h2, s, Error(""), env)
        else
          var h3 := h2.(tables := h2.tables.(acls := h2.tables.acls + {PairOf(owner, id)}));
          Broadcast(Reply(h3, s, Paired(owner), env), env)
  }

  function OnRevoke<S>(h: HubState<S>, s: S, target: string, env: Env<S>): HubState<S>
    requires s in h.sessions
  {
    var id := h.sessions[s].id;
    if id == "" || target == "" || DeleteAclOp in env.fails then Reply(h, s, Error(""), env)
    else
      var h1 := h.(tables := h.tables.(acls := h.tables.acls - {PairOf(id, target)}));
      Broadcast(Reply(h1, s, Revoked(target), env), env)
  }

  function OnRelay<S>(h: HubState<S>, s: S, to: string, channel: string, service: string, dial: string, data: string,
                      env: Env<S>): HubState<S>
    requires s in h.sessions
  {
    var id := h.sessions[s].id;
    if id == "" || to == "" || channel == "" || HasAclOp in env.fails then h
    else if !Authorised(h.tables, id, to) then Reply(h, s, Error(channel), env)
    else if to !in h.clients || h.clients[to] !in h.sessions then Reply(h, s, Error(channel), env)
    else Reply(h, h.clients[to], Relayed(id, channel, service, dial, data), env)
  }

  function OnRelayClose<S>(h: HubState<S>, s: S, to: string, channel: string, env: Env<S>): HubState<S>
    requires s in h.sessions
  {
    var id := h.sessions[s].id;
    if id == "" || to == "" || channel == "" || to !in h.clients || h.clients[to] !in h.sessions then h
    else Reply(h, h.clients[to], Closed(id, channel), env)
  }

  function Handle<S>(h: HubState<S>, s: S, req: Request, env: Env<S>): HubState<S>
    requires s in h.sessions
  {
    match req
    case Hello(id, name, pubkey, token) => OnHello(h, s, id, name, pubkey, token, env)
    case MakeCode => OnMakeCode(h, s, env)
    case Pair(code, name, pubkey) => OnPair(h, s, code, name, pubkey, env)
    case Revoke(target) => OnRevoke(h, s, target, env)
    case List => Reply(h, s, Update(MachineList(h, env)), env)
    case Relay(to, channel, service, dial, data) => OnRelay(h, s, to, channel, service, dial, data, env)
    case RelayClose(to, channel) => OnRelayClose(h, s, to, channel, env)
    case Unknown => Reply(h, s, Error(""), env)
  }

  function Connect<S>(h: HubState<S>, s: S): HubState<S> {
    h.(sessions := h.sessions[s := Session("", "", [])])
  }

  /** The end of a session: whatever session is registered under its id is unregistered. */
  function Leave<S>(h: HubState<S>, s: S, env: Env<S>): HubState<S>
    requires s in h.sessions
  {
    var id := h.sessions[s].id;
    var h1 := h.(clients := if id != "" then h.clients - {id} else h.clients, sessions := h.sessions - {s});
    if id != "" then Broadcast(h1, env) else h1
  }
}
