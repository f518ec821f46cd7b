/** The hub itself: handlers that update the registry, the sessions and the store in place. */
module Hub {
  import opened HubStore
  import opened HubModel

  class Client {
    var id: string
    var name: string
    var out: seq<Message>

    constructor ()
      ensures id == "" && name == "" && out == []
    {
      id, name, out := "", "", [];
    }
  }

  class Server {
    const token: string
    const store: Store
    var clients: map<string, Client>
    ghost var sessions: set<Client>

    /** Every registered session is running and knows the id it is registered under. */
    ghost predicate Valid()
      reads this, sessions
    {
      forall k :: k in clients ==> k != "" && clients[k] in sessions && clients[k].id == k
    }

    ghost function Model(): HubState<Client>
      reads this, store, sessions
    {
      HubState(token, store.Model(), clients, map c | c in sessions :: Session(c.id, c.name, c.out))
    }

    constructor (token: string)
      ensures Valid() && fresh(store)
      ensures Model() == HubState(token, Tables(map[], map[], {}), map[], map[])
    {
      this.token := token;
      clients := map[];
      sessions := {};
      store := new Store();
    }

    method Accept() returns (c: Client)
      requires Valid()
      modifies this
      ensures Valid() && fresh(c) && sessions == old(sessions) + {c}
      ensures Model() == Connect(old(Model()), c)
    {
      c := new Client();
      sessions := sessions + {c};
      assert Model().sessions == Connect(old(Model()), c).sessions;
    }

    method Send(c: Client, m: Message, lost: bool)
      requires Valid() && c in sessions
      modifies c
      ensures Valid()
      ensures Model() == if lost then old(Model()) else Queue(old(Model()), c, m)
    {
      if !lost {
        c.out := c.out + [m];
        assert Model().sessions == Queue(old(Model()), c, m).sessions;
      } else {
        assert Model().sessions == old(Model()).sessions;
      }
    }

    method ListMachines(env: Env<Client>) returns (list: seq<MachineInfo>)
      requires Valid()
      ensures list == MachineList(Model(), env)
    {
      if ListOp in env.fails {
        return [];
      }
      hide Infos, Model, InfoOf;
      ghost var h := Model();
      list := [];
      NoInfos(h, env.fails);
      var i := 0;
      while i < |env.rows|
        invariant 0 <= i <= |env.rows|
        invariant list == Infos(h, env.rows[..i], env.fails)
      {
        InfosSnoc(h, env.rows[..i], env.rows[i], env.fails);
        assert env.rows[..i] + [env.rows[i]] == env.rows[..i + 1];
        if GetOp(env.rows[i]) !in env.fails {
          var info := Describe(env.rows[i]);
          list := list + [info];
        }
        i := i + 1;
      }
      assert env.rows[..i] == env.rows;
    }

    /** One line of the list: the name a session gave at hello wins over the stored one. */
    method Describe(id: string) returns (info: MachineInfo)
      requires Valid()
      ensures info == InfoOf(Model(), id)
    {
      var row := store.GetMachine(id);
      var name := row.name;
      if id in clients && clients[id].name != "" {
        name := clients[id].name;
      }
      info := MachineInfo(id, name, row.pubkey, id in clients);
    }

    /** The loop over the registered sessions, in any order. */
    method SendAll(m: Message, env: Env<Client>)
      requires Valid()
      modifies sessions
      ensures forall c :: c in sessions ==> c.id == old(c.id) && c.name == old(c.name)
      ensures forall c :: c in sessions ==>
        c.out == if c.id in clients && clients[c.id] == c && c !in env.lostUpdates then old(c.out) + [m] else old(c.out)
    {
      var rest := clients.Keys;
      while rest != {}
        invariant rest <= clients.Keys
        invariant forall c :: c in sessions ==> c.id == old(c.id) && c.name == old(c.name)
        invariant forall c :: c in sessions ==>
          c.out == if c.id in clients && clients[c.id] == c && c.id !in rest && c !in env.lostUpdates
                   then old(c.out) + [m] else old(c.out)
        decreases rest
      {
        var k :| k in rest;
        var c := clients[k];
        if c !in env.lostUpdates {
          c.out := c.out + [m];
        }
        rest := rest - {k};
      }
    }

    method BroadcastUpdate(env: Env<Client>)
      requires Valid()
      modifies sessions
      ensures Valid()
      ensures Model() == Broadcast(old(Model()), env)
    {
      hide Infos, InfoOf, MachineList;
      var list := ListMachines(env);
      ghost var before := Model();
      SendAll(Update(list), env);
      assert Model().sessions == Broadcast(before, env).sessions;
    }

    /** The critical section of a hello. */
    method Enter(c: Client, id: string, name: string)
      requires Valid() && c in sessions && id != ""
      modifies this`clients, c
      ensures Valid()
      ensures Model() == Register(old(Model()), c, id, name)
    {
      if c.id != "" {
        clients := clients - {c.id};
      }
      c.id := id;
      c.name := name;
      clients := clients[id := c];
      assert Model().sessions == Register(old(Model()), c, id, name).sessions;
    }

    method OnHello(c: Client, id: string, name: string, pubkey: string, tok: string, env: Env<Client>)
      requires Valid() && c in sessions
      modifies this`clients, store, sessions
      ensures Valid()
      ensures Model() == HubModel.OnHello(old(Model()), c, id, name, pubkey, tok, env)
    {
      hide Broadcast, Queue, Register;
      if id == "" || pubkey == "" {
        Send(c, Error(""), c in env.lostReplies);
        return;
      }
      if token != "" && tok != token {
        Send(c, Error(""), c in env.lostReplies);
        return;
      }
      var ok := store.UpsertMachine(id, name, pubkey, UpsertOp in env.fails);
      assert Model().sessions == old(Model()).sessions;
      if !ok {
        Send(c, Error(""), c in env.lostReplies);
        return;
      }
      Enter(c, id, name);
      Send(c, Welcome(id, name), c in env.lostReplies);
      BroadcastUpdate(env);
    }

    method OnMakeCode(c: Client, env: Env<Client>)
      requires Valid() && c in sessions
      modifies store, c
      ensures Valid()
      ensures Model() == HubModel.OnMakeCode(old(Model()), c, env)
    {
      hide Queue;
      if c.id == "" {
        Send(c, Error(""), c in env.lostReplies);
        return;
      }
      var ok := store.CreateCode(c.id, env.code, env.now + CODE_TTL, CreateOp in env.fails);
      assert Model().sessions == old(Model()).sessions;
      if !ok {
        Send(c, Error(""), c in env.lostReplies);
        return;
      }
      Send(c, CodeCreated(env.code), c in env.lostReplies);
    }

    method OnPair(c: Client, code: string, name: string, pubkey: string, env: Env<Client>)
      requires Valid() && c in sessions
      modifies store, sessions
      ensures Valid()
      ensures Model() == HubModel.OnPair(old(Model()), c, code, name, pubkey, env)
    {
      hide Broadcast, Queue;
      if c.id == "" {
        Send(c, Error(""), c in env.lostReplies);
        return;
      }
      var r := store.ConsumeCode(code, env.now, ConsumeOp in env.fails);
      assert Model().sessions == old(Model()).sessions;
      if !r.Owner? {
        Send(c, Error(""), c in env.lostReplies);
        return;
      }
      if r.id == c.id {
        Send(c, Error(""), c in env.lostReplies);
        return;
      }
      var ok := store.UpsertMachine(c.id, name, pubkey, UpsertOp in env.fails);
      assert Model().sessions == old(Model()).sessions;
      if !ok {
        Send(c, Error(""), c in env.lostReplies);
        return;
      }
      ok := store.AddACL(r.id, c.id, AddAclOp in env.fails);
      assert Model().sessions == old(Model()).sessions;
      if !ok {
        Send(c, Error(""), c in env.lostReplies);
        return;
      }
      Send(c, Paired(r.id), c in env.lostReplies);
      BroadcastUpdate(env);
    }

    method OnRevoke(c: Client, target: string, env: Env<Client>)
      requires Valid() && c in sessions
      modifies store, sessions
      ensures Valid()
      ensures Model() == HubModel.OnRevoke(old(Model()), c, target, env)
    {
      hide Broadcast, Queue;
      if c.id == "" || target == "" {
        Send(c, Error(""), c in env.lostReplies);
        return;
      }
      var ok := store.DeleteACL(c.id, target, DeleteAclOp in env.fails);
      assert Model().sessions == old(Model()).sessions;
      if !ok {
        Send(c, Error(""), c in env.lostReplies);
        return;
      }
      Send(c, Revoked(target), c in env.lostReplies);
      BroadcastUpdate(env);
    }

    method OnRelay(c: Client, to: string, channel: string, service: string, dial: string, data: string,
                   env: Env<Client>)
      requires Valid() && c in sessions
      modifies sessions
      ensures Valid()
      ensures Model() == HubModel.OnRelay(old(Model()), c, to, channel, service, dial, data, env)
    {
      hide Queue;
      if c.id == "" || to == "" || channel == "" || HasAclOp in env.fails {
        return;
      }
      var linked := store.HasACL(c.id, to);
      if !linked {
        Send(c, Error(channel), c in env.lostReplies);
        return;
      }
      if to !in clients {
        Send(c, Error(channel), c in env.lostReplies);
        return;
      }
      var target := clients[to];
      Send(target, Relayed(c.id, channel, service, dial, data), target in env.lostReplies);
    }

    method OnRelayClose(c: Client, to: string, channel: string, env: Env<Client>)
      requires Valid() && c in sessions
      modifies sessions
      ensures Valid()
      ensures Model() == HubModel.OnRelayClose(old(Model()), c, to, channel, env)
    {
      hide Queue;
      if c.id == "" || to == "" || channel == "" || to !in clients {
        return;
      }
      var target := clients[to];
      Send(target, Closed(c.id, channel), target in env.lostReplies);
    }

    /** One inbound message. */
    method Dispatch(c: Client, req: Request, env: Env<Client>)
      requires Valid() && c in sessions
      modifies this`clients, store, sessions
      ensures Valid()
      ensures Model() == Handle(old(Model()), c, req, env)
    {
      hide Queue, Broadcast, MachineList, HubModel.OnHello, HubModel.OnPair, HubModel.OnMakeCode,
        HubModel.OnRevoke, HubModel.OnRelay, HubModel.OnRelayClose;
      match req
      case Hello(id, name, pubkey, tok) => OnHello(c, id, name, pubkey, tok, env);
      case MakeCode => OnMakeCode(c, env);
      case Pair(code, name, pubkey) => OnPair(c, code, name, pubkey, env);
      case Revoke(target) => OnRevoke(c, target, env);
      case List =>
        var list := ListMachines(env);
        Send(c, Update(list), c in env.lostReplies);
      case Relay(to, channel, service, dial, data) => OnRelay(c, to, channel, service, dial, data, env);
      case RelayClose(to, channel) => OnRelayClose(c, to, channel, env);
      case Unknown => Send(c, Error(""), c in env.lostReplies);
    }

    /** The read loop of a session ended: unregister and tell the others. */
    method End(c: Client, env: Env<Client>)
      requires Valid() && c in sessions
      modifies this`clients, this`sessions, sessions
      ensures Valid() && sessions == old(sessions) - {c}
      ensures Model() == Leave(old(Model()), c, env)
    {
      hide Broadcast, Queue;
      ghost var h := Model();
      var id := c.id;
      if id != "" {
        clients := clients - {id};
      }
      sessions := sessions - {c};
      assert Model().sessions == h.sessions - {c};
      if id != "" {
        BroadcastUpdate(env);
      }
    }
  }
}
