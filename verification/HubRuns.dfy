/** Whole runs of the hub, one inbound message or one disconnect per step. */
module HubRuns {
  import opened HubStore
  import opened HubModel

  datatype Act<!S(==)> =
    | Join(s: S)
    | Receive(s: S, req: Request, env: Env<S>)
    | Part(s: S, env: Env<S>)
    | Restart

  ghost predicate Init<S>(h: HubState<S>) {
    h.tables == Tables(map[], map[], {}) && h.clients == map[] && h.sessions == map[]
  }

  ghost predicate Step<S>(h: HubState<S>, a: Act<S>, h': HubState<S>) {
    match a
    case Join(s) => s !in h.sessions && h' == Connect(h, s)
    case Receive(s, req, env) => s in h.sessions && h' == Handle(h, s, req, env)
    case Part(s, env) => s in h.sessions && h' == Leave(h, s, env)
    case Restart => h' == h.(clients := map[], sessions := map[])
  }

  ghost predicate Run<S>(hs: seq<HubState<S>>, acts: seq<Act<S>>) {
    && |hs| == |acts| + 1
    && Init(hs[0])
    && forall i :: 0 <= i < |acts| ==> Step(hs[i], acts[i], hs[i + 1])
  }

  // --- what a broadcast leaves alone -------------------------------------------

  lemma BroadcastKeeps<S>(h: HubState<S>, env: Env<S>)
    ensures var h' := Broadcast(h, env);
      && h'.tables == h.tables && h'.clients == h.clients && h'.sessions.Keys == h.sessions.Keys
      && forall s :: s in h.sessions ==>
           && h'.sessions[s].id == h.sessions[s].id && h'.sessions[s].name == h.sessions[s].name
           && h.sessions[s].out <= h'.sessions[s].out
           && forall m :: m in h'.sessions[s].out[|h.sessions[s].out|..] ==> m.Update?
  {
    hide MachineList;
  }

  // --- the registry and the store agree ----------------------------------------

  ghost predicate RegistryOk<S>(h: HubState<S>) {
    && (forall k :: k in h.clients ==> k != "" && h.clients[k] in h.sessions && h.sessions[h.clients[k]].id == k)
    && (forall s :: s in h.sessions && h.sessions[s].id != "" ==> h.sessions[s].id in h.tables.machines)
    && (forall c :: c in h.tables.codes ==>
         h.tables.codes[c].owner != "" && h.tables.codes[c].owner in h.tables.machines)
    && (forall p :: p in h.tables.acls ==> p.0 != p.1 && p.0 in h.tables.machines && p.1 in h.tables.machines)
  }

  lemma BroadcastOk<S>(h: HubState<S>, env: Env<S>)
    requires RegistryOk(h)
    ensures RegistryOk(Broadcast(h, env))
  {
    BroadcastKeeps(h, env);
    hide Broadcast;
  }

  lemma ReplyOk<S>(h: HubState<S>, s: S, m: Message, env: Env<S>)
    requires RegistryOk(h) && s in h.sessions
    ensures RegistryOk(Reply(h, s, m, env))
  {}

  lemma RegisterOk<S>(h: HubState<S>, s: S, id: string, name: string, pubkey: string)
    requires RegistryOk(h) && s in h.sessions && id != ""
    ensures RegistryOk(Register(h.(tables := Upsert(h.tables, id, name, pubkey)), s, id, name))
    ensures s in Register(h.(tables := Upsert(h.tables, id, name, pubkey)), s, id, name).sessions
  {
    var h' := Register(h.(tables := Upsert(h.tables, id, name, pubkey)), s, id, name);
    assert h'.tables.machines.Keys == h.tables.machines.Keys + {id};
    assert forall k :: k in h'.clients && k != id ==>
      k in h.clients && h'.clients[k] == h.clients[k] && h.clients[k] != s;
  }

  lemma LinkOk<S>(h: HubState<S>, id: string, owner: string, name: string, pubkey: string)
    requires RegistryOk(h) && id in h.tables.machines && owner in h.tables.machines && id != owner
    ensures var t := Upsert(h.tables, id, name, pubkey);
      RegistryOk(h.(tables := t)) && RegistryOk(h.(tables := t.(acls := t.acls + {PairOf(owner, id)})))
  {
    hide Less;
  }

  lemma PairOk<S>(h: HubState<S>, s: S, code: string, name: string, pubkey: string, env: Env<S>)
    requires RegistryOk(h) && s in h.sessions
    ensures RegistryOk(OnPair(h, s, code, name, pubkey, env))
  {
    hide Broadcast, MachineList, Less, RegistryOk, Reply;
    ReplyOk(h, s, Error(""), env);
    var id := h.sessions[s].id;
    if id != "" && ConsumeOp !in env.fails && Lookup(h.tables, code, env.now).Owner? {
      var owner := h.tables.codes[code].owner;
      var h1 := h.(tables := h.tables.(codes := h.tables.codes - {code}));
      SpentOk(h, s, code);
      ReplyOk(h1, s, Error(""), env);
      if owner != id {
        LinkOk(h1, id, owner, name, pubkey);
        var h2 := h1.(tables := Upsert(h1.tables, id, name, pubkey));
        ReplyOk(h2, s, Error(""), env);
        var h3 := h2.(tables := h2.tables.(acls := h2.tables.acls + {PairOf(owner, id)}));
        ReplyOk(h3, s, Paired(owner), env);
        BroadcastOk(Reply(h3, s, Paired(owner), env), env);
      }
    }
  }

  lemma SpentOk<S>(h: HubState<S>, s: S, code: string)
    requires RegistryOk(h) && s in h.sessions && h.sessions[s].id != "" && code in h.tables.codes
    ensures RegistryOk(h.(tables := h.tables.(codes := h.tables.codes - {code})))
    ensures h.sessions[s].id in h.tables.machines && h.tables.codes[code].owner in h.tables.machines
  {}

  lemma HandleOk<S>(h: HubState<S>, s: S, req: Request, env: Env<S>)
    requires RegistryOk(h) && s in h.sessions
    ensures RegistryOk(Handle(h, s, req, env))
  {
    hide Broadcast, MachineList, Less, OnPair, Reply, Register, Upsert;
    ReplyOk(h, s, Error(""), env);
    var id := h.sessions[s].id;
    match req
    case Hello(id, name, pubkey, token) =>
      if id != "" {
        var h1 := Register(h.(tables := Upsert(h.tables, id, name, pubkey)), s, id, name);
        RegisterOk(h, s, id, name, pubkey);
        ReplyOk(h1, s, Welcome(id, name), env);
        BroadcastOk(Reply(h1, s, Welcome(id, name), env), env);
      }
    case MakeCode =>
      var t := h.tables.(codes := h.tables.codes[env.code := CodeRow(id, env.now + CODE_TTL)]);
      if id != "" {
        ReplyOk(h.(tables := t), s, CodeCreated(env.code), env);
      }
    case Pair(code, name, pubkey) => PairOk(h, s, code, name, pubkey, env);
    case Revoke(target) =>
      var h1 := h.(tables := h.tables.(acls := h.tables.acls - {PairOf(id, target)}));
      ReplyOk(h1, s, Revoked(target), env);
      BroadcastOk(Reply(h1, s, Revoked(target), env), env);
    case List => ReplyOk(h, s, Update(MachineList(h, env)), env);
    case Relay(to, channel, service, dial, data) =>
      ReplyOk(h, s, Error(channel), env);
      if to in h.clients {
        ReplyOk(h, h.clients[to], Relayed(id, channel, service, dial, data), env);
      }
    case RelayClose(to, channel) =>
      if to in h.clients {
        ReplyOk(h, h.clients[to], Closed(id, channel), env);
      }
    case Unknown =>
  }

  lemma StepOk<S>(h: HubState<S>, a: Act<S>, h': HubState<S>)
    requires RegistryOk(h) && Step(h, a, h')
    ensures RegistryOk(h')
  {
    hide Broadcast, Handle;
    match a
    case Join(s) =>
    case Receive(s, req, env) => HandleOk(h, s, req, env);
    case Part(s, env) =>
      var id := h.sessions[s].id;
      var h1 := h.(clients := if id != "" then h.clients - {id} else h.clients, sessions := h.sessions - {s});
      assert RegistryOk(h1);
      BroadcastOk(h1, env);
    case Restart =>
  }

  lemma {:induction false} RunOk<S>(hs: seq<HubState<S>>, acts: seq<Act<S>>, n: nat)
    requires Run(hs, acts) && n < |hs|
    ensures RegistryOk(hs[n])
  {
    hide Step, RegistryOk;
    if n == 0 {
      InitOk(hs[0]);
    } else {
      RunOk(hs, acts, n - 1);
      StepOk(hs[n - 1], acts[n - 1], hs[n]);
    }
  }

  lemma InitOk<S>(h: HubState<S>)
    requires Init(h)
    ensures RegistryOk(h)
  {}

  // --- what happened at a step ---------------------------------------------------

  /** A code was minted for the session's own id. */
  ghost predicate Mints<S>(h: HubState<S>, a: Act<S>, code: string, row: CodeRow) {
    && a.Receive? && a.req.MakeCode? && IdOf(h, a.s) != "" && CreateOp !in a.env.fails
    && a.env.code == code && code !in h.tables.codes
    && row == CodeRow(IdOf(h, a.s), a.env.now + CODE_TTL)
  }

  /** A registered session redeemed an outstanding code before its expiry. */
  ghost predicate Redeems<S>(h: HubState<S>, a: Act<S>, code: string) {
    && a.Receive? && a.req.Pair? && a.req.code == code && IdOf(h, a.s) != "" && ConsumeOp !in a.env.fails
    && code in h.tables.codes && a.env.now <= h.tables.codes[code].expires
  }

  /** A redemption that linked x and y: one owned the code, the other redeemed it. */
  ghost predicate Pairs<S>(h: HubState<S>, a: Act<S>, x: string, y: string) {
    && a.Receive? && a.req.Pair? && Redeems(h, a, a.req.code)
    && UpsertOp !in a.env.fails && AddAclOp !in a.env.fails
    && var owner := h.tables.codes[a.req.code].owner;
       owner != IdOf(h, a.s) && ((x == owner && y == IdOf(h, a.s)) || (y == owner && x == IdOf(h, a.s)))
  }

  /** One of the two cut the link. */
  ghost predicate Revokes<S>(h: HubState<S>, a: Act<S>, x: string, y: string) {
    && a.Receive? && a.req.Revoke? && IdOf(h, a.s) != "" && a.req.target != "" && DeleteAclOp !in a.env.fails
    && ((x == IdOf(h, a.s) && y == a.req.target) || (y == IdOf(h, a.s) && x == a.req.target))
  }

  lemma TablesAfter<S>(h: HubState<S>, a: Act<S>, h': HubState<S>)
    requires Step(h, a, h')
    ensures !(a.Receive? && (a.req.Hello? || a.req.MakeCode? || a.req.Pair? || a.req.Revoke?)) ==> h'.tables == h.tables
    ensures a.Receive? && a.req.Hello? ==> h'.tables.codes == h.tables.codes && h'.tables.acls == h.tables.acls
    ensures a.Receive? && a.req.MakeCode? ==> h'.tables.acls == h.tables.acls
    ensures a.Receive? && a.req.MakeCode? ==> (
      var row := CodeRow(IdOf(h, a.s), a.env.now + CODE_TTL);
      h'.tables.codes == if Mints(h, a, a.env.code, row) then h.tables.codes[a.env.code := row] else h.tables.codes)
    ensures a.Receive? && a.req.Pair? ==> (
      h'.tables.codes == if Redeems(h, a, a.req.code) then h.tables.codes - {a.req.code} else h.tables.codes)
    ensures a.Receive? && a.req.Pair? ==> (
      h'.tables.acls == if Redeems(h, a, a.req.code) && Pairs(h, a, h.tables.codes[a.req.code].owner, IdOf(h, a.s))
        then h.tables.acls + {PairOf(h.tables.codes[a.req.code].owner, IdOf(h, a.s))} else h.tables.acls)
    ensures a.Receive? && a.req.Revoke? ==> h'.tables.codes == h.tables.codes
    ensures a.Receive? && a.req.Revoke? ==> (
      h'.tables.acls == if Revokes(h, a, IdOf(h, a.s), a.req.target)
        then h.tables.acls - {PairOf(IdOf(h, a.s), a.req.target)} else h.tables.acls)
  {
    hide MachineList, Less, Notified;
  }

  /** Pairing and revocation are the only things that change who may talk. */
  lemma AclStep<S>(h: HubState<S>, a: Act<S>, h': HubState<S>, x: string, y: string)
    requires Step(h, a, h')
    ensures Authorised(h'.tables, x, y) <==>
      Pairs(h, a, x, y) || (Authorised(h.tables, x, y) && !Revokes(h, a, x, y))
  {
    TablesAfter(h, a, h');
    hide Step, Less;
    if a.Receive? && a.req.Pair? && Redeems(h, a, a.req.code) {
      PairDetermines(h.tables.codes[a.req.code].owner, IdOf(h, a.s), x, y);
    }
    if a.Receive? && a.req.Revoke? {
      PairDetermines(IdOf(h, a.s), a.req.target, x, y);
    }
  }

  /** Minting and redeeming are the only things that change the outstanding codes, and a
      code that stays outstanding keeps its owner and its expiry. */
  lemma CodeStep<S>(h: HubState<S>, a: Act<S>, h': HubState<S>, code: string)
    requires Step(h, a, h')
    ensures code in h'.tables.codes <==>
      || (code in h.tables.codes && !Redeems(h, a, code))
      || (a.Receive? && Mints(h, a, code, CodeRow(IdOf(h, a.s), a.env.now + CODE_TTL)))
    ensures code in h'.tables.codes ==>
      if code in h.tables.codes then h'.tables.codes[code] == h.tables.codes[code]
      else Mints(h, a, code, h'.tables.codes[code])
  {
    TablesAfter(h, a, h');
    hide Step;
  }

  // --- who may talk: a link is exactly a pairing not revoked since -----------------

  ghost predicate LinkedBy<S>(hs: seq<HubState<S>>, acts: seq<Act<S>>, n: nat, p: nat, x: string, y: string)
    requires Run(hs, acts) && n < |hs|
  {
    p < n && Pairs(hs[p], acts[p], x, y) && forall k :: p < k < n ==> !Revokes(hs[k], acts[k], x, y)
  }

  /** A link that outlived step n was there before it, unless the step made it. */
  lemma NotLinked<S>(hs: seq<HubState<S>>, acts: seq<Act<S>>, m: nat, n: nat, x: string, y: string)
    requires Run(hs, acts) && m + 1 == n < |hs| && !Pairs(hs[m], acts[m], x, y)
    requires Revokes(hs[m], acts[m], x, y) || forall p :: !LinkedBy(hs, acts, m, p, x, y)
    ensures forall p :: !LinkedBy(hs, acts, n, p, x, y)
  {
    hide Pairs, Revokes, Run;
    forall p
      ensures !LinkedBy(hs, acts, n, p, x, y)
    {
      assert LinkedBy(hs, acts, n, p, x, y) ==> LinkedBy(hs, acts, m, p, x, y);
    }
  }

  lemma {:induction false} LinkedIff<S>(hs: seq<HubState<S>>, acts: seq<Act<S>>, n: nat, x: string, y: string)
    requires Run(hs, acts) && n < |hs|
    ensures Authorised(hs[n].tables, x, y) <==> exists p :: LinkedBy(hs, acts, n, p, x, y)
  {
    hide Step, Init, Pairs, Revokes;
    if n == 0 {
      NoneAtStart(hs[0], x, y);
    } else {
      LinkedIff(hs, acts, n - 1, x, y);
      var h, a := hs[n - 1], acts[n - 1];
      AclStep(h, a, hs[n], x, y);
      NotBoth(h, a, x, y);
      if Pairs(h, a, x, y) {
        assert LinkedBy(hs, acts, n, n - 1, x, y);
      } else if Authorised(hs[n].tables, x, y) {
        var p :| LinkedBy(hs, acts, n - 1, p, x, y);
        assert LinkedBy(hs, acts, n, p, x, y);
      } else {
        NotLinked(hs, acts, n - 1, n, x, y);
      }
    }
  }

  lemma NoneAtStart<S>(h: HubState<S>, x: string, y: string)
    requires Init(h)
    ensures !Authorised(h.tables, x, y) && h.tables.codes == map[]
  {}

  lemma NotBoth<S>(h: HubState<S>, a: Act<S>, x: string, y: string)
    ensures !(Pairs(h, a, x, y) && Revokes(h, a, x, y))
  {}

  /** Code `code` was minted at step j and not redeemed before step n. */
  ghost predicate MintedAt<S>(hs: seq<HubState<S>>, acts: seq<Act<S>>, n: nat, j: nat, code: string, row: CodeRow)
    requires Run(hs, acts) && n < |hs|
  {
    j < n && Mints(hs[j], acts[j], code, row) && forall k :: j < k < n ==> !Redeems(hs[k], acts[k], code)
  }

  /** Every outstanding code was minted, by the owner on its row, and not redeemed since. */
  lemma {:induction false} CodeProvenance<S>(hs: seq<HubState<S>>, acts: seq<Act<S>>, n: nat, code: string)
    requires Run(hs, acts) && n < |hs| && code in hs[n].tables.codes
    ensures exists j :: MintedAt(hs, acts, n, j, code, hs[n].tables.codes[code])
  {
    hide Step, Init, Mints, Redeems;
    var row := hs[n].tables.codes[code];
    if n == 0 {
      NoneAtStart(hs[0], "", "");
    } else {
      var h, a := hs[n - 1], acts[n - 1];
      CodeStep(h, a, hs[n], code);
      if code in h.tables.codes {
        CodeProvenance(hs, acts, n - 1, code);
        var j :| MintedAt(hs, acts, n - 1, j, code, row);
        MintIsNotRedeem(h, a, code);
        assert MintedAt(hs, acts, n, j, code, row);
      } else {
        assert MintedAt(hs, acts, n, n - 1, code, row);
      }
    }
  }

  lemma MintIsNotRedeem<S>(h: HubState<S>, a: Act<S>, code: string)
    ensures forall row :: !(Mints(h, a, code, row) && Redeems(h, a, code))
  {}

  /** The redemption at step n spends what was minted at step j, for the machine that minted
      it and no later than the expiry second fixed then. */
  ghost predicate Spends<S>(hs: seq<HubState<S>>, acts: seq<Act<S>>, n: nat, j: nat, code: string)
    requires Run(hs, acts) && n < |acts|
  {
    && Redeems(hs[n], acts[n], code)
    && MintedAt(hs, acts, n, j, code, hs[n].tables.codes[code])
    && acts[n].env.now <= acts[j].env.now + CODE_TTL
    && IdOf(hs[j], acts[j].s) == hs[n].tables.codes[code].owner
  }

  /** Every redemption spends an earlier minting that nothing else has spent. */
  lemma RedeemedInTime<S>(hs: seq<HubState<S>>, acts: seq<Act<S>>, n: nat, code: string)
    requires Run(hs, acts) && n < |acts| && Redeems(hs[n], acts[n], code)
    ensures exists j: nat :: Spends(hs, acts, n, j, code)
  {
    hide Step, Init;
    CodeProvenance(hs, acts, n, code);
    var row := hs[n].tables.codes[code];
    var j: nat :| MintedAt(hs, acts, n, j, code, row);
    assert Mints(hs[j], acts[j], code, row);
    assert Spends(hs, acts, n, j, code);
  }

  /** A code is redeemed at most once per minting. */
  lemma RedeemedOnce<S>(hs: seq<HubState<S>>, acts: seq<Act<S>>, i: nat, k: nat, code: string)
    requires Run(hs, acts) && i < k < |acts|
    requires Redeems(hs[i], acts[i], code) && Redeems(hs[k], acts[k], code)
    ensures exists j :: i < j < k && Mints(hs[j], acts[j], code, hs[k].tables.codes[code])
  {
    hide Step, Mints;
    var row := hs[k].tables.codes[code];
    CodeProvenance(hs, acts, k, code);
    var j: nat :| MintedAt(hs, acts, k, j, code, row);
    if j == i {
      MintIsNotRedeem(hs[i], acts[i], code);
    }
  }

  /** The pairing at step p links x and y at step n: it is the last pairing or revocation
      between them, and it redeemed a code that one of the two minted at step j. */
  ghost predicate Justifies<S>(hs: seq<HubState<S>>, acts: seq<Act<S>>, n: nat, p: nat, j: nat, x: string, y: string)
    requires Run(hs, acts) && n < |hs|
  {
    && LinkedBy(hs, acts, n, p, x, y)
    && Spends(hs, acts, p, j, acts[p].req.code)
    && {IdOf(hs[j], acts[j].s), IdOf(hs[p], acts[p].s)} == {x, y}
  }

  /** Why two machines may talk, and that no machine is ever linked to itself. */
  lemma LinkJustified<S>(hs: seq<HubState<S>>, acts: seq<Act<S>>, n: nat, x: string, y: string)
    requires Run(hs, acts) && n < |hs|
    ensures Authorised(hs[n].tables, x, y) <==> exists p: nat, j: nat :: Justifies(hs, acts, n, p, j, x, y)
    ensures Authorised(hs[n].tables, x, y) ==> x != y
  {
    hide Step, Init, Mints;
    LinkedIff(hs, acts, n, x, y);
    if Authorised(hs[n].tables, x, y) {
      var p: nat :| LinkedBy(hs, acts, n, p, x, y);
      RedeemedInTime(hs, acts, p, acts[p].req.code);
      var j: nat :| Spends(hs, acts, p, j, acts[p].req.code);
      assert Justifies(hs, acts, n, p, j, x, y);
    }
  }

  // --- relaying -----------------------------------------------------------------------

  /** Messages put on the queue of session t by one step. */
  ghost function Appended<S>(h: HubState<S>, h': HubState<S>, t: S): seq<Message> {
    if t !in h'.sessions then []
    else if t in h.sessions && h.sessions[t].out <= h'.sessions[t].out then h'.sessions[t].out[|h.sessions[t].out|..]
    else h'.sessions[t].out
  }

  /** From h to h' queues only grow, and by no message about a channel. */
  ghost predicate NoFrames<S>(h: HubState<S>, h': HubState<S>) {
    && h'.sessions.Keys == h.sessions.Keys
    && forall t :: t in h.sessions ==>
         && h.sessions[t].out <= h'.sessions[t].out
         && forall m :: m in h'.sessions[t].out[|h.sessions[t].out|..] ==> !ForChannel(m)
  }

  lemma NoFramesTrans<S>(h: HubState<S>, h1: HubState<S>, h2: HubState<S>)
    requires NoFrames(h, h1) && NoFrames(h1, h2)
    ensures NoFrames(h, h2)
  {
    hide ForChannel;
    forall t | t in h.sessions
      ensures h.sessions[t].out <= h2.sessions[t].out
      ensures forall m :: m in h2.sessions[t].out[|h.sessions[t].out|..] ==> !ForChannel(m)
    {
      var a, b, c := h.sessions[t].out, h1.sessions[t].out, h2.sessions[t].out;
      assert c[|a|..] == b[|a|..] + c[|b|..];
    }
  }

  lemma QueueNoFrames<S>(h: HubState<S>, s: S, m: Message, env: Env<S>)
    requires s in h.sessions && !ForChannel(m)
    ensures NoFrames(h, Reply(h, s, m, env))
  {}

  /** A reply followed by a broadcast. */
  lemma AnswerNoFrames<S>(h: HubState<S>, s: S, m: Message, env: Env<S>)
    requires s in h.sessions && !ForChannel(m)
    ensures NoFrames(h, Broadcast(Reply(h, s, m, env), env))
  {
    hide Broadcast, Reply;
    QueueNoFrames(h, s, m, env);
    BroadcastKeeps(Reply(h, s, m, env), env);
    NoFramesTrans(h, Reply(h, s, m, env), Broadcast(Reply(h, s, m, env), env));
  }

  lemma PairNoFrames<S>(h: HubState<S>, s: S, code: string, name: string, pubkey: string, env: Env<S>)
    requires s in h.sessions
    ensures NoFrames(h, OnPair(h, s, code, name, pubkey, env))
  {
    hide Broadcast, Reply, Less;
    QueueNoFrames(h, s, Error(""), env);
    var id := h.sessions[s].id;
    if id != "" && ConsumeOp !in env.fails && Lookup(h.tables, code, env.now).Owner? {
      var owner := h.tables.codes[code].owner;
      var h1 := h.(tables := h.tables.(codes := h.tables.codes - {code}));
      var h2 := h1.(tables := Upsert(h1.tables, id, name, pubkey));
      var h3 := h2.(tables := h2.tables.(acls := h2.tables.acls + {PairOf(owner, id)}));
      QueueNoFrames(h1, s, Error(""), env);
      QueueNoFrames(h2, s, Error(""), env);
      AnswerNoFrames(h3, s, Paired(owner), env);
    }
  }

  lemma HelloNoFrames<S>(h: HubState<S>, s: S, id: string, name: string, pubkey: string, token: string, env: Env<S>)
    requires s in h.sessions
    ensures NoFrames(h, OnHello(h, s, id, name, pubkey, token, env))
  {
    hide Broadcast, Reply;
    QueueNoFrames(h, s, Error(""), env);
    var h1 := Register(h.(tables := Upsert(h.tables, id, name, pubkey)), s, id, name);
    AnswerNoFrames(h1, s, Welcome(id, name), env);
    NoFramesTrans(h, h1, Broadcast(Reply(h1, s, Welcome(id, name), env), env));
  }

  /** Any request but a relay or a close puts nothing about a channel on any queue. */
  lemma HandleNoFrames<S>(h: HubState<S>, s: S, req: Request, env: Env<S>)
    requires s in h.sessions && !req.Relay? && !req.RelayClose?
    ensures NoFrames(h, Handle(h, s, req, env))
  {
    hide Broadcast, Reply, OnPair, OnHello, NoFrames, Less, MachineList;
    var id := h.sessions[s].id;
    QueueNoFrames(h, s, Error(""), env);
    SameSessions(h, h);
    match req
    case Hello(id, name, pubkey, token) => HelloNoFrames(h, s, id, name, pubkey, token, env);
    case MakeCode =>
      var h1 := h.(tables := h.tables.(codes := h.tables.codes[env.code := CodeRow(id, env.now + CODE_TTL)]));
      QueueNoFrames(h1, s, CodeCreated(env.code), env);
      SameSessions(h, h1);
      NoFramesTrans(h, h1, Reply(h1, s, CodeCreated(env.code), env));
    case Pair(code, name, pubkey) => PairNoFrames(h, s, code, name, pubkey, env);
    case Revoke(target) =>
      var h1 := h.(tables := h.tables.(acls := h.tables.acls - {PairOf(id, target)}));
      AnswerNoFrames(h1, s, Revoked(target), env);
      SameSessions(h, h1);
      NoFramesTrans(h, h1, Broadcast(Reply(h1, s, Revoked(target), env), env));
    case List => QueueNoFrames(h, s, Update(MachineList(h, env)), env);
    case Unknown =>
  }

  ghost predicate SameIds<S>(h: HubState<S>, h': HubState<S>) {
    h'.sessions.Keys == h.sessions.Keys && forall t :: t in h.sessions ==> h'.sessions[t].id == h.sessions[t].id
  }

  lemma AnswerIds<S>(h: HubState<S>, s: S, m: Message, env: Env<S>)
    requires s in h.sessions
    ensures SameIds(h, Reply(h, s, m, env)) && SameIds(h, Broadcast(Reply(h, s, m, env), env))
  {
    BroadcastKeeps(Reply(h, s, m, env), env);
    hide Broadcast;
  }

  lemma PairIds<S>(h: HubState<S>, s: S, code: string, name: string, pubkey: string, env: Env<S>)
    requires s in h.sessions
    ensures SameIds(h, OnPair(h, s, code, name, pubkey, env))
  {
    hide Broadcast, Reply, Less, Lookup;
    AnswerIds(h, s, Error(""), env);
    var id := h.sessions[s].id;
    if Lookup(h.tables, code, env.now).Owner? {
      FoundCode(h.tables, code, env.now);
      var owner := h.tables.codes[code].owner;
      var h1 := h.(tables := h.tables.(codes := h.tables.codes - {code}));
      var h2 := h1.(tables := Upsert(h1.tables, id, name, pubkey));
      var h3 := h2.(tables := h2.tables.(acls := h2.tables.acls + {PairOf(owner, id)}));
      AnswerIds(h1, s, Error(""), env);
      AnswerIds(h2, s, Error(""), env);
      AnswerIds(h3, s, Paired(owner), env);
    }
  }

  /** The id of a session is its own and changes only by its hello. */
  lemma HandleIds<S>(h: HubState<S>, s: S, req: Request, env: Env<S>)
    requires s in h.sessions
    ensures var h' := Handle(h, s, req, env);
      && h'.sessions.Keys == h.sessions.Keys
      && forall t :: t in h.sessions ==>
           h'.sessions[t].id == h.sessions[t].id || (t == s && req.Hello? && h'.sessions[t].id == req.id)
  {
    hide Broadcast, MachineList, Less, OnPair, OnRelay, OnRelayClose, Reply;
    AnswerIds(h, s, Error(""), env);
    var id := h.sessions[s].id;
    match req
    case Hello(id, name, pubkey, token) =>
      AnswerIds(Register(h.(tables := Upsert(h.tables, id, name, pubkey)), s, id, name), s, Welcome(id, name), env);
    case MakeCode =>
      var row := CodeRow(id, env.now + CODE_TTL);
      AnswerIds(h.(tables := h.tables.(codes := h.tables.codes[env.code := row])), s, CodeCreated(env.code), env);
    case Pair(code, name, pubkey) => PairIds(h, s, code, name, pubkey, env);
    case Revoke(target) =>
      AnswerIds(h.(tables := h.tables.(acls := h.tables.acls - {PairOf(id, target)})), s, Revoked(target), env);
    case List => AnswerIds(h, s, Update(MachineList(h, env)), env);
    case Relay(_, _, _, _, _) => RelayIds(h, s, req, env);
    case RelayClose(_, _) => RelayIds(h, s, req, env);
    case Unknown =>
  }

  lemma RelayIds<S>(h: HubState<S>, s: S, req: Request, env: Env<S>)
    requires s in h.sessions && (req.Relay? || req.RelayClose?)
    ensures SameIds(h, Handle(h, s, req, env))
  {
    hide Broadcast, Less, Reply;
    var id := h.sessions[s].id;
    AnswerIds(h, s, Error(req.channel), env);
    if req.to in h.clients && h.clients[req.to] in h.sessions {
      if req.Relay? {
        AnswerIds(h, h.clients[req.to], Relayed(id, req.channel, req.service, req.dial, req.data), env);
      } else {
        AnswerIds(h, h.clients[req.to], Closed(id, req.channel), env);
      }
    }
  }

  lemma FoundCode(t: Tables, code: string, now: int)
    requires Lookup(t, code, now).Owner?
    ensures code in t.codes
  {}

  lemma SameSessions<S>(h: HubState<S>, h': HubState<S>)
    requires h.sessions == h'.sessions
    ensures NoFrames(h, h')
  {}

  /** Who a frame comes from, and by what right: the step is a relay message of a session
      known as `from`, the pair is linked, the target is the session registered under the
      address, and nothing in the frame is changed. */
  ghost predicate Authority<S>(h: HubState<S>, a: Act<S>, t: S, m: Message) {
    && m.Relayed? && a.Receive? && a.req.Relay?
    && m.from != "" && IdOf(h, a.s) == m.from
    && Authorised(h.tables, m.from, a.req.to)
    && a.req.to in h.clients && h.clients[a.req.to] == t
    && m == Relayed(IdOf(h, a.s), a.req.channel, a.req.service, a.req.dial, a.req.data)
  }

  lemma FrameAuthority<S>(h: HubState<S>, a: Act<S>, h': HubState<S>, t: S)
    requires Step(h, a, h')
    ensures forall m :: m in Appended(h, h', t) && m.Relayed? ==> Authority(h, a, t, m)
  {
    hide Broadcast, Less, MachineList;
    match a
    case Join(s) =>
    case Receive(s, req, env) =>
      if req.Relay? || req.RelayClose? {
        var id := h.sessions[s].id;
        assert t in h'.sessions ==> t in h.sessions && h.sessions[t].out <= h'.sessions[t].out;
      } else {
        HandleNoFrames(h, s, req, env);
      }
    case Part(s, env) =>
      var id := h.sessions[s].id;
      var h1 := h.(clients := if id != "" then h.clients - {id} else h.clients, sessions := h.sessions - {s});
      BroadcastKeeps(h1, env);
    case Restart =>
  }

  /** And conversely: a frame that has that right is put on the queue unless the store or
      the five-second wait fails. */
  lemma FrameForwarded<S>(h: HubState<S>, a: Act<S>, h': HubState<S>, t: S, m: Message)
    requires RegistryOk(h) && Step(h, a, h') && Authority(h, a, t, m)
    requires a.req.channel != "" && HasAclOp !in a.env.fails
    ensures Appended(h, h', t) == if t in a.env.lostReplies then [] else [m]
    ensures forall u :: u != t ==> Appended(h, h', u) == []
  {}

  /** Over a whole run: a frame put on a queue at step n was sent by a machine linked to the
      addressed one by a pairing with no revocation since. */
  lemma FrameJustified<S>(hs: seq<HubState<S>>, acts: seq<Act<S>>, n: nat, t: S)
    requires Run(hs, acts) && n < |acts|
    ensures forall m :: m in Appended(hs[n], hs[n + 1], t) && m.Relayed? ==>
      Authority(hs[n], acts[n], t, m) && exists p: nat, j: nat :: Justifies(hs, acts, n, p, j, m.from, acts[n].req.to)
  {
    hide Appended, Justifies, Init, Step;
    FrameAuthority(hs[n], acts[n], hs[n + 1], t);
    forall m | m in Appended(hs[n], hs[n + 1], t) && m.Relayed?
      ensures exists p: nat, j: nat :: Justifies(hs, acts, n, p, j, m.from, acts[n].req.to)
    {
      LinkJustified(hs, acts, n, m.from, acts[n].req.to);
    }
  }

  lemma UnlinkedSince<S>(hs: seq<HubState<S>>, acts: seq<Act<S>>, k: nat, n: nat, x: string, y: string)
    requires Run(hs, acts) && k < n < |hs| && Revokes(hs[k], acts[k], x, y) && !Pairs(hs[k], acts[k], x, y)
    requires forall p :: k < p < n ==> !Pairs(hs[p], acts[p], x, y)
    ensures forall p :: !LinkedBy(hs, acts, n, p, x, y)
  {
    hide Pairs, Revokes, Run;
  }

  /** After a revocation no frame passes between the two, in either direction, until they
      pair again. */
  lemma NoFrameAfterRevoke<S>(hs: seq<HubState<S>>, acts: seq<Act<S>>, k: nat, n: nat, x: string, y: string, t: S)
    requires Run(hs, acts) && k < n < |acts| && Revokes(hs[k], acts[k], x, y)
    requires forall p :: k < p < n ==> !Pairs(hs[p], acts[p], x, y)
    ensures acts[n].Receive? && acts[n].req.Relay? ==>
      forall m :: m in Appended(hs[n], hs[n + 1], t) && m.Relayed? ==>
        !(m.from == x && acts[n].req.to == y) && !(m.from == y && acts[n].req.to == x)
  {
    hide Appended, Init, Step, Pairs, Revokes;
    FrameAuthority(hs[n], acts[n], hs[n + 1], t);
    LinkedIff(hs, acts, n, x, y);
    PairUnordered(x, y);
    NotBoth(hs[k], acts[k], x, y);
    UnlinkedSince(hs, acts, k, n, x, y);
  }

  // --- conservation of codes -------------------------------------------------------------

  ghost predicate MintsAny<S>(h: HubState<S>, a: Act<S>) {
    a.Receive? && Mints(h, a, a.env.code, CodeRow(IdOf(h, a.s), a.env.now + CODE_TTL))
  }

  ghost predicate RedeemsAny<S>(h: HubState<S>, a: Act<S>) {
    a.Receive? && a.req.Pair? && Redeems(h, a, a.req.code)
  }

  ghost function Mintings<S>(hs: seq<HubState<S>>, acts: seq<Act<S>>, n: nat): nat
    requires n <= |acts| < |hs|
  {
    if n == 0 then 0 else Mintings(hs, acts, n - 1) + if MintsAny(hs[n - 1], acts[n - 1]) then 1 else 0
  }

  ghost function Redemptions<S>(hs: seq<HubState<S>>, acts: seq<Act<S>>, n: nat): nat
    requires n <= |acts| < |hs|
  {
    if n == 0 then 0 else Redemptions(hs, acts, n - 1) + if RedeemsAny(hs[n - 1], acts[n - 1]) then 1 else 0
  }

  lemma CountStep<S>(h: HubState<S>, a: Act<S>, h': HubState<S>)
    requires Step(h, a, h')
    ensures |h'.tables.codes|
         == |h.tables.codes| + (if MintsAny(h, a) then 1 else 0) - (if RedeemsAny(h, a) then 1 else 0)
  {
    hide Step;
    TablesAfter(h, a, h');
    if RedeemsAny(h, a) {
      OneLess(h.tables.codes, a.req.code);
    }
  }

  lemma OneLess<V>(m: map<string, V>, k: string)
    requires k in m
    ensures |m - {k}| == |m| - 1
  {
    assert (m - {k})[k := m[k]] == m;
  }

  /** Outstanding codes and successful redemptions add up to successful mintings. */
  lemma {:induction false} CodesConserved<S>(hs: seq<HubState<S>>, acts: seq<Act<S>>, n: nat)
    requires Run(hs, acts) && n <= |acts|
    ensures |hs[n].tables.codes| + Redemptions(hs, acts, n) == Mintings(hs, acts, n)
  {
    hide Step, Init, MintsAny, RedeemsAny;
    if n == 0 {
      NoneAtStart(hs[0], "", "");
    } else {
      CodesConserved(hs, acts, n - 1);
      CountStep(hs[n - 1], acts[n - 1], hs[n]);
    }
  }

  /** The clock seen by the handlers from step k on is never before `now`. */
  ghost predicate NotBefore<S>(acts: seq<Act<S>>, k: nat, now: int) {
    forall i :: k <= i < |acts| && acts[i].Receive? ==> acts[i].env.now >= now
  }

  /** A code found expired stays in the table for good: it is never redeemed, its owner never
      changes and the same code can never be minted again. */
  lemma {:induction false} ExpiredForGood<S>(hs: seq<HubState<S>>, acts: seq<Act<S>>, k: nat, n: nat, code: string,
                                             now: int)
    requires Run(hs, acts) && k <= n < |hs| && code in hs[k].tables.codes
    requires now > hs[k].tables.codes[code].expires && NotBefore(acts, k, now)
    ensures code in hs[n].tables.codes && hs[n].tables.codes[code] == hs[k].tables.codes[code]
    ensures n < |acts| ==> !Redeems(hs[n], acts[n], code) && forall row :: !Mints(hs[n], acts[n], code, row)
  {
    hide Step, Init;
    if n > k {
      ExpiredForGood(hs, acts, k, n - 1, code, now);
      CodeStep(hs[n - 1], acts[n - 1], hs[n], code);
    }
  }
}
