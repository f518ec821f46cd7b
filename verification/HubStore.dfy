/** The hub's store: machines, one-time codes and the pairs allowed to talk. */
module HubStore {

  datatype MachineRow = MachineRow(name: string, pubkey: string)
  datatype CodeRow = CodeRow(owner: string, expires: int)

  datatype Tables = Tables(machines: map<string, MachineRow>, codes: map<string, CodeRow>, acls: set<(string, string)>)

  datatype Redeem = Owner(id: string) | Invalid | Expired | StoreError

  /** Byte-wise order of strings. */
  predicate Less(a: string, b: string) {
    b != "" && (a == "" || a[0] < b[0] || (a[0] == b[0] && Less(a[1..], b[1..])))
  }

  lemma {:induction false} LessTotal(a: string, b: string)
    ensures !(Less(a, b) && Less(b, a))
    ensures a == b <==> !Less(a, b) && !Less(b, a)
  {
    if a != "" && b != "" && a[0] == b[0] {
      LessTotal(a[1..], b[1..]);
      assert a == [a[0]] + a[1..] && b == [b[0]] + b[1..];
    }
  }

  /** The row under which a pair of machines is stored. */
  function PairOf(a: string, b: string): (string, string) {
    if Less(b, a) then (b, a) else (a, b)
  }

  lemma PairUnordered(a: string, b: string)
    ensures PairOf(a, b) == PairOf(b, a)
  {
    LessTotal(a, b);
  }

  /** A row stands for exactly one unordered pair. */
  lemma PairDetermines(a: string, b: string, c: string, d: string)
    ensures PairOf(a, b) == PairOf(c, d) <==> (a == c && b == d) || (a == d && b == c)
  {
    PairUnordered(a, b);
  }

  function Upsert(t: Tables, id: string, name: string, pubkey: string): Tables {
    t.(machines := t.machines[id := MachineRow(name, pubkey)])
  }

  function GetRow(t: Tables, id: string): MachineRow {
    if id in t.machines then t.machines[id] else MachineRow("", "")
  }

  function Lookup(t: Tables, code: string, now: int): Redeem {
    if code !in t.codes then Invalid
    else if now > t.codes[code].expires then Expired
    else Owner(t.codes[code].owner)
  }

  function Authorised(t: Tables, a: string, b: string): bool {
    PairOf(a, b) in t.acls
  }

  class Store {
    var machines: map<string, MachineRow>
    var codes: map<string, CodeRow>
    var acls: set<(string, string)>

    ghost function Model(): Tables
      reads this
    {
      Tables(machines, codes, acls)
    }

    constructor ()
      ensures Model() == Tables(map[], map[], {})
    {
      machines, codes, acls := map[], map[], {};
    }

    method UpsertMachine(id: string, name: string, pubkey: string, fails: bool) returns (ok: bool)
      modifies this
      ensures ok == !fails
      ensures Model() == if ok then Upsert(old(Model()), id, name, pubkey) else old(Model())
    {
      if fails {
        return false;
      }
      machines := machines[id := MachineRow(name, pubkey)];
      ok := true;
    }

    method GetMachine(id: string) returns (row: MachineRow)
      ensures row == GetRow(Model(), id)
    {
      row := if id in machines then machines[id] else MachineRow("", "");
    }

    /** The insert fails on a code that is already outstanding: it never changes owner. */
    method CreateCode(owner: string, code: string, expires: int, fails: bool) returns (ok: bool)
      modifies this
      ensures ok <==> !fails && code !in old(codes)
      ensures Model() ==
        if ok then old(Model()).(codes := old(codes)[code := CodeRow(owner, expires)]) else old(Model())
    {
      if fails || code in codes {
        return false;
      }
      codes := codes[code := CodeRow(owner, expires)];
      ok := true;
    }

    /** A transaction: the delete of an expired code is undone by the deferred rollback. */
    method ConsumeCode(code: string, now: int, fails: bool) returns (r: Redeem)
      modifies this
      ensures r == if fails then StoreError else Lookup(old(Model()), code, now)
      ensures Model() == if r.Owner? then old(Model()).(codes := old(codes) - {code}) else old(Model())
    {
      var before := codes;
      if code !in codes {
        codes := before;
        return if fails then StoreError else Invalid;
      }
      var row := codes[code];
      if now > row.expires {
        codes := codes - {code};
        codes := before;
        return if fails then StoreError else Expired;
      }
      codes := codes - {code};
      if fails {
        codes := before;
        return StoreError;
      }
      return Owner(row.owner);
    }

    method AddACL(a0: string, b0: string, fails: bool) returns (ok: bool)
      modifies this
      ensures ok == !fails
      ensures Model() == if ok then old(Model()).(acls := old(acls) + {PairOf(a0, b0)}) else old(Model())
    {
      var a, b := a0, b0;
      if Less(b, a) {
        a, b := b, a;
      }
      if fails {
        return false;
      }
      acls := acls + {(a, b)};
      ok := true;
    }

    method HasACL(a0: string, b0: string) returns (found: bool)
      ensures found == Authorised(Model(), a0, b0)
    {
      var a, b := a0, b0;
      if Less(b, a) {
        a, b := b, a;
      }
      found := (a, b) in acls;
    }

    method DeleteACL(a0: string, b0: string, fails: bool) returns (ok: bool)
      modifies this
      ensures ok == !fails
      ensures Model() == if ok then old(Model()).(acls := old(acls) - {PairOf(a0, b0)}) else old(Model())
    {
      var a, b := a0, b0;
      if Less(b, a) {
        a, b := b, a;
      }
      if fails {
        return false;
      }
      acls := acls - {(a, b)};
      ok := true;
    }
  }
}
