/** The docker-run rewriter: the argument scanner and the injector of default limits.
    A token is a string of bytes, one char each. */
module RunArgs {
  import opened Basics
  import opened DecimalText

  /** What the scanner reports: flag names seen, publish specs in order, the detached bit. */
  datatype Found = Found(has: set<string>, publishes: seq<string>, detached: bool)

  const NOTHING := Found({}, [], false)

  function Join(a: Found, b: Found): Found {
    Found(a.has + b.has, a.publishes + b.publishes, a.detached || b.detached)
  }

  lemma JoinAssoc(a: Found, b: Found, c: Found)
    ensures Join(Join(a, b), c) == Join(a, Join(b, c))
  {
    assert a.publishes + b.publishes + c.publishes == a.publishes + (b.publishes + c.publishes);
    assert a.has + b.has + c.has == a.has + (b.has + c.has);
  }

  lemma JoinNothing(a: Found)
    ensures Join(a, NOTHING) == a && Join(NOTHING, a) == a
  {
    assert a.publishes + [] == a.publishes && [] + a.publishes == a.publishes;
    assert a.has + {} == a.has && {} + a.has == a.has;
  }

  const VALUE_FLAGS: set<string> := {
    "--publish", "--cpus", "--memory", "--pids-limit", "--gpus", "--device",
    "--cpuset-cpus", "--name", "--env", "--env-file", "--volume", "--mount",
    "--network", "--workdir", "--user", "--platform", "--pull", "--restart",
    "--label", "--add-host", "--entrypoint", "--ulimit", "--tmpfs", "--ip",
    "--ip6", "--link", "--mac-address", "--health-cmd", "--log-driver",
    "--log-opt", "--storage-opt", "--expose", "--shm-size", "--cgroup-parent",
    "--cpu-shares", "--cpu-quota", "--cpu-period", "--blkio-weight",
    "--oom-score-adj", "--init-path", "--stop-signal", "--stop-timeout"
  }

  predicate TakesValue(flag: string) {
    flag in VALUE_FLAGS
  }

  function From<T>(s: seq<T>, i: nat): seq<T> {
    if i <= |s| then s[i..] else []
  }

  function First<T>(s: seq<T>): Option<T> {
    if s == [] then None else Some(s[0])
  }

  /** Position of the first `c`, or the length when there is none. */
  function Find(s: string, c: char): (n: nat)
    ensures n <= |s| && c !in s[..n]
    ensures n < |s| ==> s[n] == c
  {
    if s == "" || s[0] == c then 0
    else
      var n := 1 + Find(s[1..], c);
      assert s[..n] == [s[0]] + s[1..][..n - 1];
      n
  }

  lemma {:induction false} FindAt(s: string, t: string, c: char)
    requires c !in s && (t == "" || t[0] == c)
    ensures Find(s + t, c) == |s|
  {
    if s == "" {
      assert s + t == t;
    } else {
      assert (s + t)[1..] == s[1..] + t;
      FindAt(s[1..], t, c);
    }
  }

  function FlagName(a: string): string {
    a[..Find(a, '=')]
  }

  function FlagValue(a: string): string {
    From(a, Find(a, '=') + 1)
  }

  /** The scanner stops at `--`, at an empty token and at the image name. */
  predicate Stops(args: seq<string>) {
    args == [] || args[0] == "--" || args[0] == "" || args[0][0] != '-'
  }

  predicate IsLong(a: string) {
    |a| >= 2 && a[..2] == "--"
  }

  /** Effect of a long flag, and how many tokens it takes. */
  function ScanLong(a: string): (Found, nat) {
    var name, val := FlagName(a), FlagValue(a);
    (Found({name}, if name == "--publish" then [val] else [], name == "--detach"),
     if val == "" && TakesValue(name) then 2 else 1)
  }

  /** Effect of the letters of a short cluster, and whether it takes the next token. */
  function ScanCluster(body: string, next: Option<string>): (Found, bool) {
    if body == "" then (NOTHING, false)
    else if body[0] == 'p' then
      if body[1..] != "" then (Found({"-p"}, [body[1..]], false), false)
      else if next.Some? then (Found({"-p"}, [next.value], false), true)
      else (Found({"-p"}, [], false), false)
    else
      var (rest, used) := ScanCluster(body[1..], next);
      (Join(Found({['-', body[0]]}, [], body[0] == 'd'), rest), used)
  }

  function ScanToken(args: seq<string>): (r: (Found, nat))
    requires !Stops(args)
    ensures 1 <= r.1 <= 2
  {
    if IsLong(args[0]) then ScanLong(args[0])
    else
      var (f, used) := ScanCluster(args[0][1..], First(args[1..]));
      (f, if used then 2 else 1)
  }

  function Scan(args: seq<string>): Found
    decreases |args|
  {
    if Stops(args) then NOTHING
    else Join(ScanToken(args).0, Scan(From(args, ScanToken(args).1)))
  }

  /** What is still to be scanned when the cluster has been read up to letter j. */
  ghost function Remaining(args: seq<string>, i: nat, body: string, j: nat, next: Option<string>): Found {
    var (f, used) := ScanCluster(From(body, j), next);
    Join(f, Scan(From(args, i + (if used then 2 else 1))))
  }

  lemma RemainingStep(args: seq<string>, i: nat, body: string, j: nat, next: Option<string>)
    requires j < |body| && body[j] != 'p'
    ensures Remaining(args, i, body, j, next)
         == Join(Found({['-', body[j]]}, [], body[j] == 'd'), Remaining(args, i, body, j + 1, next))
  {
    assert body[j..][1..] == body[j + 1..];
    var (f, used) := ScanCluster(body[j + 1..], next);
    JoinAssoc(Found({['-', body[j]]}, [], body[j] == 'd'), f, Scan(From(args, i + (if used then 2 else 1))));
  }

  /** `found` together with the scan of the tokens from i on is the whole answer. */
  ghost predicate AtToken(args: seq<string>, i: nat, found: Found, total: Found) {
    Join(found, Scan(From(args, i))) == total
  }

  ghost predicate AtLetter(args: seq<string>, i: nat, body: string, j: nat, next: Option<string>, found: Found,
                           total: Found) {
    Join(found, Remaining(args, i, body, j, next)) == total
  }

  /** Taking a long flag leaves the total unchanged. */
  lemma LongStep(args: seq<string>, i: nat, name: string, val: string, now: Found, total: Found)
    requires i < |args| && !Stops(args[i..]) && IsLong(args[i])
    requires name == FlagName(args[i]) && val == FlagValue(args[i])
    requires AtToken(args, i, now, total)
    ensures AtToken(args, i + (if val == "" && TakesValue(name) then 2 else 1),
      Found(now.has + {name}, if name == "--publish" then now.publishes + [val] else now.publishes,
            now.detached || name == "--detach"), total)
  {
    var (f, k) := ScanLong(args[i]);
    assert From(args[i..], k) == From(args, i + k);
    JoinAssoc(now, f, Scan(From(args, i + k)));
    assert now.publishes + [] == now.publishes;
  }

  lemma Started(args: seq<string>)
    ensures AtToken(args, 0, NOTHING, Scan(args))
  {
    JoinNothing(Scan(args));
  }

  lemma Finished(args: seq<string>, i: nat, found: Found, total: Found)
    requires AtToken(args, i, found, total) && Stops(From(args, i))
    ensures found == total
  {
    JoinNothing(found);
  }

  /** Entering a short cluster. */
  lemma ClusterStart(args: seq<string>, i: nat, found: Found, total: Found)
    requires i < |args| && !Stops(args[i..]) && !IsLong(args[i])
    requires AtToken(args, i, found, total)
    ensures AtLetter(args, i, args[i][1..], 0, First(args[i + 1..]), found, total)
  {
    var (f, k) := ScanToken(args[i..]);
    assert args[i..][1..] == args[i + 1..];
    assert From(args[i..], k) == From(args, i + k);
  }

  /** Taking a letter other than p. */
  lemma LetterStep(args: seq<string>, i: nat, body: string, j: nat, next: Option<string>, now: Found, total: Found)
    requires j < |body| && body[j] != 'p'
    requires AtLetter(args, i, body, j, next, now, total)
    ensures AtLetter(args, i, body, j + 1, next,
                     Found(now.has + {['-', body[j]]}, now.publishes, now.detached || body[j] == 'd'), total)
  {
    var letter := Found({['-', body[j]]}, [], body[j] == 'd');
    RemainingStep(args, i, body, j, next);
    JoinAssoc(now, letter, Remaining(args, i, body, j + 1, next));
    assert now.publishes + [] == now.publishes;
  }

  lemma NothingRemains(args: seq<string>, i: nat, body: string, j: nat, next: Option<string>)
    requires j >= |body|
    ensures Remaining(args, i, body, j, next) == Scan(From(args, i + 1))
  {
    JoinNothing(Scan(From(args, i + 1)));
  }

  /** Leaving a short cluster. */
  lemma ClusterEnd(args: seq<string>, i: nat, body: string, j: nat, next: Option<string>, found: Found, total: Found)
    requires j >= |body| && AtLetter(args, i, body, j, next, found, total)
    ensures AtToken(args, i + 1, found, total)
  {
    NothingRemains(args, i, body, j, next);
  }

  lemma PublishTaken(args: seq<string>, i: nat, body: string, j: nat, next: Option<string>, now: Found,
                     specs: seq<string>, total: Found)
    requires j >= |body|
    requires Join(now, Join(Found({"-p"}, specs, false), Scan(From(args, i + 1)))) == total
    ensures AtLetter(args, i, body, j, next, Found(now.has + {['-', 'p']}, now.publishes + specs, now.detached), total)
  {
    JoinAssoc(now, Found({"-p"}, specs, false), Scan(From(args, i + 1)));
    NothingRemains(args, i, body, j, next);
  }

  /** Taking the letter p, which ends the cluster. */
  lemma PublishStep(args: seq<string>, i: nat, body: string, j: nat, now: Found, total: Found)
    requires i < |args| && j < |body| && body[j] == 'p'
    requires AtLetter(args, i, body, j, First(args[i + 1..]), now, total)
    ensures var rest, next, has := body[j + 1..], First(args[i + 1..]), now.has + {['-', 'p']};
      if rest != "" then
        AtLetter(args, i, body, |body| + 1, next, Found(has, now.publishes + [rest], now.detached), total)
      else if i + 1 < |args| then
        AtLetter(args, i + 1, body, j + 1, next, Found(has, now.publishes + [args[i + 1]], now.detached), total)
      else
        AtLetter(args, i, body, j + 1, next, Found(has, now.publishes, now.detached), total)
  {
    var rest, next := body[j + 1..], First(args[i + 1..]);
    assert body[j..][1..] == rest;
    if rest != "" {
      PublishTaken(args, i, body, |body| + 1, next, now, [rest], total);
    } else if i + 1 < |args| {
      PublishTaken(args, i + 1, body, j + 1, next, now, [args[i + 1]], total);
    } else {
      PublishTaken(args, i, body, j + 1, next, now, [], total);
      assert now.publishes + [] == now.publishes;
    }
  }

  /** The inner loop: the letters of one short cluster. */
  method ScanShort(args: seq<string>, i0: nat, has0: set<string>, publishes0: seq<string>, detached0: bool,
                   ghost total: Found)
    returns (i: nat, has: set<string>, publishes: seq<string>, detached: bool)
    requires i0 < |args| && !Stops(args[i0..]) && !IsLong(args[i0])
    requires AtToken(args, i0, Found(has0, publishes0, detached0), total)
    ensures i0 < i && AtToken(args, i, Found(has, publishes, detached), total)
  {
    hide AtToken, AtLetter;
    i, has, publishes, detached := i0, has0, publishes0, detached0;
    var body := args[i][1..];
    ghost var next, found := First(args[i + 1..]), Found(has0, publishes0, detached0);
    ClusterStart(args, i, found, total);
    var j := 0;
    while j < |body|
      invariant 0 <= j <= |body| + 1
      invariant i == i0 || (i == i0 + 1 && j >= |body|)
      invariant found == Found(has, publishes, detached)
      invariant AtLetter(args, i, body, j, next, found, total)
    {
      has := has + {['-', body[j]]};
      if body[j] == 'd' {
        detached := true;
      }
      if body[j] == 'p' {
        PublishStep(args, i, body, j, found, total);
        var rest := body[j + 1..];
        if rest != "" {
          publishes := publishes + [rest];
          j := |body|;
        } else if i + 1 < |args| {
          i := i + 1;
          publishes := publishes + [args[i]];
        }
      } else {
        LetterStep(args, i, body, j, next, found, total);
      }
      found := Found(has, publishes, detached);
      j := j + 1;
    }
    ClusterEnd(args, i, body, j, next, found, total);
    i := i + 1;
  }

  method ScanRunArgs(args: seq<string>) returns (has: set<string>, publishes: seq<string>, detached: bool)
    ensures Found(has, publishes, detached) == Scan(args)
  {
    hide AtToken;
    has, publishes, detached := {}, [], false;
    ghost var total, found := Scan(args), NOTHING;
    Started(args);
    var i := 0;
    while i < |args|
      invariant 0 <= i
      invariant found == Found(has, publishes, detached)
      invariant AtToken(args, i, found, total)
      decreases |args| - i
    {
      var a := args[i];
      if a == "--" {
        break;
      }
      if a == "" || a[0] != '-' {
        break;
      }
      if IsLong(a) {
        var name, val := a, "";
        var eq := Find(a, '=');
        if eq < |a| {
          name, val := a[..eq], a[eq + 1..];
        }
        LongStep(args, i, name, val, found, total);
        has := has + {name};
        if name == "--detach" {
          detached := true;
        }
        if name == "--publish" {
          publishes := publishes + [val];
        }
        if val == "" && TakesValue(name) {
          i := i + 1;
        }
        i := i + 1;
      } else {
        i, has, publishes, detached := ScanShort(args, i, has, publishes, detached, total);
      }
      found := Found(has, publishes, detached);
    }
    Finished(args, i, found, total);
  }

  // --- what one rendered option does to the scan ------------------------------

  /** A flag name: two dashes, at least one more letter, no equals sign. */
  predicate IsName(f: string) {
    IsLong(f) && |f| > 2 && '=' !in f
  }

  lemma NameSplit(name: string)
    requires '=' !in name
    ensures FlagName(name) == name && FlagValue(name) == ""
  {
    FindAt(name, "", '=');
    assert name + "" == name;
  }

  lemma LongScanned(args: seq<string>, name: string, val: string, k: nat)
    requires args != [] && IsLong(args[0]) && |args[0]| > 2
    requires name == FlagName(args[0]) && val == FlagValue(args[0])
    requires k == (if val == "" && TakesValue(name) then 2 else 1)
    ensures Scan(args)
         == Join(Found({name}, if name == "--publish" then [val] else [], name == "--detach"), Scan(From(args, k)))
  {
    hide TakesValue;
  }

  /** `--f v` */
  lemma LongValueScanned(name: string, v: string, rest: seq<string>)
    requires IsName(name) && TakesValue(name) && name != "--publish"
    ensures Scan([name, v] + rest) == Join(Found({name}, [], name == "--detach"), Scan(rest))
  {
    hide TakesValue, Scan;
    NameSplit(name);
    LongScanned([name, v] + rest, name, "", 2);
    assert From([name, v] + rest, 2) == rest;
  }
}
