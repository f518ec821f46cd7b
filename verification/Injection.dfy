/** Injection of default limits into a docker-run command. */
module Injection {
  import opened DecimalText
  import opened RunArgs

  datatype Config = Config(cpus: int, memoryGB: int, pids: int, gpu: string)

  /** What the linked machine reported. */
  datatype Host = Host(gpu: string, cores: int, ramGB: int)

  type Default = (string, string)

  const INJECTED: set<string> := {"--cpus", "--memory", "--pids-limit", "--gpus"}

  function Cpus(cfg: Config, host: Host): int {
    if host.cores > 0 && cfg.cpus > host.cores then host.cores else cfg.cpus
  }

  /** The host keeps one gigabyte, but is always asked for at least one. */
  function MemoryGB(cfg: Config, host: Host): int {
    var headroom := if host.ramGB - 1 < 1 then 1 else host.ramGB - 1;
    if host.ramGB > 0 && cfg.memoryGB > headroom then headroom else cfg.memoryGB
  }

  predicate WantsGpu(has: set<string>, cfg: Config, host: Host, gpuEnvOff: bool) {
    cfg.gpu != "off" && !gpuEnvOff && host.gpu == "nvidia" && "--gpus" !in has && "--device" !in has
  }

  function CpuDefault(has: set<string>, cfg: Config, host: Host): seq<Default> {
    if "--cpus" !in has && "--cpu-shares" !in has && Cpus(cfg, host) > 0
    then [("--cpus", Decimal(Cpus(cfg, host)))] else []
  }

  function MemoryDefault(has: set<string>, cfg: Config, host: Host): seq<Default> {
    if "--memory" !in has && "-m" !in has && MemoryGB(cfg, host) > 0
    then [("--memory", Decimal(MemoryGB(cfg, host)) + "g")] else []
  }

  function PidsDefault(has: set<string>, cfg: Config): seq<Default> {
    if "--pids-limit" !in has && cfg.pids > 0 then [("--pids-limit", Decimal(cfg.pids))] else []
  }

  function GpuDefault(has: set<string>, cfg: Config, host: Host, gpuEnvOff: bool): seq<Default> {
    if WantsGpu(has, cfg, host, gpuEnvOff) then [("--gpus", "all")] else []
  }

  ghost predicate Known(ds: seq<Default>) {
    forall d :: d in ds ==> d.0 in INJECTED
  }

  function Defaults(has: set<string>, cfg: Config, host: Host, gpuEnvOff: bool): (ds: seq<Default>)
    ensures Known(ds)
  {
    CpuDefault(has, cfg, host) + MemoryDefault(has, cfg, host) + PidsDefault(has, cfg)
      + GpuDefault(has, cfg, host, gpuEnvOff)
  }

  function Tokens(ds: seq<Default>): seq<string> {
    if ds == [] then [] else [ds[0].0, ds[0].1] + Tokens(ds[1..])
  }

  lemma {:induction false} TokensAppend(ds: seq<Default>, es: seq<Default>)
    ensures Tokens(ds + es) == Tokens(ds) + Tokens(es)
  {
    if ds == [] {
      assert ds + es == es;
    } else {
      assert (ds + es)[1..] == ds[1..] + es;
      TokensAppend(ds[1..], es);
    }
  }

  function Inject(args: seq<string>, has: set<string>, cfg: Config, host: Host, gpuEnvOff: bool): seq<string>
    requires args != []
  {
    [args[0]] + Tokens(Defaults(has, cfg, host, gpuEnvOff)) + args[1..]
  }

  // --- the limits and the tokens, spelled out ---------------------------------------------------

  function Least(a: int, b: int): int {
    if a <= b then a else b
  }

  function Most(a: int, b: int): int {
    if a >= b then a else b
  }

  /** The configured cores, or the host's if those are fewer and known. */
  function CpusGiven(cfg: Config, host: Host): int {
    if host.cores <= 0 then cfg.cpus else Least(cfg.cpus, host.cores)
  }

  /** The configured memory, or all of the host's but one gigabyte if that is less and known; but one
      gigabyte is not too much. */
  function MemoryGiven(cfg: Config, host: Host): int {
    if host.ramGB <= 0 then cfg.memoryGB else Least(cfg.memoryGB, Most(1, host.ramGB - 1))
  }

  /** The injected tokens, one flag after the other: a limit when it is positive and none of its flags
      was seen, a GPU request when the host has an nvidia card, nobody switched it off, and neither
      GPUs nor devices were asked for. */
  function Extra(has: set<string>, cfg: Config, host: Host, gpuEnvOff: bool): seq<string> {
    (if has !! {"--cpus", "--cpu-shares"} && CpusGiven(cfg, host) > 0
     then ["--cpus", Decimal(CpusGiven(cfg, host))] else [])
    + (if has !! {"--memory", "-m"} && MemoryGiven(cfg, host) > 0
       then ["--memory", Decimal(MemoryGiven(cfg, host)) + "g"] else [])
    + (if has !! {"--pids-limit"} && cfg.pids > 0 then ["--pids-limit", Decimal(cfg.pids)] else [])
    + (if has !! {"--gpus", "--device"} && host.gpu == "nvidia" && !(cfg.gpu == "off" || gpuEnvOff)
       then ["--gpus", "all"] else [])
  }

  lemma OneDefault(flag: string, val: string)
    ensures Tokens([(flag, val)]) == [flag, val] && Tokens([]) == []
  {
    assert [(flag, val)][1..] == [];
    assert [flag, val] + [] == [flag, val];
  }

  lemma Clamped(cfg: Config, host: Host)
    ensures Cpus(cfg, host) == CpusGiven(cfg, host) && MemoryGB(cfg, host) == MemoryGiven(cfg, host)
  {}

  lemma DefaultTokens(has: set<string>, cfg: Config, host: Host, gpuEnvOff: bool)
    ensures Tokens(Defaults(has, cfg, host, gpuEnvOff)) == Extra(has, cfg, host, gpuEnvOff)
  {
    hide Tokens, Decimal, CpusGiven, MemoryGiven, Cpus, MemoryGB;
    Clamped(cfg, host);
    var c, m := CpuDefault(has, cfg, host), MemoryDefault(has, cfg, host);
    var p, g := PidsDefault(has, cfg), GpuDefault(has, cfg, host, gpuEnvOff);
    TokensAppend(c + m + p, g);
    TokensAppend(c + m, p);
    TokensAppend(c, m);
    OneDefault("--cpus", if Cpus(cfg, host) > 0 then Decimal(Cpus(cfg, host)) else "");
    OneDefault("--memory", if MemoryGB(cfg, host) > 0 then Decimal(MemoryGB(cfg, host)) + "g" else "");
    OneDefault("--pids-limit", if cfg.pids > 0 then Decimal(cfg.pids) else "");
    OneDefault("--gpus", "all");
  }

  /** The injected command is the user's with those tokens behind its first argument. */
  lemma InjectedTokens(args: seq<string>, has: set<string>, cfg: Config, host: Host, gpuEnvOff: bool)
    requires args != []
    ensures Inject(args, has, cfg, host, gpuEnvOff) == [args[0]] + Extra(has, cfg, host, gpuEnvOff) + args[1..]
  {
    hide Tokens, Defaults, Extra;
    DefaultTokens(has, cfg, host, gpuEnvOff);
  }

  lemma TokensOfNone()
    ensures Tokens([]) == []
  {}

  lemma AddToken(ds: seq<Default>, name: string, val: string) returns (es: seq<Default>)
    ensures es == ds + [(name, val)] && Tokens(es) == Tokens(ds) + [name, val]
  {
    es := ds + [(name, val)];
    TokensAppend(ds, [(name, val)]);
  }

  lemma Assembled(args: seq<string>, has: set<string>, cfg: Config, host: Host, gpuEnvOff: bool, extra: seq<string>)
    requires args != [] && extra == Tokens(Defaults(has, cfg, host, gpuEnvOff))
    ensures Inject(args, has, cfg, host, gpuEnvOff) == [args[0]] + extra + args[1..]
    ensures extra == [] ==> Inject(args, has, cfg, host, gpuEnvOff) == args
  {}

  /** The configured limits, lowered to what the host has. */
  method ClampLimits(cfg: Config, host: Host) returns (cpus: int, memGB: int)
    ensures cpus == Cpus(cfg, host) == CpusGiven(cfg, host)
    ensures memGB == MemoryGB(cfg, host) == MemoryGiven(cfg, host)
    ensures cpus <= cfg.cpus && (host.cores > 0 ==> cpus <= host.cores)
    ensures memGB <= cfg.memoryGB && (host.ramGB > 1 ==> memGB < host.ramGB)
    ensures cfg.memoryGB > 0 ==> memGB > 0
  {
    cpus := cfg.cpus;
    if host.cores > 0 && cpus > host.cores {
      cpus := host.cores;
    }
    memGB := cfg.memoryGB;
    if host.ramGB > 0 {
      var headroom := host.ramGB - 1;
      if headroom < 1 {
        headroom := 1;
      }
      if memGB > headroom {
        memGB := headroom;
      }
    }
  }

  method InjectDefaults(args: seq<string>, has: set<string>, cfg: Config, host: Host, gpuEnvOff: bool)
    returns (out: seq<string>)
    requires args != []
    ensures out == Inject(args, has, cfg, host, gpuEnvOff)
    ensures out == [args[0]] + Extra(has, cfg, host, gpuEnvOff) + args[1..]
  {
    hide Tokens, Decimal, Inject, Cpus, MemoryGB, CpusGiven, MemoryGiven, Extra;
    InjectedTokens(args, has, cfg, host, gpuEnvOff);
    var cpus, memGB := ClampLimits(cfg, host);
    var extra: seq<string> := [];
    ghost var ds: seq<Default> := [];
    TokensOfNone();
    if "--cpus" !in has && "--cpu-shares" !in has && cpus > 0 {
      extra := extra + ["--cpus", Decimal(cpus)];
      ds := AddToken(ds, "--cpus", Decimal(cpus));
    }
    ghost var limits := ds;
    assert limits == CpuDefault(has, cfg, host);
    hide CpuDefault;
    if "--memory" !in has && "-m" !in has && memGB > 0 {
      extra := extra + ["--memory", Decimal(memGB) + "g"];
      ds := AddToken(ds, "--memory", Decimal(memGB) + "g");
    }
    assert ds == limits + MemoryDefault(has, cfg, host);
    hide MemoryDefault;
    limits := ds;
    if "--pids-limit" !in has && cfg.pids > 0 {
      extra := extra + ["--pids-limit", Decimal(cfg.pids)];
      ds := AddToken(ds, "--pids-limit", Decimal(cfg.pids));
    }
    assert ds == limits + PidsDefault(has, cfg);
    hide PidsDefault;
    limits := ds;
    if cfg.gpu != "off" && !gpuEnvOff {
      if host.gpu == "nvidia" && "--gpus" !in has && "--device" !in has {
        extra := extra + ["--gpus", "all"];
        ds := AddToken(ds, "--gpus", "all");
      }
    }
    assert ds == limits + GpuDefault(has, cfg, host, gpuEnvOff);
    Assembled(args, has, cfg, host, gpuEnvOff, extra);
    if |extra| == 0 {
      return args;
    }
    out := [args[0]];
    out := out + extra;
    out := out + args[1..];
  }

  // --- rescanning an injected command ---------------------------------------

  function Names(ds: seq<Default>): set<string> {
    set d | d in ds :: d.0
  }

  lemma InjectedFlag(f: string)
    requires f in INJECTED
    ensures IsName(f) && f != "--publish" && f != "--detach" && f[2] != '-'
  {}

  lemma InjectedTakesValue(f: string)
    requires f in INJECTED
    ensures TakesValue(f)
  {}

  lemma OneDefaultScanned(d: Default, rest: seq<string>)
    requires d.0 in INJECTED
    ensures Scan([d.0, d.1] + rest) == Join(Found({d.0}, [], false), Scan(rest))
  {
    hide TakesValue, Scan;
    InjectedFlag(d.0);
    InjectedTakesValue(d.0);
    LongValueScanned(d.0, d.1, rest);
  }

  /** Every injected flag is one the scanner knows takes a value, so scanning
      passes over the injected prefix and sees its names and nothing else. */
  lemma {:induction false} ScanPassesDefaults(ds: seq<Default>, rest: seq<string>)
    requires Known(ds)
    ensures Scan(Tokens(ds) + rest) == Join(Found(Names(ds), [], false), Scan(rest))
  {
    hide Scan;
    if ds == [] {
      assert Tokens(ds) + rest == rest;
      JoinNothing(Scan(rest));
    } else {
      var more := Tokens(ds[1..]) + rest;
      assert Tokens(ds) + rest == [ds[0].0, ds[0].1] + more;
      OneDefaultScanned(ds[0], more);
      ScanPassesDefaults(ds[1..], rest);
      assert Names(ds) == {ds[0].0} + Names(ds[1..]) by {
        assert ds == [ds[0]] + ds[1..];
      }
      JoinAssoc(Found({ds[0].0}, [], false), Found(Names(ds[1..]), [], false), Scan(rest));
    }
  }

  /** The injected command, scanned again. */
  lemma InjectedScan(args: seq<string>, has: set<string>, cfg: Config, host: Host, gpuEnvOff: bool)
    requires args != []
    ensures var again := Scan(Inject(args, has, cfg, host, gpuEnvOff)[1..]);
      && again.publishes == Scan(args[1..]).publishes
      && again.detached == Scan(args[1..]).detached
      && again.has == Scan(args[1..]).has + Names(Defaults(has, cfg, host, gpuEnvOff))
  {
    hide Scan, Tokens;
    var ds := Defaults(has, cfg, host, gpuEnvOff);
    ScanPassesDefaults(ds, args[1..]);
    assert Inject(args, has, cfg, host, gpuEnvOff)[1..] == Tokens(ds) + args[1..];
  }

  /** A default already present, or already asked for, is not added a second time. */
  lemma NothingLeftToAdd(has: set<string>, cfg: Config, host: Host, gpuEnvOff: bool)
    ensures Defaults(has + Names(Defaults(has, cfg, host, gpuEnvOff)), cfg, host, gpuEnvOff) == []
  {
    var c, m := CpuDefault(has, cfg, host), MemoryDefault(has, cfg, host);
    var p, g := PidsDefault(has, cfg), GpuDefault(has, cfg, host, gpuEnvOff);
    var all := Defaults(has, cfg, host, gpuEnvOff);
    var names := Names(all);
    assert c != [] ==> c[0] in all && c[0].0 in names;
    assert m != [] ==> m[0] in all && m[0].0 in names;
    assert p != [] ==> p[0] in all && p[0].0 in names;
    assert g != [] ==> g[0] in all && g[0].0 in names;
  }

  lemma InjectionIdempotent(args: seq<string>, cfg: Config, host: Host, gpuEnvOff: bool)
    requires args != []
    ensures var once := Inject(args, Scan(args[1..]).has, cfg, host, gpuEnvOff);
      Inject(once, Scan(once[1..]).has, cfg, host, gpuEnvOff) == once
  {
    hide Scan, Defaults;
    var has := Scan(args[1..]).has;
    var once := Inject(args, has, cfg, host, gpuEnvOff);
    InjectedScan(args, has, cfg, host, gpuEnvOff);
    NothingLeftToAdd(has, cfg, host, gpuEnvOff);
    assert once == [once[0]] + Tokens([]) + once[1..];
  }
}
