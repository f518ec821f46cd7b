/** A reference reading of docker-run options, and what injection does to it.
    The reading is that of the pflag library without interspersed arguments: it is
    parameterised by the table of known flags, and keeps every occurrence in order. */
module DockerOptions {
  import opened Basics
  import opened DecimalText
  import opened RunArgs
  import opened Injection

  datatype FlagKind = Switch | Valued

  /** Known long names, and the long name each short letter stands for. */
  datatype Table = Table(long: map<string, FlagKind>, short: map<char, string>)

  type Setting = (string, string)

  datatype Parsed = Bad | Good(settings: seq<Setting>, rest: seq<string>)
  datatype ShortParsed = ShortBad | ShortGood(settings: seq<Setting>, used: bool)

  /** The table knows the flags that are injected, takes -m for --memory, and is closed. */
  ghost predicate DockerTable(t: Table) {
    && (forall f :: f in {"cpus", "memory", "pids-limit", "gpus"} ==> f in t.long && t.long[f] == Valued)
    && 'm' in t.short && t.short['m'] == "memory"
    && (forall c :: c in t.short ==> t.short[c] in t.long)
  }

  function ParseShort(t: Table, body: string, next: Option<string>): ShortParsed {
    if body == "" then ShortGood([], false)
    else if body[0] !in t.short || t.short[body[0]] !in t.long then ShortBad
    else
      var name := t.short[body[0]];
      if |body| > 2 && body[1] == '=' then ShortGood([(name, body[2..])], false)
      else if t.long[name] == Switch then
        match ParseShort(t, body[1..], next)
        case ShortBad => ShortBad
        case ShortGood(settings, used) => ShortGood([(name, "true")] + settings, used)
      else if |body| > 1 then ShortGood([(name, body[1..])], false)
      else if next.Some? then ShortGood([(name, next.value)], true)
      else ShortBad
  }

  function Before(settings: seq<Setting>, p: Parsed): Parsed {
    match p
    case Bad => Bad
    case Good(more, rest) => Good(settings + more, rest)
  }

  function Parse(t: Table, args: seq<string>): Parsed
    decreases |args|
  {
    if args == [] || args[0] == "" || args[0][0] != '-' || |args[0]| == 1 then Good([], args)
    else if args[0] == "--" then Good([], args[1..])
    else if args[0][1] == '-' then
      var eq := Find(args[0], '=');
      var name := if eq < 2 then "" else args[0][2..eq];
      if name == "" || name[0] == '-' || name !in t.long then Bad
      else if eq < |args[0]| then Before([(name, args[0][eq + 1..])], Parse(t, args[1..]))
      else if t.long[name] == Switch then Before([(name, "true")], Parse(t, args[1..]))
      else if |args| > 1 then Before([(name, args[1])], Parse(t, args[2..]))
      else Bad
    else
      match ParseShort(t, args[0][1..], First(args[1..]))
      case ShortBad => Bad
      case ShortGood(settings, used) => Before(settings, Parse(t, From(args, if used then 2 else 1)))
  }

  /** Every value given to a flag, in order. */
  function All(settings: seq<Setting>, name: string): seq<string> {
    if settings == [] then []
    else (if settings[0].0 == name then [settings[0].1] else []) + All(settings[1..], name)
  }

  /** The value in force: the last one given. */
  function Last(settings: seq<Setting>, name: string): Option<string> {
    var vs := All(settings, name);
    if vs == [] then None else Some(vs[|vs| - 1])
  }

  lemma {:induction false} AllAppend(xs: seq<Setting>, ys: seq<Setting>, name: string)
    ensures All(xs + ys, name) == All(xs, name) + All(ys, name)
  {
    if xs == [] {
      assert xs + ys == ys;
    } else {
      assert (xs + ys)[1..] == xs[1..] + ys;
      AllAppend(xs[1..], ys, name);
    }
  }

  lemma BeforeAppend(xs: seq<Setting>, ys: seq<Setting>, p: Parsed)
    ensures Before(xs, Before(ys, p)) == Before(xs + ys, p)
  {
    if p.Good? {
      assert xs + (ys + p.settings) == xs + ys + p.settings;
    }
  }

  /** Defaults as docker reads them: without the dashes. */
  ghost function Settings(ds: seq<Default>): seq<Setting>
    requires Known(ds)
  {
    if ds == [] then [] else [(ds[0].0[2..], ds[0].1)] + Settings(ds[1..])
  }

  lemma InjectedKnown(t: Table, f: string)
    requires DockerTable(t) && f in INJECTED
    ensures f[2..] in t.long && t.long[f[2..]] == Valued
  {
    assert f[2..] in {"cpus", "memory", "pids-limit", "gpus"};
  }

  /** `--f v` for a flag docker takes a value for. */
  lemma LongValueParsed(t: Table, name: string, v: string, rest: seq<string>)
    requires IsName(name) && name[2] != '-' && name[2..] in t.long && t.long[name[2..]] == Valued
    ensures Parse(t, [name, v] + rest) == Before([(name[2..], v)], Parse(t, rest))
  {
    FindAt(name, "", '=');
    assert name + "" == name;
    assert ([name, v] + rest)[2..] == rest;
    assert name[2..|name|] == name[2..];
  }

  lemma OneDefaultParsed(t: Table, d: Default, rest: seq<string>)
    requires DockerTable(t) && d.0 in INJECTED
    ensures Parse(t, [d.0, d.1] + rest) == Before([(d.0[2..], d.1)], Parse(t, rest))
  {
    hide Parse;
    InjectedFlag(d.0);
    InjectedKnown(t, d.0);
    LongValueParsed(t, d.0, d.1, rest);
  }

  lemma {:induction false} DefaultsParsed(t: Table, ds: seq<Default>, rest: seq<string>)
    requires DockerTable(t) && Known(ds)
    ensures Parse(t, Tokens(ds) + rest) == Before(Settings(ds), Parse(t, rest))
  {
    hide Parse;
    if ds == [] {
      assert Tokens(ds) + rest == rest;
      assert Parse(t, rest).Good? ==> [] + Parse(t, rest).settings == Parse(t, rest).settings;
    } else {
      var more := Tokens(ds[1..]) + rest;
      assert Tokens(ds) + rest == [ds[0].0, ds[0].1] + more;
      OneDefaultParsed(t, ds[0], more);
      DefaultsParsed(t, ds[1..], rest);
      BeforeAppend([(ds[0].0[2..], ds[0].1)], Settings(ds[1..]), Parse(t, rest));
    }
  }

  /** Docker reads the injected command exactly as it reads the user's own, with the
      injected settings in front: whatever the scanner saw or missed, the image and the
      container arguments are untouched, and a bad command stays bad. */
  lemma MeaningPreserved(t: Table, args: seq<string>, has: set<string>, cfg: Config, host: Host, gpuEnvOff: bool)
    requires DockerTable(t) && args != []
    ensures Inject(args, has, cfg, host, gpuEnvOff)[0] == args[0]
    ensures Parse(t, Inject(args, has, cfg, host, gpuEnvOff)[1..])
         == Before(Settings(Defaults(has, cfg, host, gpuEnvOff)), Parse(t, args[1..]))
  {
    hide Parse, Tokens;
    var ds := Defaults(has, cfg, host, gpuEnvOff);
    assert Inject(args, has, cfg, host, gpuEnvOff)[1..] == Tokens(ds) + args[1..];
    DefaultsParsed(t, ds, args[1..]);
  }

  lemma {:induction false} SettingsAppend(ds: seq<Default>, es: seq<Default>)
    requires Known(ds) && Known(es)
    ensures Known(ds + es) && Settings(ds + es) == Settings(ds) + Settings(es)
  {
    if ds == [] {
      assert ds + es == es;
    } else {
      assert (ds + es)[1..] == ds[1..] + es;
      SettingsAppend(ds[1..], es);
    }
  }

  lemma AllOfOne(ds: seq<Default>, flag: string, val: string, name: string)
    requires flag in INJECTED && (ds == [] || ds == [(flag, val)])
    ensures All(Settings(ds), name) == (if ds != [] && name == flag[2..] then [val] else [])
  {
    if ds != [] {
      assert Settings(ds) == [(flag[2..], val)];
    }
  }

  /** The defaults docker sees for one flag, group by group. */
  lemma SettingsOf(has: set<string>, cfg: Config, host: Host, gpuEnvOff: bool, name: string)
    ensures All(Settings(Defaults(has, cfg, host, gpuEnvOff)), name)
         == All(Settings(CpuDefault(has, cfg, host)), name) + All(Settings(MemoryDefault(has, cfg, host)), name)
          + All(Settings(PidsDefault(has, cfg)), name) + All(Settings(GpuDefault(has, cfg, host, gpuEnvOff)), name)
  {
    hide All, Settings, Decimal;
    var c, m := CpuDefault(has, cfg, host), MemoryDefault(has, cfg, host);
    var p, g := PidsDefault(has, cfg), GpuDefault(has, cfg, host, gpuEnvOff);
    SettingsAppend(c + m + p, g);
    SettingsAppend(c + m, p);
    SettingsAppend(c, m);
    AllAppend(Settings(c) + Settings(m) + Settings(p), Settings(g), name);
    AllAppend(Settings(c) + Settings(m), Settings(p), name);
    AllAppend(Settings(c), Settings(m), name);
  }

  lemma CpuSetting(has: set<string>, cfg: Config, host: Host, name: string)
    ensures All(Settings(CpuDefault(has, cfg, host)), name) ==
      if name == "cpus" && CpuDefault(has, cfg, host) != [] then [Decimal(Cpus(cfg, host))] else []
  {
    AllOfOne(CpuDefault(has, cfg, host), "--cpus", if Cpus(cfg, host) > 0 then Decimal(Cpus(cfg, host)) else "", name);
  }

  lemma MemorySetting(has: set<string>, cfg: Config, host: Host, name: string)
    ensures All(Settings(MemoryDefault(has, cfg, host)), name) ==
      if name == "memory" && MemoryDefault(has, cfg, host) != [] then [Decimal(MemoryGB(cfg, host)) + "g"] else []
  {
    AllOfOne(MemoryDefault(has, cfg, host), "--memory",
      if MemoryGB(cfg, host) > 0 then Decimal(MemoryGB(cfg, host)) + "g" else "", name);
  }

  lemma PidsSetting(has: set<string>, cfg: Config, name: string)
    ensures All(Settings(PidsDefault(has, cfg)), name) ==
      if name == "pids-limit" && PidsDefault(has, cfg) != [] then [Decimal(cfg.pids)] else []
  {
    AllOfOne(PidsDefault(has, cfg), "--pids-limit", if cfg.pids > 0 then Decimal(cfg.pids) else "", name);
  }

  /** The defaults docker sees for each flag the injector knows, and for any other flag. */
  lemma SettingsByName(has: set<string>, cfg: Config, host: Host, gpuEnvOff: bool, name: string)
    ensures All(Settings(Defaults(has, cfg, host, gpuEnvOff)), name) ==
      if name == "cpus" then (if CpuDefault(has, cfg, host) == [] then [] else [Decimal(Cpus(cfg, host))])
      else if name == "memory" then
        (if MemoryDefault(has, cfg, host) == [] then [] else [Decimal(MemoryGB(cfg, host)) + "g"])
      else if name == "pids-limit" then (if PidsDefault(has, cfg) == [] then [] else [Decimal(cfg.pids)])
      else if name == "gpus" then (if WantsGpu(has, cfg, host, gpuEnvOff) then ["all"] else [])
      else []
  {
    hide All, Settings, Decimal, CpuDefault, MemoryDefault, PidsDefault, WantsGpu;
    SettingsOf(has, cfg, host, gpuEnvOff, name);
    CpuSetting(has, cfg, host, name);
    MemorySetting(has, cfg, host, name);
    PidsSetting(has, cfg, name);
    AllOfOne(GpuDefault(has, cfg, host, gpuEnvOff), "--gpus", "all", name);
  }

  predicate IsLimit(name: string) {
    name == "cpus" || name == "memory" || name == "pids-limit"
  }

  /** The default of a limit: what was configured, lowered to what the host has, when that is positive
      and none of the limit's flags was seen. */
  function LimitDefault(name: string, has: set<string>, cfg: Config, host: Host): Option<string> {
    if name == "cpus" && has !! {"--cpus", "--cpu-shares"} && CpusGiven(cfg, host) > 0 then
      Some(Decimal(CpusGiven(cfg, host)))
    else if name == "memory" && has !! {"--memory", "-m"} && MemoryGiven(cfg, host) > 0 then
      Some(Decimal(MemoryGiven(cfg, host)) + "g")
    else if name == "pids-limit" && has !! {"--pids-limit"} && cfg.pids > 0 then Some(Decimal(cfg.pids))
    else None
  }

  /** The defaults docker sees for a limit are its default, or none. */
  lemma LimitAdded(has: set<string>, cfg: Config, host: Host, gpuEnvOff: bool, name: string)
    requires IsLimit(name)
    ensures All(Settings(Defaults(has, cfg, host, gpuEnvOff)), name) ==
      match LimitDefault(name, has, cfg, host)
      case Some(v) => [v]
      case None => []
  {
    hide All, Settings, Defaults, Decimal, Cpus, MemoryGB, CpusGiven, MemoryGiven, WantsGpu;
    Clamped(cfg, host);
    SettingsByName(has, cfg, host, gpuEnvOff, name);
  }

  /** User-supplied values win: for every command docker accepts, the injected one has the
      same image and container arguments, every flag the user set keeps its value in force,
      a flag that is not injected keeps all its values, and the three limits have their
      default in force exactly when the user left them unset and the injector added them. */
  lemma UserSettingsWin(t: Table, args: seq<string>, cfg: Config, host: Host, gpuEnvOff: bool, name: string)
    requires DockerTable(t) && args != [] && Parse(t, args[1..]).Good?
    ensures var has, user := Scan(args[1..]).has, Parse(t, args[1..]);
      var injected := Parse(t, Inject(args, has, cfg, host, gpuEnvOff)[1..]);
      && injected.Good? && injected.rest == user.rest
      && (Last(user.settings, name).Some? ==> Last(injected.settings, name) == Last(user.settings, name))
      && ("--" + name !in INJECTED ==> All(injected.settings, name) == All(user.settings, name))
      && (IsLimit(name) && Last(user.settings, name).None? ==>
          Last(injected.settings, name) == LimitDefault(name, has, cfg, host))
  {
    hide Parse, Settings, Defaults, Scan, Inject, Decimal, LimitDefault, CpuDefault, MemoryDefault, PidsDefault,
      WantsGpu;
    if IsLimit(name) { LimitAdded(Scan(args[1..]).has, cfg, host, gpuEnvOff, name); }
    var has, user := Scan(args[1..]).has, Parse(t, args[1..]);
    var ds := Defaults(has, cfg, host, gpuEnvOff);
    MeaningPreserved(t, args, has, cfg, host, gpuEnvOff);
    AllAppend(Settings(ds), user.settings, name);
    SettingsByName(has, cfg, host, gpuEnvOff, name);
    if "--" + name !in INJECTED {
      OtherName(name);
      assert [] + All(user.settings, name) == All(user.settings, name);
    }
  }

  lemma OtherName(name: string)
    requires "--" + name !in INJECTED
    ensures name != "cpus" && name != "memory" && name != "pids-limit" && name != "gpus"
  {
    assert "--" + "cpus" == "--cpus" && "--" + "memory" == "--memory";
    assert "--" + "pids-limit" == "--pids-limit" && "--" + "gpus" == "--gpus";
  }

  /** GPU requests add up in docker, so they are the one thing the injector can widen: they
      are left as the user gave them exactly when the injector does not ask for GPUs itself. */
  lemma GpuRequestsKept(t: Table, args: seq<string>, cfg: Config, host: Host, gpuEnvOff: bool)
    requires DockerTable(t) && args != [] && Parse(t, args[1..]).Good?
    ensures var has, user := Scan(args[1..]).has, Parse(t, args[1..]);
      var injected := Parse(t, Inject(args, has, cfg, host, gpuEnvOff)[1..]);
      && injected.Good?
      && (All(injected.settings, "gpus") == All(user.settings, "gpus") <==>
            cfg.gpu == "off" || gpuEnvOff || host.gpu != "nvidia" || "--gpus" in has || "--device" in has)
  {
    hide Parse, Settings, Defaults, Scan, Inject;
    var has, user := Scan(args[1..]).has, Parse(t, args[1..]);
    var ds := Defaults(has, cfg, host, gpuEnvOff);
    MeaningPreserved(t, args, has, cfg, host, gpuEnvOff);
    AllAppend(Settings(ds), user.settings, "gpus");
    SettingsByName(has, cfg, host, gpuEnvOff, "gpus");
    if WantsGpu(has, cfg, host, gpuEnvOff) {
      assert |["all"] + All(user.settings, "gpus")| == 1 + |All(user.settings, "gpus")|;
    } else {
      assert [] + All(user.settings, "gpus") == All(user.settings, "gpus");
    }
  }
}
