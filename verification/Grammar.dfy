/** The option grammar the scanner supports, its printer, and the scanner's answer on it. */
module Grammar {
  import opened Basics
  import opened DecimalText
  import opened RunArgs
  import opened RunTokens
  import opened Injection
  import opened DockerOptions

  datatype Opt =
    | LongFlag(name: string)                         // --f
    | LongEq(name: string, val: string)              // --f=v
    | LongValue(name: string, val: string)           // --f v
    | Cluster(letters: string)                       // -dit
    | ClusterAttached(letters: string, spec: string) // -dp8080:80
    | ClusterSpec(letters: string, spec: string)     // -dp 8080:80

  predicate Supported(o: Opt) {
    match o
    case LongFlag(name) => IsName(name) && !ValueFlag(name)
    case LongEq(name, val) => IsName(name) && val != ""
    case LongValue(name, val) => IsName(name) && ValueFlag(name) && name != "--publish"
    case Cluster(letters) => letters != "" && Letters(letters)
    case ClusterAttached(letters, spec) => Letters(letters) && spec != ""
    case ClusterSpec(letters, spec) => Letters(letters)
  }

  function Render(o: Opt): seq<string> {
    match o
    case LongFlag(name) => [name]
    case LongEq(name, val) => [name + "=" + val]
    case LongValue(name, val) => [name, val]
    case Cluster(letters) => ["-" + letters]
    case ClusterAttached(letters, spec) => ["-" + letters + "p" + spec]
    case ClusterSpec(letters, spec) => ["-" + letters + "p", spec]
  }

  function RenderAll(opts: seq<Opt>): seq<string> {
    if opts == [] then [] else Render(opts[0]) + RenderAll(opts[1..])
  }

  // --- what a reader of the grammar expects back ------------------------------

  function NamesOf(o: Opt): set<string> {
    match o
    case LongFlag(name) => {name}
    case LongEq(name, _) => {name}
    case LongValue(name, _) => {name}
    case Cluster(letters) => LetterNames(letters)
    case ClusterAttached(letters, _) => LetterNames(letters) + {"-p"}
    case ClusterSpec(letters, _) => LetterNames(letters) + {"-p"}
  }

  function PublishesOf(o: Opt): seq<string> {
    match o
    case LongEq(name, val) => if name == "--publish" then [val] else []
    case ClusterAttached(_, spec) => [spec]
    case ClusterSpec(_, spec) => [spec]
    case _ => []
  }

  function DetachedOf(o: Opt): bool {
    "--detach" in NamesOf(o) || "-d" in NamesOf(o)
  }

  function Expected(opts: seq<Opt>): Found {
    if opts == [] then NOTHING
    else Join(Found(NamesOf(opts[0]), PublishesOf(opts[0]), DetachedOf(opts[0])), Expected(opts[1..]))
  }

  /** What scanning finds in a printed option and how it goes on. */
  ghost predicate ScannedAs(o: Opt, rest: seq<string>) {
    Scan(Render(o) + rest) == Join(Found(NamesOf(o), PublishesOf(o), DetachedOf(o)), Scan(rest))
  }

  lemma LongOptScanned(o: Opt, rest: seq<string>)
    requires Supported(o) && (o.LongFlag? || o.LongEq? || o.LongValue?)
    ensures ScannedAs(o, rest)
  {
    hide Scan, ValueFlag;
    OnlyDetach(o.name);
    match o
    case LongFlag(name) =>
      PublishFlag();
      LongToken(name, rest);
    case LongEq(name, val) => LongEqToken(name, val, rest);
    case LongValue(name, val) =>
      LongToken(name, [val] + rest);
      assert Render(o) + rest == [name] + ([val] + rest);
      assert ([val] + rest)[1..] == rest;
  }

  lemma ClusterScanned(o: Opt, rest: seq<string>)
    requires Supported(o) && (o.Cluster? || o.ClusterAttached? || o.ClusterSpec?)
    ensures ScannedAs(o, rest)
  {
    hide Scan;
    DetachLetter(o.letters);
    match o
    case Cluster(letters) => LettersToken(letters, rest);
    case ClusterAttached(letters, spec) => AttachedToken(letters, spec, rest);
    case ClusterSpec(letters, spec) =>
      PublishToken(letters, [spec] + rest);
      assert Render(o) + rest == ["-" + letters + "p"] + ([spec] + rest);
      assert ([spec] + rest)[1..] == rest;
  }

  lemma OptScanned(o: Opt, rest: seq<string>)
    requires Supported(o)
    ensures ScannedAs(o, rest)
  {
    hide ScannedAs;
    match o
    case LongFlag(_) => LongOptScanned(o, rest);
    case LongEq(_, _) => LongOptScanned(o, rest);
    case LongValue(_, _) => LongOptScanned(o, rest);
    case _ => ClusterScanned(o, rest);
  }

  lemma OnlyDetach(name: string)
    requires IsName(name)
    ensures "-d" in {name} ==> false
  {}

  /** Round trip: what was printed is what the scanner reports, whatever follows the image. */
  lemma {:induction false} RoundTrip(opts: seq<Opt>, tail: seq<string>)
    requires forall o :: o in opts ==> Supported(o)
    requires Stops(tail)
    ensures Scan(RenderAll(opts) + tail) == Expected(opts)
  {
    hide Supported, Stops;
    if opts == [] {
      assert RenderAll(opts) + tail == tail;
      StoppedScan(tail);
    } else {
      assert RenderAll(opts) + tail == Render(opts[0]) + (RenderAll(opts[1..]) + tail);
      OptScanned(opts[0], RenderAll(opts[1..]) + tail);
      RoundTrip(opts[1..], tail);
    }
  }

  lemma StoppedScan(tail: seq<string>)
    requires Stops(tail)
    ensures Scan(tail) == NOTHING
  {}

  // --- the same options as docker reads them ----------------------------------

  /** The table knows the letters as switches. */
  ghost predicate SwitchLetters(t: Table, letters: string) {
    '=' !in letters && forall c :: c in letters ==> c in t.short && t.short[c] in t.long && t.long[t.short[c]] == Switch
  }

  ghost predicate PublishLetter(t: Table) {
    'p' in t.short && t.short['p'] == "publish" && "publish" in t.long && t.long["publish"] == Valued
  }

  ghost predicate KnownTo(t: Table, name: string) {
    IsName(name) && name[2] != '-' && name[2..] in t.long
  }

  /** Scanner and docker agree on which flags of this option take a value. */
  ghost predicate Agreed(t: Table, o: Opt) {
    match o
    case LongFlag(name) => KnownTo(t, name) && t.long[name[2..]] == Switch
    case LongEq(name, _) => KnownTo(t, name)
    case LongValue(name, _) => KnownTo(t, name) && t.long[name[2..]] == Valued
    case Cluster(letters) => SwitchLetters(t, letters)
    case ClusterAttached(letters, spec) => SwitchLetters(t, letters) && PublishLetter(t) && spec != "" && spec[0] != '='
    case ClusterSpec(letters, _) => SwitchLetters(t, letters) && PublishLetter(t)
  }

  ghost function LetterSettings(t: Table, letters: string): seq<Setting>
    requires SwitchLetters(t, letters)
  {
    if letters == "" then [] else [(t.short[letters[0]], "true")] + LetterSettings(t, letters[1..])
  }

  ghost function SettingsFor(t: Table, o: Opt): seq<Setting>
    requires Agreed(t, o)
  {
    match o
    case LongFlag(name) => [(name[2..], "true")]
    case LongEq(name, val) => [(name[2..], val)]
    case LongValue(name, val) => [(name[2..], val)]
    case Cluster(letters) => LetterSettings(t, letters)
    case ClusterAttached(letters, spec) => LetterSettings(t, letters) + [(t.short['p'], spec)]
    case ClusterSpec(letters, spec) => LetterSettings(t, letters) + [(t.short['p'], spec)]
  }

  ghost function AllSettings(t: Table, opts: seq<Opt>): seq<Setting>
    requires forall o :: o in opts ==> Agreed(t, o)
  {
    if opts == [] then [] else SettingsFor(t, opts[0]) + AllSettings(t, opts[1..])
  }

  lemma {:induction false} LettersParsed(t: Table, letters: string, tail: string, next: Option<string>)
    requires SwitchLetters(t, letters) && (tail == "" || tail[0] != '=')
    ensures ParseShort(t, letters + tail, next) ==
      match ParseShort(t, tail, next)
      case ShortBad => ShortBad
      case ShortGood(settings, used) => ShortGood(LetterSettings(t, letters) + settings, used)
  {
    hide ParseShort;
    if letters == "" {
      assert letters + tail == tail;
      if ParseShort(t, tail, next).ShortGood? {
        assert [] + ParseShort(t, tail, next).settings == ParseShort(t, tail, next).settings;
      }
    } else {
      var body := letters + tail;
      assert body[1..] == letters[1..] + tail;
      assert letters[0] in letters;
      assert |body| > 1 ==> body[1] != '=' by {
        if |letters| > 1 {
          assert letters[1] in letters;
        }
      }
      LettersParsed(t, letters[1..], tail, next);
      SwitchParsed(t, body, next);
      if ParseShort(t, tail, next).ShortGood? {
        var s := ParseShort(t, tail, next).settings;
        assert [(t.short[letters[0]], "true")] + (LetterSettings(t, letters[1..]) + s)
            == LetterSettings(t, letters) + s;
      }
    }
  }

  lemma SwitchParsed(t: Table, body: string, next: Option<string>)
    requires body != "" && body[0] in t.short && t.short[body[0]] in t.long && t.long[t.short[body[0]]] == Switch
    requires |body| > 1 ==> body[1] != '='
    ensures ParseShort(t, body, next) ==
      match ParseShort(t, body[1..], next)
      case ShortBad => ShortBad
      case ShortGood(settings, used) => ShortGood([(t.short[body[0]], "true")] + settings, used)
  {}

  lemma ShortParsed(t: Table, args: seq<string>)
    requires args != [] && |args[0]| > 1 && args[0][0] == '-' && args[0][1] != '-'
    ensures Parse(t, args) ==
      match ParseShort(t, args[0][1..], First(args[1..]))
      case ShortBad => Bad
      case ShortGood(settings, used) => Before(settings, Parse(t, From(args, if used then 2 else 1)))
  {}

  lemma LongParsed(t: Table, args: seq<string>, name: string)
    requires args != [] && KnownTo(t, name)
    requires args[0] == name || (|args[0]| > |name| && args[0][..|name|] == name && args[0][|name|] == '=')
    requires args[0] == name && t.long[name[2..]] == Valued ==> |args| > 1
    ensures Parse(t, args) ==
      if args[0] != name then Before([(name[2..], args[0][|name| + 1..])], Parse(t, args[1..]))
      else if t.long[name[2..]] == Switch then Before([(name[2..], "true")], Parse(t, args[1..]))
      else Before([(name[2..], args[1])], Parse(t, args[2..]))
  {
    hide Parse, Before, Find;
    FindAt(name, args[0][|name|..], '=');
    assert args[0] == name + args[0][|name|..];
    assert args[0][2..|name|] == name[2..];
    LongRead(t, args, |name|);
  }

  lemma LongRead(t: Table, args: seq<string>, eq: nat)
    requires args != [] && |args[0]| > 2 && args[0][..2] == "--"
    requires 2 < eq <= |args[0]| && eq == Find(args[0], '=')
    requires args[0][2] != '-' && args[0][2..eq] in t.long
    requires eq == |args[0]| && t.long[args[0][2..eq]] == Valued ==> |args| > 1
    ensures Parse(t, args) ==
      if eq < |args[0]| then Before([(args[0][2..eq], args[0][eq + 1..])], Parse(t, args[1..]))
      else if t.long[args[0][2..eq]] == Switch then Before([(args[0][2..eq], "true")], Parse(t, args[1..]))
      else Before([(args[0][2..eq], args[1])], Parse(t, args[2..]))
  {
    hide Before, Find, ParseShort;
    assert args[0][0] == '-' && args[0][1] == '-';
  }

  lemma OptParsed(t: Table, o: Opt, rest: seq<string>)
    requires Supported(o) && Agreed(t, o)
    ensures Parse(t, Render(o) + rest) == Before(SettingsFor(t, o), Parse(t, rest))
  {
    hide Parse, ValueFlag;
    var args := Render(o) + rest;
    match o
    case LongFlag(name) =>
      LongParsed(t, args, name);
      assert args[1..] == rest;
    case LongEq(name, val) =>
      assert args[0] == name + ("=" + val);
      LongParsed(t, args, name);
      assert args[0][|name| + 1..] == val;
      assert args[1..] == rest;
    case LongValue(name, val) =>
      LongParsed(t, args, name);
      assert args[2..] == rest;
    case Cluster(letters) =>
      assert args[0][1..] == letters + "";
      ShortParsed(t, args);
      LettersParsed(t, letters, "", First(args[1..]));
      assert LetterSettings(t, letters) + [] == LetterSettings(t, letters);
      assert From(args, 1) == rest;
    case ClusterAttached(letters, spec) =>
      assert args[0][1..] == letters + ("p" + spec);
      assert args[0][1] == (letters + ("p" + spec))[0];
      ShortParsed(t, args);
      LettersParsed(t, letters, "p" + spec, First(args[1..]));
      assert ("p" + spec)[1..] == spec;
      assert From(args, 1) == rest;
    case ClusterSpec(letters, spec) =>
      assert args[0][1..] == letters + "p";
      assert args[0][1] == (letters + "p")[0];
      ShortParsed(t, args);
      assert args[1..] == [spec] + rest;
      LettersParsed(t, letters, "p", First(args[1..]));
      assert From(args, 2) == rest;
  }

  lemma {:induction false} OptsParsed(t: Table, opts: seq<Opt>, tail: seq<string>)
    requires forall o :: o in opts ==> Supported(o) && Agreed(t, o)
    ensures Parse(t, RenderAll(opts) + tail) == Before(AllSettings(t, opts), Parse(t, tail))
  {
    hide Parse, Supported, Agreed, Render, SettingsFor;
    if opts == [] {
      assert RenderAll(opts) + tail == tail;
      assert forall s: seq<Setting> :: [] + s == s;
    } else {
      assert RenderAll(opts) + tail == Render(opts[0]) + (RenderAll(opts[1..]) + tail);
      OptParsed(t, opts[0], RenderAll(opts[1..]) + tail);
      OptsParsed(t, opts[1..], tail);
      BeforeAppend(SettingsFor(t, opts[0]), AllSettings(t, opts[1..]), Parse(t, tail));
    }
  }

  // --- within the grammar, what the user set is never added to ------------------

  predicate IsInjectable(name: string) {
    name == "cpus" || name == "memory" || name == "pids-limit" || name == "gpus"
  }

  lemma {:induction false} SwitchesSetNoValue(t: Table, letters: string, name: string)
    requires SwitchLetters(t, letters) && name in t.long && t.long[name] == Valued
    ensures All(LetterSettings(t, letters), name) == []
  {
    if letters != "" {
      assert letters[0] in letters;
      SwitchesSetNoValue(t, letters[1..], name);
    }
  }

  lemma OptSeen(t: Table, o: Opt, name: string)
    requires DockerTable(t) && Supported(o) && Agreed(t, o) && IsInjectable(name)
    requires All(SettingsFor(t, o), name) != []
    ensures "--" + name in NamesOf(o)
  {
    hide ValueFlag;
    assert name in {"cpus", "memory", "pids-limit", "gpus"};
    match o
    case LongFlag(n) =>
    case LongEq(n, _) => assert n == "--" + n[2..];
    case LongValue(n, _) => assert n == "--" + n[2..];
    case Cluster(letters) => SwitchesSetNoValue(t, letters, name);
    case ClusterAttached(letters, spec) =>
      SwitchesSetNoValue(t, letters, name);
      AllAppend(LetterSettings(t, letters), [(t.short['p'], spec)], name);
    case ClusterSpec(letters, spec) =>
      SwitchesSetNoValue(t, letters, name);
      AllAppend(LetterSettings(t, letters), [(t.short['p'], spec)], name);
  }

  /** Every injectable flag docker sees in the options is in the scanner's set. */
  lemma {:induction false} SeenByScanner(t: Table, opts: seq<Opt>, name: string)
    requires DockerTable(t) && IsInjectable(name)
    requires forall o :: o in opts ==> Supported(o) && Agreed(t, o)
    requires All(AllSettings(t, opts), name) != []
    ensures "--" + name in Expected(opts).has
  {
    hide Supported, Agreed, SettingsFor, NamesOf, IsInjectable, DockerTable;
    AllAppend(SettingsFor(t, opts[0]), AllSettings(t, opts[1..]), name);
    if All(SettingsFor(t, opts[0]), name) != [] {
      OptSeen(t, opts[0], name);
    } else {
      assert All(AllSettings(t, opts), name) == [] + All(AllSettings(t, opts[1..]), name);
      SeenByScanner(t, opts[1..], name);
    }
  }

  lemma SeenMeansNotInjected(has: set<string>, cfg: Config, host: Host, gpuEnvOff: bool, name: string)
    requires IsInjectable(name) && "--" + name in has
    ensures All(Settings(Defaults(has, cfg, host, gpuEnvOff)), name) == []
  {
    hide All, Settings, Defaults, Decimal;
    assert "--" + "cpus" == "--cpus" && "--" + "memory" == "--memory";
    assert "--" + "pids-limit" == "--pids-limit" && "--" + "gpus" == "--gpus";
    SettingsByName(has, cfg, host, gpuEnvOff, name);
  }

  /** For a command in the supported grammar, with a docker that agrees on which flags take
      values, no limit and no GPU request is ever added to one the user made. */
  lemma NothingAddedToUserFlags(t: Table, run: string, opts: seq<Opt>, tail: seq<string>,
                                cfg: Config, host: Host, gpuEnvOff: bool, name: string)
    requires DockerTable(t) && IsInjectable(name)
    requires forall o :: o in opts ==> Supported(o) && Agreed(t, o)
    requires Stops(tail)
    ensures var args := [run] + RenderAll(opts) + tail;
      var injected := Parse(t, Inject(args, Scan(args[1..]).has, cfg, host, gpuEnvOff)[1..]);
      && Parse(t, args[1..]) == Good(AllSettings(t, opts), Parse(t, tail).rest)
      && injected.Good? && injected.rest == Parse(t, tail).rest
      && (All(AllSettings(t, opts), name) != [] ==> All(injected.settings, name) == All(AllSettings(t, opts), name))
  {
    hide Supported, Agreed, Scan, Inject, Defaults, Settings, IsInjectable, All;
    var args := [run] + RenderAll(opts) + tail;
    assert args[1..] == RenderAll(opts) + tail;
    OptsParsed(t, opts, tail);
    StoppedParse(t, tail);
    assert AllSettings(t, opts) + [] == AllSettings(t, opts);
    RoundTrip(opts, tail);
    var has := Scan(args[1..]).has;
    MeaningPreserved(t, args, has, cfg, host, gpuEnvOff);
    var ds := Defaults(has, cfg, host, gpuEnvOff);
    AllAppend(Settings(ds), AllSettings(t, opts), name);
    if All(AllSettings(t, opts), name) != [] {
      SeenByScanner(t, opts, name);
      SeenMeansNotInjected(has, cfg, host, gpuEnvOff, name);
      assert [] + All(AllSettings(t, opts), name) == All(AllSettings(t, opts), name);
    }
  }

  lemma StoppedParse(t: Table, tail: seq<string>)
    requires Stops(tail)
    ensures Parse(t, tail).Good? && Parse(t, tail).settings == []
  {}

  /** Outside the grammar the scanner can stop too early: the value of -e looks like the
      image, the user's --gpus is missed, and a second GPU request is put in front of it. */
  lemma GpuRequestWidened()
    ensures var args := ["run", "-e", "A=1", "--gpus", "device=0", "img"];
      var host := Host("nvidia", 0, 0);
      var cfg := Config(0, 0, 0, "auto");
      "--gpus" !in Scan(args[1..]).has
      && Inject(args, Scan(args[1..]).has, cfg, host, false)
         == ["run", "--gpus", "all", "-e", "A=1", "--gpus", "device=0", "img"]
  {
    hide Scan, Defaults;
    var args := ["run", "-e", "A=1", "--gpus", "device=0", "img"];
    OnlyESeen(args);
    OnlyGpuAdded();
    assert Tokens([("--gpus", "all")]) == ["--gpus", "all"];
  }

  lemma OnlyESeen(args: seq<string>)
    requires args == ["run", "-e", "A=1", "--gpus", "device=0", "img"]
    ensures Scan(args[1..]).has == {"-e"} && "--gpus" !in Scan(args[1..]).has
  {
    LettersScanned("e", "", Some("A=1"));
    assert "e" + "" == "e";
    assert args[1..] == ["-e"] + args[2..];
    OptScanned(Cluster("e"), args[2..]);
    StoppedScan(args[2..]);
    JoinNothing(Found(NamesOf(Cluster("e")), [], false));
    assert |"-e"| == 2 && |"--gpus"| == 6;
  }

  lemma OnlyGpuAdded()
    ensures Defaults({"-e"}, Config(0, 0, 0, "auto"), Host("nvidia", 0, 0), false) == [("--gpus", "all")]
  {
    var has, cfg, host := {"-e"}, Config(0, 0, 0, "auto"), Host("nvidia", 0, 0);
    assert "--gpus" !in has && "--device" !in has by {
      assert |"-e"| == 2 && |"--gpus"| == 6 && |"--device"| == 8;
    }
    assert CpuDefault(has, cfg, host) == [] && MemoryDefault(has, cfg, host) == [] && PidsDefault(has, cfg) == [];
  }
}
