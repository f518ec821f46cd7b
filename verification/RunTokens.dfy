/** What the scanner makes of every kind of token, with the flags that take a value spelled out by what
    they are about. */
module RunTokens {
  import opened Basics
  import opened RunArgs

  const LIMIT_FLAGS: set<string> := {
    "--cpus", "--cpu-shares", "--cpu-quota", "--cpu-period", "--cpuset-cpus", "--memory", "--shm-size", "--pids-limit",
    "--gpus", "--device", "--blkio-weight", "--oom-score-adj", "--ulimit", "--cgroup-parent"
  }
  const NETWORK_FLAGS: set<string> := {
    "--publish", "--expose", "--network", "--ip", "--ip6", "--link", "--mac-address", "--add-host"
  }
  const FILE_FLAGS: set<string> := {"--volume", "--mount", "--tmpfs", "--storage-opt", "--workdir"}
  const PROCESS_FLAGS: set<string> := {
    "--env", "--env-file", "--user", "--entrypoint", "--init-path", "--health-cmd", "--stop-signal", "--stop-timeout"
  }
  const CONTAINER_FLAGS: set<string> := {
    "--name", "--label", "--platform", "--pull", "--restart", "--log-driver", "--log-opt"
  }

  /** The long flags the scanner has to know a value may follow. */
  predicate ValueFlag(name: string) {
    || name in LIMIT_FLAGS || name in NETWORK_FLAGS || name in FILE_FLAGS
    || name in PROCESS_FLAGS || name in CONTAINER_FLAGS
  }

  lemma KnowsValueFlags(name: string)
    ensures TakesValue(name) <==> ValueFlag(name)
  {}

  lemma PublishFlag()
    ensures ValueFlag("--publish")
  {}

  function After(rest: seq<string>): seq<string> {
    if rest == [] then [] else rest[1..]
  }

  // --- long flags ------------------------------------------------------------------------------

  predicate IsLongName(name: string) {
    IsLong(name) && '=' !in name
  }

  /** `--f`: seen; for a flag that takes a value the next token, whatever it is, is passed over. */
  lemma LongToken(name: string, rest: seq<string>)
    requires IsLongName(name) && name != "--"
    ensures Scan([name] + rest) ==
      Join(Found({name}, if name == "--publish" then [""] else [], name == "--detach"),
           Scan(if ValueFlag(name) then After(rest) else rest))
  {
    hide Scan, TakesValue, ValueFlag;
    KnowsValueFlags(name);
    var args := [name] + rest;
    NameSplit(name);
    LongScanned(args, name, "", if TakesValue(name) then 2 else 1);
    assert From(args, 1) == rest && From(args, 2) == After(rest);
  }

  /** `--f=v`: seen; a flag with an empty value still takes the next token if it takes values. */
  lemma LongEqToken(name: string, val: string, rest: seq<string>)
    requires IsLongName(name)
    ensures Scan([name + "=" + val] + rest) ==
      Join(Found({name}, if name == "--publish" then [val] else [], name == "--detach"),
           Scan(if val == "" && ValueFlag(name) then After(rest) else rest))
  {
    hide Scan, TakesValue, ValueFlag;
    KnowsValueFlags(name);
    var args := [name + "=" + val] + rest;
    assert args[0] == name + ("=" + val);
    FindAt(name, "=" + val, '=');
    assert FlagName(args[0]) == name && FlagValue(args[0]) == val;
    LongScanned(args, name, val, if val == "" && TakesValue(name) then 2 else 1);
    assert From(args, 1) == rest && From(args, 2) == After(rest);
  }

  // --- short clusters -----------------------------------------------------------------------------

  /** Letters of a cluster: none is p, and the first is not a dash. */
  predicate Letters(letters: string) {
    'p' !in letters && (letters != "" ==> letters[0] != '-')
  }

  function LetterNames(letters: string): set<string> {
    set c | c in letters :: ['-', c]
  }

  lemma {:induction false} LettersScanned(letters: string, rest: string, next: Option<string>)
    requires 'p' !in letters
    ensures var (f, used) := ScanCluster(rest, next);
      ScanCluster(letters + rest, next) == (Join(Found(LetterNames(letters), [], 'd' in letters), f), used)
  {
    var (f, used) := ScanCluster(rest, next);
    if letters == "" {
      assert letters + rest == rest;
      assert LetterNames(letters) == {};
      JoinNothing(f);
    } else {
      assert (letters + rest)[1..] == letters[1..] + rest;
      LettersScanned(letters[1..], rest, next);
      var first := Found({['-', letters[0]]}, [], letters[0] == 'd');
      JoinAssoc(first, Found(LetterNames(letters[1..]), [], 'd' in letters[1..]), f);
      assert letters == [letters[0]] + letters[1..];
      assert LetterNames(letters) == {['-', letters[0]]} + LetterNames(letters[1..]);
      assert letters[0] in letters;
      assert ('d' in letters) == (letters[0] == 'd' || 'd' in letters[1..]);
      assert Join(first, Found(LetterNames(letters[1..]), [], 'd' in letters[1..]))
        == Found(LetterNames(letters), [], 'd' in letters);
    }
  }

  lemma DetachLetter(letters: string)
    ensures "-d" in LetterNames(letters) <==> 'd' in letters
    ensures "--detach" !in LetterNames(letters)
  {
    if "-d" in LetterNames(letters) {
      var c :| c in letters && ['-', c] == "-d";
      assert ['-', c][1] == 'd';
    }
    if 'd' in letters {
      assert ['-', 'd'] == "-d";
    }
    assert forall c :: |['-', c]| == 2;
  }

  /** Scanning one short token whose letters end in `tail`. */
  lemma ShortScanned(args: seq<string>, letters: string, tail: string)
    requires args != [] && Letters(letters) && args[0] == "-" + letters + tail
    requires tail == "" || tail[0] == 'p'
    requires letters + tail != ""
    ensures var (f, used) := ScanCluster(tail, First(args[1..]));
      Scan(args)
        == Join(Join(Found(LetterNames(letters), [], 'd' in letters), f), Scan(From(args, if used then 2 else 1)))
  {
    hide ScanCluster, TakesValue;
    var a := args[0];
    assert a[1..] == letters + tail;
    assert a[1] != '-' by {
      assert a[1] == (letters + tail)[0];
    }
    assert !IsLong(a);
    LettersScanned(letters, tail, First(args[1..]));
  }

  /** `-dit`: every letter is seen. A lone dash is passed over. */
  lemma LettersToken(letters: string, rest: seq<string>)
    requires Letters(letters)
    ensures Scan(["-" + letters] + rest) == Join(Found(LetterNames(letters), [], 'd' in letters), Scan(rest))
  {
    var args := ["-" + letters] + rest;
    assert From(args, 1) == rest;
    if letters == "" {
      assert args[0] == "-" && args[0][1..] == "";
      assert LetterNames(letters) == {};
    } else {
      hide Scan;
      assert args[0] == "-" + letters + "";
      ShortScanned(args, letters, "");
      JoinNothing(Found(LetterNames(letters), [], 'd' in letters));
    }
  }

  /** `-dp8080:80`: what follows the p is a spec. */
  lemma AttachedToken(letters: string, spec: string, rest: seq<string>)
    requires Letters(letters) && spec != ""
    ensures Scan(["-" + letters + "p" + spec] + rest)
         == Join(Found(LetterNames(letters) + {"-p"}, [spec], 'd' in letters), Scan(rest))
  {
    hide Scan;
    var args := ["-" + letters + "p" + spec] + rest;
    assert args[0] == "-" + letters + ("p" + spec);
    ShortScanned(args, letters, "p" + spec);
    assert ("p" + spec)[1..] == spec;
    assert From(args, 1) == rest;
    assert [] + [spec] == [spec];
  }

  /** `-dp`: the next token, if there is one, is the spec. */
  lemma PublishToken(letters: string, rest: seq<string>)
    requires Letters(letters)
    ensures Scan(["-" + letters + "p"] + rest)
         == Join(Found(LetterNames(letters) + {"-p"}, if rest == [] then [] else [rest[0]], 'd' in letters),
                 Scan(After(rest)))
  {
    hide Scan;
    var args := ["-" + letters + "p"] + rest;
    ShortScanned(args, letters, "p");
    assert args[1..] == rest && From(args, 1) == rest && From(args, 2) == After(rest);
    assert rest != [] ==> [] + [rest[0]] == [rest[0]];
  }

  /** The scan ends at `--`, at an empty token and at the image. */
  lemma ScanEnds(args: seq<string>)
    requires args == [] || args[0] == "--" || args[0] == "" || args[0][0] != '-'
    ensures Scan(args) == NOTHING
  {}
}
