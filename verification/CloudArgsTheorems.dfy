/** The arguments of a PLZ worker meet the parser: they are always accepted, and mostly kept. */
module CloudArgsTheorems {
  import opened Text
  import opened KubeExpansion
  import opened Sorting
  import opened CloudArgs
  import opened K6Cli

  // Prefixes see through the escape.

  lemma PrefixStep(s: string, p: string)
    requires p != ""
    ensures HasPrefix(s, p) <==> s != "" && s[0] == p[0] && HasPrefix(s[1..], p[1..])
  {
    if HasPrefix(s, p) {
      assert s[1..][..|p| - 1] == s[..|p|][1..];
    }
    if s != "" && s[0] == p[0] && HasPrefix(s[1..], p[1..]) {
      assert s[..|p|] == [s[0]] + s[1..][..|p| - 1];
      assert p == [p[0]] + p[1..];
    }
  }

  lemma EmptyPrefix(s: string)
    ensures HasPrefix(s, "")
  {
  }

  lemma {:induction false} PrefixOfPair(key: string, rest: string, p: string)
    requires '$' !in p && '=' !in p
    ensures HasPrefix(Escape(key) + "=" + rest, p) <==> HasPrefix(key, p)
    decreases |p|
  {
    hide HasPrefix;
    var s := Escape(key) + "=" + rest;
    if p == "" {
      EmptyPrefix(s);
      EmptyPrefix(key);
    } else {
      assert p[0] in p;
      PrefixStep(s, p);
      PrefixStep(key, p);
      if key != "" && key[0] == p[0] {
        assert s[1..] == Escape(key[1..]) + "=" + rest;
        PrefixOfPair(key[1..], rest, p[1..]);
      }
    }
  }

  /** The beginnings of the flags that the parser drops along with everything that follows up to the next flag. */
  const LOG_OUTPUT := "--log-output"
  const BLOCK_HOSTNAMES := "--block-hostnames"
  const BLACKLIST_IP := "--blacklist-ip"
  const USER_AGENT := "--user-agent"

  predicate Drops(key: string) {
    HasPrefix(key, LOG_OUTPUT) || HasPrefix(key, BLOCK_HOSTNAMES) || HasPrefix(key, BLACKLIST_IP)
    || HasPrefix(key, USER_AGENT)
  }

  lemma DroppedIsFlag(arg: string)
    requires Drops(arg)
    ensures IsFlag(arg) && HandlingOf(arg) == Dropped
  {
  }

  lemma WithEquals(arg: string)
    requires '=' in arg
    ensures arg != "-o" && arg != "--out" && arg != "-l" && arg != "--linger" && arg != "--no-usage-report"
    ensures arg != "--verbose" && arg != "-v"
  {
  }

  lemma NotDropped(arg: string)
    requires !Drops(arg) && '=' in arg
    ensures HandlingOf(arg) == Kept
  {
    hide HasPrefix;
    WithEquals(arg);
  }

  /** A pair is dropped by what its key begins with; it is none of the flags that are matched as a whole. */
  lemma PairHandling(key: string, value: string)
    ensures var pair := EscapedPair(key, value);
            && HandlingOf(pair) == (if Drops(key) then Dropped else Kept)
            && (Drops(key) ==> IsFlag(pair))
  {
    hide HasPrefix, HandlingOf, IsFlag;
    var pair := EscapedPair(key, value);
    PrefixOfPair(key, Escape(value), LOG_OUTPUT);
    PrefixOfPair(key, Escape(value), BLOCK_HOSTNAMES);
    PrefixOfPair(key, Escape(value), BLACKLIST_IP);
    PrefixOfPair(key, Escape(value), USER_AGENT);
    assert pair == Escape(key) + "=" + Escape(value);
    assert Drops(pair) <==> Drops(key);
    assert pair[|Escape(key)|] == '=';
    if Drops(key) {
      DroppedIsFlag(pair);
    } else {
      NotDropped(pair);
    }
  }

  lemma OneGroup(g: seq<string>)
    requires g != []
    ensures Concat(KeptGroups([g])) == (if Keeps(g[0]) then g else []) && (AnyCloud([g]) <==> CloudGroup(g))
  {
    NoGroup();
    hide KeptGroups, Concat, AnyCloud, CloudGroup, Keeps;
    GroupTaken([], g);
    assert [] + [g] == [g];
    assert [] + g == g;
  }

  lemma NoGroup()
    ensures Concat(KeptGroups([])) == [] && !AnyCloud([])
  {
    hide HandlingOf;
  }

  lemma OneFlag(flag: string)
    requires IsFlag(flag)
    ensures ScanOf([flag]) == Scan([[flag]], AfterFlag, None)
    ensures Parsed([flag]) == (CLI(if Keeps(flag) then [flag] else [], false), None)
  {
    hide HandlingOf, KeptGroups, Concat;
    assert [flag][..0] == [];
    assert ScanOf([flag]) == Step(ScanOf([]), flag);
    OneGroup([flag]);
  }

  lemma TwoScanned(flag: string, value: string)
    requires IsFlag(flag) && !IsFlag(value)
    ensures ScanOf([flag, value]).groups == [[flag, value]] && ScanOf([flag, value]).bad == None
  {
    hide HandlingOf;
    OneFlag(flag);
    assert [flag, value][..1] == [flag];
    assert ScanOf([flag, value]) == Step(ScanOf([flag]), value);
    assert [flag] + [value] == [flag, value];
    assert [[flag]][..0] == [];
  }

  /** A flag with one value. */
  lemma FlagAndValue(flag: string, value: string)
    requires IsFlag(flag) && !IsFlag(value)
    ensures Parsed([flag, value])
            == (CLI(if Keeps(flag) then [flag, value] else [], IsOut(flag) && value == "cloud"), None)
  {
    hide HandlingOf, KeptGroups, Concat, ScanOf, IsFlag;
    TwoScanned(flag, value);
    OneGroup([flag, value]);
  }

  /** The flags that introduce pairs. */
  predicate PairFlag(flag: string) {
    flag == "--tag" || flag == "-e"
  }

  lemma PairFlagKept(flag: string)
    requires PairFlag(flag)
    ensures IsFlag(flag) && HandlingOf(flag) == Kept
  {
  }

  lemma PairParsed(flag: string, key: string, value: string)
    requires PairFlag(flag)
    ensures var args := [flag, EscapedPair(key, value)];
            Parsed(args) == (CLI(if Drops(key) then [flag] else args, false), None)
  {
    hide Drops, EscapedPair, HandlingOf, IsFlag, ScanOf;
    var pair := EscapedPair(key, value);
    PairHandling(key, value);
    PairFlagKept(flag);
    if IsFlag(pair) {
      OneFlag(flag);
      OneFlag(pair);
      ParseHomomorphism([flag], [pair]);
      assert [flag] + [pair] == [flag, pair];
      assert [flag] + [] == [flag];
    } else {
      FlagAndValue(flag, pair);
    }
  }

  ghost predicate AnyDrops(keys: seq<string>) {
    exists k :: k in keys && Drops(k)
  }

  /** What parses to all of itself if nothing in it is dropped, to less otherwise. */
  ghost predicate ParsesTo(args: seq<string>, kept: seq<string>, complete: bool, cloud: bool) {
    var (cli, bad) := Parsed(args);
    && bad == None && cli.hasCloudOut == cloud
    && (if complete then cli.archiveArgs == kept else |cli.archiveArgs| < |kept|)
  }

  lemma ParsesJoin(a: seq<string>, keptA: seq<string>, completeA: bool, cloudA: bool,
                   b: seq<string>, keptB: seq<string>, completeB: bool, cloudB: bool)
    requires ParsesTo(a, keptA, completeA, cloudA) && ParsesTo(b, keptB, completeB, cloudB)
    requires b == [] || IsFlag(b[0])
    ensures ParsesTo(a + b, keptA + keptB, completeA && completeB, cloudA || cloudB)
  {
    ParseHomomorphism(a, b);
  }

  lemma NothingParses()
    ensures ParsesTo([], [], true, false)
  {
    NothingParsed();
  }

  lemma PairParses(flag: string, key: string, value: string)
    requires PairFlag(flag)
    ensures var args := [flag, EscapedPair(key, value)];
            ParsesTo(args, args, !Drops(key), false)
  {
    hide Drops, EscapedPair, Parsed;
    PairParsed(flag, key, value);
  }

  lemma NoneDrop()
    ensures !AnyDrops([])
  {
  }

  lemma AnyDropsStep(keys: seq<string>, key: string)
    ensures AnyDrops(keys + [key]) <==> AnyDrops(keys) || Drops(key)
  {
    hide Drops;
    assert forall k :: k in keys + [key] <==> k in keys || k == key;
  }

  lemma {:induction false} PairsParsed(flag: string, keys: seq<string>, m: map<string, string>)
    requires PairFlag(flag) && Within(keys, m)
    ensures var args := PairArgs(flag, keys, m, true);
            ParsesTo(args, args, !AnyDrops(keys), false) && (args == [] || args[0] == flag)
  {
    hide ParsesTo, Drops, AnyDrops, EscapedPair, IsFlag;
    PairFlagKept(flag);
    if keys == [] {
      NothingParses();
      NoneDrop();
    } else {
      var n := |keys| - 1;
      PairsParsed(flag, keys[..n], m);
      PairParses(flag, keys[n], m[keys[n]]);
      var front := PairArgs(flag, keys[..n], m, true);
      var last := [flag, EscapedPair(keys[n], m[keys[n]])];
      assert keys == keys[..n] + [keys[n]];
      AnyDropsStep(keys[..n], keys[n]);
      ParsesJoin(front, front, !AnyDrops(keys[..n]), false, last, last, !Drops(keys[n]), false);
    }
  }

  /** The arguments of `k6 archive` if nothing of the user's is dropped. */
  function ArchiveArgs(tagArgs: seq<string>, envArgs: seq<string>, systemEnv: bool): seq<string> {
    tagArgs + ["--no-thresholds"] + envArgs + [SYSTEM_ENV + (if systemEnv then "true" else "false")]
    + if systemEnv then [] else ["--summary-mode=disabled"]
  }

  lemma FlagParsesTo(flag: string, keeps: bool)
    requires IsFlag(flag) && Keeps(flag) == keeps
    ensures ParsesTo([flag], if keeps then [flag] else [], true, false)
  {
    hide HandlingOf, ScanOf, IsFlag, KeptGroups, Concat;
    OneFlag(flag);
  }

  lemma DiffersAt(s: string, p: string, i: nat)
    requires i < |p| && i < |s| && s[i] != p[i]
    ensures !HasPrefix(s, p)
  {
    assert |p| <= |s| ==> s[..|p|][i] == s[i];
  }

  /** The third character tells most flags apart. */
  lemma ThirdCharacter(flag: string)
    requires |flag| > 2 && flag[0] == '-' && (flag[2] == 's' || flag[2] == 'i' || flag[2] == 't')
    ensures HandlingOf(flag) == Kept && IsFlag(flag)
  {
    DiffersAt(flag, LOG_OUTPUT, 2);
    DiffersAt(flag, BLOCK_HOSTNAMES, 2);
    DiffersAt(flag, BLACKLIST_IP, 2);
    DiffersAt(flag, USER_AGENT, 2);
  }

  lemma NoThresholdsKept()
    ensures HandlingOf("--no-thresholds") == Kept
  {
    assert "--no-thresholds"[5] != "--no-usage-report"[5];
  }

  lemma OutAndVerbose()
    ensures HandlingOf("--out") == Output && HandlingOf("--verbose") == Dropped
  {
  }

  lemma SystemEnvKept(systemEnv: bool)
    ensures var flag := SYSTEM_ENV + (if systemEnv then "true" else "false");
            HandlingOf(flag) == Kept && IsFlag(flag)
  {
    hide HandlingOf;
    ThirdCharacter(SYSTEM_ENV + (if systemEnv then "true" else "false"));
  }

  lemma OutCloud()
    ensures ParsesTo(["--out", "cloud"], [], true, true)
  {
    hide HandlingOf;
    OutAndVerbose();
    FlagAndValue("--out", "cloud");
  }

  function SystemEnvFlags(systemEnv: bool): seq<string> {
    [SYSTEM_ENV + (if systemEnv then "true" else "false")]
    + if systemEnv then [] else ["--verbose", "--summary-mode=disabled"]
  }

  function KeptSystemEnvFlags(systemEnv: bool): seq<string> {
    [SYSTEM_ENV + (if systemEnv then "true" else "false")]
    + if systemEnv then [] else ["--summary-mode=disabled"]
  }

  lemma SystemEnvParsed(systemEnv: bool)
    ensures ParsesTo(SystemEnvFlags(systemEnv), KeptSystemEnvFlags(systemEnv), true, false)
    ensures IsFlag(SystemEnvFlags(systemEnv)[0])
  {
    var flag := SYSTEM_ENV + (if systemEnv then "true" else "false");
    hide HandlingOf, ParsesTo;
    SystemEnvKept(systemEnv);
    OutAndVerbose();
    ThirdCharacter("--summary-mode=disabled");
    FlagParsesTo(flag, true);
    if !systemEnv {
      FlagParsesTo("--verbose", false);
      FlagParsesTo("--summary-mode=disabled", true);
      ParsesJoin(["--verbose"], [], true, false, ["--summary-mode=disabled"], ["--summary-mode=disabled"], true, false);
      var rest := ["--verbose"] + ["--summary-mode=disabled"];
      var kept := [] + ["--summary-mode=disabled"];
      ParsesJoin([flag], [flag], true, false, rest, kept, true, false);
      assert [flag] + rest == SystemEnvFlags(systemEnv);
      assert [flag] + kept == KeptSystemEnvFlags(systemEnv);
    } else {
      assert [flag] + [] == [flag];
    }
  }

  /**
   * Whatever the tags and the environment of a run are, the arguments of its PLZ worker parse without error
   * and are recognised as cloud output. They reach `k6 archive` complete exactly if no key of a tag or of an
   * environment variable begins like one of the flags that are dropped.
   */
  lemma WorkerArgsParse(log: string, systemEnv: bool,
                        tagKeys: seq<string>, tags: map<string, string>,
                        envKeys: seq<string>, env: map<string, string>)
    requires HasPrefix(log, LOG_OUTPUT) && Within(tagKeys, tags) && Within(envKeys, env)
    ensures var tagArgs := PairArgs("--tag", tagKeys, tags, true);
            var envArgs := PairArgs("-e", envKeys, env, true);
            var (cli, bad) := Parsed(WorkerArgs(log, tagArgs, envArgs, systemEnv));
            && bad == None && cli.hasCloudOut
            && (cli.archiveArgs == ArchiveArgs(tagArgs, envArgs, systemEnv)
                <==> forall k | k in tagKeys + envKeys :: !Drops(k))
  {
    var tagArgs := PairArgs("--tag", tagKeys, tags, true);
    var envArgs := PairArgs("-e", envKeys, env, true);
    var noTags, noEnv := !AnyDrops(tagKeys), !AnyDrops(envKeys);
    hide HandlingOf, HasPrefix, PairArgs, IsFlag, ParsesTo, SystemEnvFlags, KeptSystemEnvFlags, ArchiveArgs, WorkerArgs;
    OutCloud();
    PairsParsed("--tag", tagKeys, tags);
    NoThresholdsKept();
    FlagKept("--no-thresholds");
    LogDropped(log);
    PairsParsed("-e", envKeys, env);
    PairFlagKept("--tag");
    PairFlagKept("-e");
    SystemEnvParsed(systemEnv);
    WorkerArgsJoin(log, systemEnv, tagArgs, envArgs, noTags, noEnv);
    ParsedFully(WorkerArgs(log, tagArgs, envArgs, systemEnv), ArchiveArgs(tagArgs, envArgs, systemEnv), noTags && noEnv);
    hide Drops;
    assert (forall k | k in tagKeys + envKeys :: !Drops(k)) <==> noTags && noEnv;
  }

  lemma ParsedFully(args: seq<string>, kept: seq<string>, complete: bool)
    requires ParsesTo(args, kept, complete, true)
    ensures Parsed(args).1 == None && Parsed(args).0.hasCloudOut && (Parsed(args).0.archiveArgs == kept <==> complete)
  {
  }

  lemma FlagKept(flag: string)
    requires HandlingOf(flag) == Kept && |flag| > 0 && flag[0] == '-'
    ensures ParsesTo([flag], [flag], true, false) && IsFlag(flag)
  {
    hide HandlingOf, ParsesTo;
    FlagParsesTo(flag, true);
  }

  lemma LogDropped(log: string)
    requires HasPrefix(log, LOG_OUTPUT)
    ensures ParsesTo([log], [], true, false) && IsFlag(log)
  {
    assert Drops(log);
    DroppedIsFlag(log);
    hide HandlingOf, ParsesTo;
    FlagParsesTo(log, false);
  }

  lemma WorkerArgsJoin(log: string, systemEnv: bool, tagArgs: seq<string>, envArgs: seq<string>,
                       noTags: bool, noEnv: bool)
    requires ParsesTo(["--out", "cloud"], [], true, true)
    requires ParsesTo(tagArgs, tagArgs, noTags, false) && (tagArgs == [] || IsFlag(tagArgs[0]))
    requires ParsesTo(["--no-thresholds"], ["--no-thresholds"], true, false)
    requires ParsesTo([log], [], true, false) && IsFlag(log)
    requires ParsesTo(envArgs, envArgs, noEnv, false) && (envArgs == [] || IsFlag(envArgs[0]))
    requires ParsesTo(SystemEnvFlags(systemEnv), KeptSystemEnvFlags(systemEnv), true, false)
    requires IsFlag(SystemEnvFlags(systemEnv)[0])
    ensures ParsesTo(WorkerArgs(log, tagArgs, envArgs, systemEnv), ArchiveArgs(tagArgs, envArgs, systemEnv),
                     noTags && noEnv, true)
  {
    hide ParsesTo;
    var a := ["--out", "cloud"];
    ParsesJoin(a, [], true, true, tagArgs, tagArgs, noTags, false);
    ParsesJoin(a + tagArgs, [] + tagArgs, noTags, true, ["--no-thresholds"], ["--no-thresholds"], true, false);
    var b := a + tagArgs + ["--no-thresholds"];
    var keptB := [] + tagArgs + ["--no-thresholds"];
    ParsesJoin(b, keptB, noTags, true, [log], [], true, false);
    ParsesJoin(b + [log], keptB + [], noTags, true, envArgs, envArgs, noEnv, false);
    var c := b + [log] + envArgs;
    var keptC := keptB + [] + envArgs;
    ParsesJoin(c, keptC, noTags && noEnv, true, SystemEnvFlags(systemEnv), KeptSystemEnvFlags(systemEnv), true, false);
    assert c + SystemEnvFlags(systemEnv) == WorkerArgs(log, tagArgs, envArgs, systemEnv);
    assert keptC + KeptSystemEnvFlags(systemEnv) == ArchiveArgs(tagArgs, envArgs, systemEnv);
  }

  /** A tag named like a dropped flag does not reach `k6 archive`. */
  lemma DroppedTag(log: string, systemEnv: bool)
    requires HasPrefix(log, LOG_OUTPUT)
    ensures var tagArgs := PairArgs("--tag", ["--user-agent"], map["--user-agent" := "x"], true);
            Parsed(WorkerArgs(log, tagArgs, [], systemEnv)).0.archiveArgs != ArchiveArgs(tagArgs, [], systemEnv)
  {
    var tags := map["--user-agent" := "x"];
    assert USER_AGENT in [USER_AGENT] + [];
    assert Drops(USER_AGENT);
    hide HandlingOf, HasPrefix, ArchiveArgs, WorkerArgs, Parsed, Drops, EscapedPair;
    WorkerArgsParse(log, systemEnv, [USER_AGENT], tags, [], map[]);
  }

  lemma LogIsLog(plzName: string, testRunID: string, token: string)
    ensures HasPrefix(LogOutput(plzName, testRunID, token), LOG_OUTPUT)
  {
    var log := LogOutput(plzName, testRunID, token);
    assert log == LOG_OUTPUT + log[|LOG_OUTPUT|..];
  }

  /**
   * What a PLZ worker does with the data of a test run, and the validation of the TestRun that comes of it: for
   * data with one load zone it always succeeds, whatever the tags and the environment are.
   */
  method ValidatedArgs(data: TestRunData, plzName: string, cloudHost: string)
    returns (prepared: bool, args: seq<string>, cli: CLI, err: Option<string>)
    modifies data
    ensures prepared == (|data.zones| == 1)
    ensures prepared ==>
              && data.tagArgs == PairArgs("--tag", SortedKeys(TagKeys(data.tags)), data.tags, true)
              && data.envArgs == PairArgs("-e", SortedKeys(data.environment.Keys), data.environment, true)
              && args == WorkerArgs(LogOutput(plzName, Integer(data.testRunId), TOKEN_REFERENCE),
                                    data.tagArgs, data.envArgs, data.includeSystemEnvVars)
    ensures prepared ==> err == None && cli.hasCloudOut
    ensures prepared ==>
              (cli.archiveArgs == ArchiveArgs(data.tagArgs, data.envArgs, data.includeSystemEnvVars)
               <==> forall k | k in TagKeys(data.tags) || k in data.environment :: !Drops(k))
  {
    hide HandlingOf, HasPrefix, PairArgs, ArchiveArgs, WorkerArgs, Drops, Environment, LogOutput, Parsed;
    args, cli, err := [], CLI([], false), None;
    prepared := data.Preprocess(cloudHost);
    if prepared {
      var id := Integer(data.testRunId);
      args := PlzK6Args(plzName, id, data);
      LogIsLog(plzName, id, TOKEN_REFERENCE);
      ghost var tagKeys, envKeys := SortedKeys(TagKeys(data.tags)), SortedKeys(data.environment.Keys);
      WorkerArgsParse(LogOutput(plzName, id, TOKEN_REFERENCE), data.includeSystemEnvVars,
                      tagKeys, data.tags, envKeys, data.environment);
      assert forall k :: k in tagKeys + envKeys <==> k in TagKeys(data.tags) || k in data.environment;
      cli, err := ParseCLI(args);
    }
  }
}
