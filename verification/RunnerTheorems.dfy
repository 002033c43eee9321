/** From the data of a cloud test run to the arguments with which k6 is run in a runner container. */
module RunnerTheorems {
  import opened Text
  import opened KubeExpansion
  import opened Sorting
  import opened CloudArgs
  import opened RunnerCommand
  import opened RunnerShapes
  import CloudArgsTheorems
  import K6Cli
  import Segmentation

  // The check for the script.

  /** The dollar signs of the check are not touched by the kubelet. */
  lemma CheckSurvives(env: map<string, string>)
    ensures Expand(CHECK_SCRIPT, env) == CHECK_SCRIPT
  {
    hide Expand;
    var end := "$@" + "\"";
    PlainStays("\"", env);
    PieceStays("  exit 1\nfi\nshift\nexec \"", '@', "\"", env);
    ExpandSkipsPlain(CHECK_ECHO, "  exit 1\nfi\nshift\nexec \"" + end, env);
    ExpandSkipsPlain("\" ]; then\n", CHECK_ECHO + ("  exit 1\nfi\nshift\nexec \"" + end), env);
    PieceStays(CHECK_FILE, '1', "\" ]; then\n" + (CHECK_ECHO + ("  exit 1\nfi\nshift\nexec \"" + end)), env);
  }

  lemma PieceStays(plain: string, c: char, rest: string, env: map<string, string>)
    requires '$' !in plain && c != '$' && c != '('
    ensures Expand(plain + (['$', c] + rest), env) == plain + (['$', c] + Expand(rest, env))
  {
    ExpandSkipsPlain(plain, ['$', c] + rest, env);
    assert (['$', c] + rest)[2..] == rest && (['$', c] + rest)[..2] == ['$', c];
  }

  /** A command behind the check runs exactly as it is if the script is there, and not at all otherwise. */
  lemma CheckedCommandRuns(script: Script, cmd: seq<string>, files: set<string>)
    requires script.kind == "LocalFile" && cmd != []
    ensures Execute(UpdateCommand(script, cmd, false), files)
            == if FullName(script) in files then Runs(cmd) else Exits(1)
  {
    hide FullName, Execute;
    CheckRuns(FullName(script), cmd, files);
  }

  // Expansion of whole commands.

  lemma ExpandAllConcat(a: seq<string>, b: seq<string>, env: map<string, string>)
    ensures ExpandAll(a + b, env) == ExpandAll(a, env) + ExpandAll(b, env)
  {
  }

  ghost predicate Plain(args: seq<string>) {
    forall a | a in args :: '$' !in a
  }

  lemma PlainArgsStay(args: seq<string>, env: map<string, string>)
    requires Plain(args)
    ensures ExpandAll(args, env) == args
  {
    forall i | 0 <= i < |args| ensures Expand(args[i], env) == args[i] {
      PlainStays(args[i], env);
    }
  }

  lemma PairExpands(key: string, value: string, env: map<string, string>)
    ensures Expand(EscapedPair(key, value), env) == RawPair(key, value)
  {
    hide Expand;
    var rest := "=" + Escape(value);
    assert EscapedPair(key, value) == Escape(key) + rest;
    ExpandSkipsEscaped(key, rest, env);
    ExpandSkipsPlain("=", Escape(value), env);
    ExpandOfEscape(value, env);
    assert RawPair(key, value) == key + ("=" + value);
  }

  /** Every pair of a tag or an environment variable comes out as key=value, whatever characters it has. */
  lemma {:induction false} PairsExpand(flag: string, keys: seq<string>, m: map<string, string>,
                                       env: map<string, string>)
    requires '$' !in flag && Within(keys, m)
    ensures ExpandAll(PairArgs(flag, keys, m, true), env) == PairArgs(flag, keys, m, false)
  {
    hide Expand, EscapedPair, RawPair;
    if keys == [] {
    } else {
      var n := |keys| - 1;
      PairsExpand(flag, keys[..n], m, env);
      PairExpands(keys[n], m[keys[n]], env);
      PlainStays(flag, env);
      var last := [flag, EscapedPair(keys[n], m[keys[n]])];
      ExpandAllConcat(PairArgs(flag, keys[..n], m, true), last, env);
      assert ExpandAll(last, env) == [flag, RawPair(keys[n], m[keys[n]])];
    }
  }

  function Token(env: map<string, string>): string {
    if TOKEN_VAR in env then env[TOKEN_VAR] else TOKEN_REFERENCE
  }

  lemma ReferenceExpands(name: string, env: map<string, string>)
    requires ')' !in name
    ensures var reference := "$(" + name + ")";
            Expand(reference, env) == if name in env then env[name] else reference
  {
    var s := "$(" + name + ")";
    var end := |s| - 1;
    assert s[2..end] == name && s[end] == ')';
    var found := Find(s, ')', 2);
    assert found == end;
    assert s[end + 1..] == "";
  }

  lemma TokenExpands(env: map<string, string>)
    ensures Expand(TOKEN_REFERENCE, env) == Token(env)
  {
    assert ')' !in TOKEN_VAR;
    ReferenceExpands(TOKEN_VAR, env);
  }

  /** The reference to the token is replaced by its value, and the rest of the log output stays. */
  lemma LogExpands(plzName: string, testRunID: string, env: map<string, string>)
    requires '$' !in plzName && '$' !in testRunID
    ensures Expand(LogOutput(plzName, testRunID, TOKEN_REFERENCE), env) == LogOutput(plzName, testRunID, Token(env))
  {
    hide Expand, Token;
    TokenExpands(env);
    ExpandSkipsPlain(LOG_SUFFIX, TOKEN_REFERENCE, env);
    ExpandSkipsPlain(testRunID, LOG_SUFFIX + TOKEN_REFERENCE, env);
    ExpandSkipsPlain(",label.test_run_id=", testRunID + (LOG_SUFFIX + TOKEN_REFERENCE), env);
    ExpandSkipsPlain(plzName, ",label.test_run_id=" + (testRunID + (LOG_SUFFIX + TOKEN_REFERENCE)), env);
    assert '$' !in "--log-output" && '$' !in "=loki=https://cloudlogs.k6.io" && '$' !in "/api/v1/push,label.lz=";
    ExpandSkipsPlain(LOG_PREFIX, plzName + (",label.test_run_id=" + (testRunID + (LOG_SUFFIX + TOKEN_REFERENCE))), env);
  }

  lemma {:induction false} JoinPlain(parts: seq<string>, sep: string)
    requires Plain(parts) && '$' !in sep
    ensures '$' !in Join(parts, sep)
  {
    if |parts| > 1 {
      JoinPlain(parts[1..], sep);
    }
  }

  lemma PartsPlain(total: int)
    ensures Plain(Segmentation.Parts(total))
  {
    hide Integer;
    var parts := Segmentation.Parts(total);
    forall i | 0 <= i < |parts| ensures '$' !in parts[i] {
      if 0 < i < |parts| - 1 {
        assert parts[i] == Integer(i) + "/" + Integer(total);
      }
    }
  }

  lemma SegmentsPlain(r: Runner, index: nat)
    requires Segments(r, index).Some?
    ensures Plain(Segments(r, index).value)
  {
    if r.parallelism > 1 {
      var n := r.parallelism;
      hide Integer, Join;
      PartsPlain(n);
      JoinPlain(Segmentation.Parts(n), ",");
      var from, to := Segmentation.SegmentPart(index - 1, n), Segmentation.SegmentPart(index, n);
      assert '$' !in Segmentation.SEGMENT_FLAG && '$' !in Segmentation.SEQUENCE_FLAG && '$' !in ":";
      assert '$' !in from && '$' !in to;
    }
  }

  /** The name of the TestRun is one that Kubernetes allows. */
  ghost predicate PlainName(r: Runner) {
    '$' !in r.name && r.script.Some?
  }

  lemma TailPlain(r: Runner, index: nat)
    requires PlainName(r)
    ensures Plain(Tail(r, index, "")[1..])
  {
    assert '$' !in "instance_id=" && '$' !in "testrun_name=" && '$' !in INSTANCE_VAR && '$' !in "=";
    assert '$' !in "instance_id=" + Decimal(index);
    assert '$' !in "testrun_name=" + r.name;
    assert '$' !in INSTANCE_VAR + "=" + Decimal(index);
    assert '$' !in "--address=0.0.0.0:6565" && '$' !in "--paused" && '$' !in "--tag" && '$' !in "-e";
    assert '$' !in "--no-setup" && '$' !in "--no-teardown" && '$' !in "--linger";
    hide Decimal;
  }

  lemma TailExpands(r: Runner, index: nat, name: string, env: map<string, string>)
    requires PlainName(r)
    ensures ExpandAll(Tail(r, index, name), env) == Tail(r, index, Expand(name, env))
  {
    hide Expand;
    var rest := Tail(r, index, "")[1..];
    hide Tail;
    TailHead(r, index, name);
    TailHead(r, index, Expand(name, env));
    TailPlain(r, index);
    PlainArgsStay(rest, env);
    ExpandAllConcat([name], rest, env);
  }

  lemma TailHead(r: Runner, index: nat, name: string)
    ensures Tail(r, index, name) == [name] + Tail(r, index, "")[1..]
  {
    hide Decimal, ParsedBool;
  }

  lemma HeadPlain(r: Runner, segments: seq<string>)
    requires Plain(segments)
    ensures Plain(Head(r, segments))
  {
    hide ParsedBool;
    assert '$' !in "scuttle" && '$' !in "k6" && '$' !in "run" && '$' !in "--quiet";
  }

  lemma CommandExpands(r: Runner, index: nat, name: string, env: map<string, string>)
    requires PlainName(r) && Segments(r, index).Some?
    ensures var segments := Segments(r, index).value;
            ExpandAll(Command(r, index, name, segments, r.argv), env)
            == Command(r, index, Expand(name, env), segments, ExpandAll(r.argv, env))
  {
    var segments := Segments(r, index).value;
    SegmentsPlain(r, index);
    HeadPlain(r, segments);
    TailExpands(r, index, name, env);
    var head, tail := Head(r, segments), Tail(r, index, name);
    assert Command(r, index, name, segments, r.argv) == head + r.argv + tail;
    assert Command(r, index, Expand(name, env), segments, ExpandAll(r.argv, env))
           == head + ExpandAll(r.argv, env) + Tail(r, index, Expand(name, env));
    hide Tail, Segments, Head, Command, Expand;
    PlainArgsStay(head, env);
    ExpandAllConcat(head, r.argv, env);
    ExpandAllConcat(head + r.argv, tail, env);
  }

  // What a runner container does.

  lemma NotTheCheck(r: Runner, index: nat, script: string, segments: seq<string>, argv: seq<string>, files: set<string>)
    ensures var command := Command(r, index, script, segments, argv);
            Execute(command, files) == Runs(command) && command != []
  {
    var command := Command(r, index, script, segments, argv);
    assert command[0] == "scuttle" || command[0] == "k6";
  }

  /** Behind the check for a file, a command runs exactly as it is, or nothing does. */
  lemma CheckRuns(name: string, cmd: seq<string>, files: set<string>)
    requires cmd != []
    ensures Execute(["sh", "-c", CHECK_SCRIPT, "sh", name] + cmd, files)
            == if name in files then Runs(cmd) else Exits(1)
  {
    var command := ["sh", "-c", CHECK_SCRIPT, "sh", name] + cmd;
    assert command[..3] == ["sh", "-c", CHECK_SCRIPT];
    assert command[4..] == [name] + cmd;
  }

  lemma CheckExpands(name: string, env: map<string, string>)
    ensures ExpandAll(["sh", "-c", CHECK_SCRIPT, "sh", name], env)
            == ["sh", "-c", CHECK_SCRIPT, "sh", Expand(name, env)]
  {
    CheckSurvives(env);
    PlainStays("sh", env);
    PlainStays("-c", env);
    hide Expand;
  }

  lemma CommandRuns(r: Runner, index: nat, env: map<string, string>, files: set<string>)
    requires ContainerCommand(r, index).Some? && PlainName(r)
    ensures var script, segments := r.script.value, Segments(r, index).value;
            var name := Expand(FullName(script), env);
            Execute(ExpandAll(ContainerCommand(r, index).value, env), files)
            == if script.kind == "LocalFile" && name !in files then Exits(1)
               else if script.kind == "LocalFile" && r.needsShell then
                 Runs(["sh", "-c", Expand(Join(Command(r, index, FullName(script), segments, r.argv), " "), env)])
               else Runs(Command(r, index, name, segments, ExpandAll(r.argv, env)))
  {
    hide Segments, FullName, Command, Execute, Expand, Join;
    var script, segments := r.script.value, Segments(r, index).value;
    var name := Expand(FullName(script), env);
    var command := Command(r, index, FullName(script), segments, r.argv);
    var expanded := Command(r, index, name, segments, ExpandAll(r.argv, env));
    CommandExpands(r, index, FullName(script), env);
    NotTheCheck(r, index, name, segments, ExpandAll(r.argv, env), files);
    if script.kind == "LocalFile" {
      var check := ["sh", "-c", CHECK_SCRIPT, "sh", FullName(script)];
      CheckExpands(FullName(script), env);
      if r.needsShell {
        var text := Join(command, " ");
        ExpandAllConcat(check, ["sh", "-c", text], env);
        PlainStays("sh", env);
        PlainStays("-c", env);
        assert ExpandAll(["sh", "-c", text], env) == ["sh", "-c", Expand(text, env)];
        CheckRuns(name, ["sh", "-c", Expand(text, env)], files);
      } else {
        ExpandAllConcat(check, command, env);
        CheckRuns(name, expanded, files);
      }
    }
  }

  /**
   * What a runner container does, for any script. Without a shell, k6 runs with the expanded arguments of the
   * user and the operator's options around them; behind the check for a local file, a command that needs a
   * shell is handed to one as the expansion of its joined text; and if the file is missing, nothing runs. The
   * name of the script is not escaped, so it is its expansion that is looked for and passed on.
   */
  lemma RunnerRuns(r: Runner, index: nat, env: map<string, string>, files: set<string>)
    requires ContainerCommand(r, index).Some? && PlainName(r)
    ensures var script, segments := r.script.value, Segments(r, index).value;
            var name := Expand(script.path + script.filename, env);
            Execute(ExpandAll(ContainerCommand(r, index).value, env), files)
            == if script.kind == "LocalFile" && name !in files then Exits(1)
               else if script.kind == "LocalFile" && r.needsShell then
                 Runs(["sh", "-c", Expand(Join(K6Words(r, index, script.path + script.filename, segments, r.argv), " "),
                                          env)])
               else Runs(K6Words(r, index, name, segments, ExpandAll(r.argv, env)))
  {
    var script, segments := r.script.value, Segments(r, index).value;
    hide Segments, Command, K6Words, Execute, Expand, Join, ContainerCommand, ExpandAll;
    CommandRuns(r, index, env, files);
    WordsOfCommand(r, index, FullName(script), segments, r.argv);
    WordsOfCommand(r, index, Expand(FullName(script), env), segments, ExpandAll(r.argv, env));
  }

  lemma CommandNames(r: Runner, index: nat, a: string, b: string, segments: seq<string>, argv: seq<string>)
    requires K6Words(r, index, a, segments, argv) == K6Words(r, index, b, segments, argv)
    ensures a == b
  {
    hide K6Words;
    WordsOfCommand(r, index, a, segments, argv);
    WordsOfCommand(r, index, b, segments, argv);
    var at := |Head(r, segments) + argv|;
    assert Command(r, index, a, segments, argv) == (Head(r, segments) + argv) + Tail(r, index, a);
    assert Command(r, index, b, segments, argv) == (Head(r, segments) + argv) + Tail(r, index, b);
    assert Command(r, index, a, segments, argv)[at] == a;
    assert Command(r, index, b, segments, argv)[at] == b;
  }

  /** Wherever the script is found, k6 is told its very name. */
  ghost predicate ScriptReaches(r: Runner, index: nat)
    requires ContainerCommand(r, index).Some?
  {
    var name, segments := FullName(r.script.value), Segments(r, index).value;
    forall env: map<string, string>, files: set<string> | Expand(name, env) in files ::
      Execute(ExpandAll(ContainerCommand(r, index).value, env), files)
      == Runs(K6Words(r, index, name, segments, ExpandAll(r.argv, env)))
  }

  /** In every environment, k6 gets the name of the script as it was given exactly if that name is inert. */
  lemma ScriptReachesExactly(r: Runner, index: nat)
    requires ContainerCommand(r, index).Some? && PlainName(r)
    requires !(r.script.value.kind == "LocalFile" && r.needsShell)
    ensures ScriptReaches(r, index) <==> Inert(FullName(r.script.value))
  {
    var name, segments := FullName(r.script.value), Segments(r, index).value;
    hide Segments, K6Words, Execute, Expand, Inert, ContainerCommand;
    if Inert(name) {
      forall env: map<string, string>, files: set<string> | Expand(name, env) in files
        ensures Execute(ExpandAll(ContainerCommand(r, index).value, env), files)
                == Runs(K6Words(r, index, name, segments, ExpandAll(r.argv, env)))
      {
        RunnerRuns(r, index, env, files);
        InertStays(name, env);
      }
    } else {
      var env := ActiveChanges(name);
      var files := {Expand(name, env)};
      RunnerRuns(r, index, env, files);
      if ScriptReaches(r, index) {
        assert Expand(name, env) in files;
        CommandNames(r, index, name, Expand(name, env), segments, ExpandAll(r.argv, env));
      }
    }
  }

  lemma WorkerArgsExpand(plzName: string, testRunID: string, systemEnv: bool,
                         tagArgs: seq<string>, rawTags: seq<string>, envArgs: seq<string>, rawEnv: seq<string>,
                         env: map<string, string>)
    requires '$' !in plzName && '$' !in testRunID
    requires ExpandAll(tagArgs, env) == rawTags && ExpandAll(envArgs, env) == rawEnv
    ensures ExpandAll(WorkerArgs(LogOutput(plzName, testRunID, TOKEN_REFERENCE), tagArgs, envArgs, systemEnv), env)
            == WorkerArgs(LogOutput(plzName, testRunID, Token(env)), rawTags, rawEnv, systemEnv)
  {
    hide Expand, LogOutput, Token;
    LogExpands(plzName, testRunID, env);
    var log := LogOutput(plzName, testRunID, TOKEN_REFERENCE);
    var out := ["--out", "cloud"];
    var system := [SYSTEM_ENV + (if systemEnv then "true" else "false")]
                  + if systemEnv then [] else ["--verbose", "--summary-mode=disabled"];
    PlainArgsStay(out, env);
    PlainStays("--no-thresholds", env);
    assert '$' !in SYSTEM_ENV && '$' !in "true" && '$' !in "false";
    PlainArgsStay(system, env);
    ExpandAllConcat(out, tagArgs, env);
    ExpandAllConcat(out + tagArgs, ["--no-thresholds", log], env);
    ExpandAllConcat(out + tagArgs + ["--no-thresholds", log], envArgs, env);
    ExpandAllConcat(out + tagArgs + ["--no-thresholds", log] + envArgs, system, env);
    assert WorkerArgs(log, tagArgs, envArgs, systemEnv)
           == out + tagArgs + ["--no-thresholds", log] + envArgs + system;
    assert ExpandAll(["--no-thresholds", log], env) == ["--no-thresholds", LogOutput(plzName, testRunID, Token(env))];
  }

  /**
   * The whole way of a PLZ run, for all tags, environments and container variables: the arguments that the
   * worker writes pass validation as cloud output, and k6 runs with each pair as plain key=value.
   */
  lemma UserPairsReachK6(r: Runner, index: nat, plzName: string, systemEnv: bool,
                         tagKeys: seq<string>, tags: map<string, string>,
                         envKeys: seq<string>, userEnv: map<string, string>,
                         env: map<string, string>, files: set<string>)
    requires Within(tagKeys, tags) && Within(envKeys, userEnv)
    requires '$' !in plzName && '$' !in r.testRunID
    requires r.argv == WorkerArgs(LogOutput(plzName, r.testRunID, TOKEN_REFERENCE),
                                  PairArgs("--tag", tagKeys, tags, true), PairArgs("-e", envKeys, userEnv, true),
                                  systemEnv)
    requires ContainerCommand(r, index).Some? && PlainName(r) && !r.needsShell
    requires r.script.value.kind == "LocalFile" ==> Expand(FullName(r.script.value), env) in files
    ensures K6Cli.Parsed(r.argv).1 == None && K6Cli.Parsed(r.argv).0.hasCloudOut
    ensures var argv := WorkerArgs(LogOutput(plzName, r.testRunID, Token(env)),
                                   PairArgs("--tag", tagKeys, tags, false),
                                   PairArgs("-e", envKeys, userEnv, false), systemEnv);
            Execute(ExpandAll(ContainerCommand(r, index).value, env), files)
            == Runs(K6Words(r, index, Expand(FullName(r.script.value), env), Segments(r, index).value, argv))
  {
    FullNameIs(r.script.value);
    hide *;
    var log := LogOutput(plzName, r.testRunID, TOKEN_REFERENCE);
    var tagArgs, envArgs := PairArgs("--tag", tagKeys, tags, true), PairArgs("-e", envKeys, userEnv, true);
    CloudArgsTheorems.LogIsLog(plzName, r.testRunID, TOKEN_REFERENCE);
    CloudArgsTheorems.WorkerArgsParse(log, systemEnv, tagKeys, tags, envKeys, userEnv);
    PairsExpand("--tag", tagKeys, tags, env);
    PairsExpand("-e", envKeys, userEnv, env);
    WorkerArgsExpand(plzName, r.testRunID, systemEnv,
                     tagArgs, PairArgs("--tag", tagKeys, tags, false),
                     envArgs, PairArgs("-e", envKeys, userEnv, false), env);
    RunnerRuns(r, index, env, files);
  }

  lemma FullNameIs(script: Script)
    ensures FullName(script) == script.path + script.filename
  {
  }

  const ARCHIVE := Script("archive.tar", "/test/", "LocalFile")

  /** The runner that a PLZ worker asks for: `complete` on top of the worker's template. */
  function PLZRunner(id: string, parallelism: int, argv: seq<string>): Runner {
    Runner("plz-test-" + id, "", "", "", parallelism, Some(ARCHIVE), argv, false, true, id)
  }

  /** The token of the cloud, as far as the container knows it. */
  function CloudToken(env: map<string, string>): string {
    if "K6_CLOUD_TOKEN" in env then env["K6_CLOUD_TOKEN"] else "$(K6_CLOUD_TOKEN)"
  }

  /** What k6 gets to run for the data of a test run, once the container has the variables of `env`. */
  ghost function DataWords(id: string, index: nat, segments: seq<string>, plzName: string, tags: map<string, string>,
                           environment: map<string, string>, systemEnv: bool, env: map<string, string>): seq<string>
  {
    PLZWords(id, index, segments, plzName, PairArgs("--tag", SortedKeys(TagKeys(tags)), tags, false),
             PairArgs("-e", SortedKeys(environment.Keys), environment, false), systemEnv, CloudToken(env))
  }

  lemma ArchiveStays(env: map<string, string>)
    ensures Expand(FullName(ARCHIVE), env) == "/test/archive.tar"
  {
    assert FullName(ARCHIVE) == "/test/archive.tar";
    PlainStays(FullName(ARCHIVE), env);
  }

  /**
   * From the data of a test run to the containers of its runners: with one load zone, the arguments pass
   * validation, each runner up to the parallelism gets a command, and wherever the archive is there, that
   * command runs k6 with each tag and variable of the data as plain key=value, in key order.
   */
  method RunnerOfData(data: TestRunData, plzName: string, cloudHost: string, parallelism: int, index: nat)
    returns (prepared: bool, err: Option<string>, command: Option<seq<string>>)
    requires '$' !in plzName
    modifies data
    ensures prepared == (|data.zones| == 1)
    ensures prepared ==> err == None
    ensures prepared ==> (command.Some? <==> parallelism <= 1 || index <= parallelism)
    ensures prepared && command.Some? ==>
              var id := Integer(data.testRunId);
              var segments := Segments(PLZRunner(id, parallelism, []), index).value;
              forall env: map<string, string>, files: set<string> | "/test/archive.tar" in files ::
                Execute(ExpandAll(command.value, env), files)
                == Runs(DataWords(id, index, segments, plzName, data.tags, data.environment,
                                  data.includeSystemEnvVars, env))
  {
    hide *;
    command := None;
    var args, cli: K6Cli.CLI;
    prepared, args, cli, err := CloudArgsTheorems.ValidatedArgs(data, plzName, cloudHost);
    if prepared {
      var id := Integer(data.testRunId);
      var r := PLZRunner(id, parallelism, args);
      command := NewRunnerCommand(r, index);
      PLZCommand(r, id, parallelism, args, index);
      IntegerPlain(data.testRunId);
      ghost var tags, environment, systemEnv := data.tags, data.environment, data.includeSystemEnvVars;
      if command.Some? {
        forall env: map<string, string>, files: set<string> | "/test/archive.tar" in files
          ensures Execute(ExpandAll(command.value, env), files)
                  == Runs(DataWords(id, index, Segments(PLZRunner(id, parallelism, []), index).value, plzName,
                                    tags, environment, systemEnv, env))
        {
          DataReachesK6(id, parallelism, args, index, plzName, tags, environment, systemEnv, env, files);
        }
      }
    }
  }

  lemma IntegerPlain(n: int)
    ensures '$' !in Integer(n) && Integer(n) != ""
  {
  }

  lemma PLZCommand(r: Runner, id: string, parallelism: int, args: seq<string>, index: nat)
    requires r == PLZRunner(id, parallelism, args)
    ensures ContainerCommand(r, index).Some? <==> parallelism <= 1 || index <= parallelism
    ensures Segments(PLZRunner(id, parallelism, []), index).Some? <==> parallelism <= 1 || index <= parallelism
  {
  }

  lemma DataReachesK6(id: string, parallelism: int, args: seq<string>, index: nat, plzName: string,
                      tags: map<string, string>, environment: map<string, string>, systemEnv: bool,
                      env: map<string, string>, files: set<string>)
    requires '$' !in plzName && '$' !in id && "/test/archive.tar" in files
    requires parallelism <= 1 || index <= parallelism
    requires args == WorkerArgs(LogOutput(plzName, id, TOKEN_REFERENCE),
                                PairArgs("--tag", SortedKeys(TagKeys(tags)), tags, true),
                                PairArgs("-e", SortedKeys(environment.Keys), environment, true), systemEnv)
    requires id != ""
    ensures ContainerCommand(PLZRunner(id, parallelism, args), index).Some?
    ensures Segments(PLZRunner(id, parallelism, []), index).Some?
    ensures Execute(ExpandAll(ContainerCommand(PLZRunner(id, parallelism, args), index).value, env), files)
            == Runs(DataWords(id, index, Segments(PLZRunner(id, parallelism, []), index).value, plzName,
                              tags, environment, systemEnv, env))
  {
    var r := PLZRunner(id, parallelism, args);
    PLZCommand(r, id, parallelism, args, index);
    ArchiveRunner(r, id, parallelism, args);
    ArchiveStays(env);
    TokenIs(env);
    assert Within(SortedKeys(TagKeys(tags)), tags) && Within(SortedKeys(environment.Keys), environment);
    hide Segments, Execute, Expand, WorkerArgs, PairArgs, LogOutput, Token, TagKeys, SortedKeys, PLZWords, K6Words,
         ContainerCommand, FullName, PlainName, ExpandAll, Within, PLZRunner, CloudToken;
    UserPairsReachK6(r, index, plzName, systemEnv, SortedKeys(TagKeys(tags)), tags,
                     SortedKeys(environment.Keys), environment, env, files);
    PLZWordsAre(id, parallelism, args, index, Segments(r, index).value, plzName,
                PairArgs("--tag", SortedKeys(TagKeys(tags)), tags, false),
                PairArgs("-e", SortedKeys(environment.Keys), environment, false), systemEnv, Token(env));
  }

  lemma TokenIs(env: map<string, string>)
    ensures Token(env) == CloudToken(env)
  {
    assert TOKEN_REFERENCE == "$(K6_CLOUD_TOKEN)";
  }

  lemma PLZWordsAre(id: string, parallelism: int, args: seq<string>, index: nat, segments: seq<string>,
                    plzName: string, tagArgs: seq<string>, envArgs: seq<string>, systemEnv: bool, token: string)
    requires id != ""
    ensures K6Words(PLZRunner(id, parallelism, args), index, "/test/archive.tar", segments,
                    WorkerArgs(LogOutput(plzName, id, token), tagArgs, envArgs, systemEnv))
            == PLZWords(id, index, segments, plzName, tagArgs, envArgs, systemEnv, token)
  {
    var log := LogOutput(plzName, id, token);
    LogWords(plzName, id, token);
    WorkerWords(log, tagArgs, envArgs, systemEnv);
    hide LogOutput, WorkerArgs, Decimal;
    var head := ["k6", "run"] + ["--quiet"] + segments;
    assert ["k6", "run"] + ["--quiet"] == ["k6", "run", "--quiet"];
    var system := if systemEnv then ["--include-system-env-vars=true"]
                  else ["--include-system-env-vars=false", "--verbose", "--summary-mode=disabled"];
    assert head + (["--out", "cloud"] + tagArgs + ["--no-thresholds", log] + envArgs + system)
           == head + ["--out", "cloud"] + tagArgs + ["--no-thresholds", log] + envArgs + system;
    var instance := Decimal(index);
    assert ["/test/archive.tar", "--address=0.0.0.0:6565"] + ["--paused"]
           + ["--tag", "instance_id=" + instance, "--tag", "testrun_name=" + ("plz-test-" + id)]
           + ["--no-setup", "--no-teardown", "--linger", "-e", "K6_CLOUDRUN_INSTANCE_ID=" + instance]
           == ["/test/archive.tar", "--address=0.0.0.0:6565", "--paused",
               "--tag", "instance_id=" + instance, "--tag", "testrun_name=" + ("plz-test-" + id),
               "--no-setup", "--no-teardown", "--linger", "-e", "K6_CLOUDRUN_INSTANCE_ID=" + instance];
    assert "testrun_name=" + ("plz-test-" + id) == "testrun_name=plz-test-" + id;
  }

  lemma ArchiveRunner(r: Runner, id: string, parallelism: int, args: seq<string>)
    requires r == PLZRunner(id, parallelism, args) && '$' !in id
    ensures PlainName(r) && r.testRunID == id && r.argv == args && !r.needsShell && r.script == Some(ARCHIVE)
  {
    assert '$' !in "plz-test-" + id;
  }
}
