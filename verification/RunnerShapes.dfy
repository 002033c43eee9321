/** The commands of pkg/resources/jobs/runner.go and the arguments of pkg/plz/worker.go, word by word. */
module RunnerShapes {
  import opened Text
  import opened Sorting
  import opened KubeExpansion
  import opened CloudArgs
  import opened RunnerCommand
  import Segmentation

  /** The texts that strconv.ParseBool takes for true. */
  predicate Truthy(text: string) {
    text == "1" || text == "t" || text == "T" || text == "true" || text == "TRUE" || text == "True"
  }

  /** What k6 is told by a runner container. */
  ghost function K6Words(r: Runner, index: nat, script: string, segments: seq<string>, argv: seq<string>): seq<string> {
    (if Truthy(r.scuttle) then ["scuttle", "k6", "run"] else ["k6", "run"])
    + (if r.quiet == "" || Truthy(r.quiet) then ["--quiet"] else [])
    + segments + argv
    + [script, "--address=0.0.0.0:6565"]
    + (if r.paused == "" || Truthy(r.paused) then ["--paused"] else [])
    + ["--tag", "instance_id=" + Decimal(index), "--tag", "testrun_name=" + r.name]
    + (if !r.plz then []
       else if r.testRunID == "" then ["--no-setup", "--no-teardown", "--linger"]
       else ["--no-setup", "--no-teardown", "--linger", "-e", "K6_CLOUDRUN_INSTANCE_ID=" + Decimal(index)])
  }

  lemma WordsOfCommand(r: Runner, index: nat, script: string, segments: seq<string>, argv: seq<string>)
    ensures Command(r, index, script, segments, argv) == K6Words(r, index, script, segments, argv)
  {
    hide ParsedBool, Truthy, Decimal, Head, Tail;
    TailWords(r, index, script);
    HeadWords(r, segments);
    Spread(Head(r, segments) + argv, [script, "--address=0.0.0.0:6565"],
           if r.paused == "" || Truthy(r.paused) then ["--paused"] else [],
           ["--tag", "instance_id=" + Decimal(index), "--tag", "testrun_name=" + r.name],
           if !r.plz then []
           else if r.testRunID == "" then ["--no-setup", "--no-teardown", "--linger"]
           else ["--no-setup", "--no-teardown", "--linger", "-e", "K6_CLOUDRUN_INSTANCE_ID=" + Decimal(index)]);
  }

  lemma Spread(a: seq<string>, b: seq<string>, c: seq<string>, d: seq<string>, e: seq<string>)
    ensures a + (b + c + d + e) == a + b + c + d + e
  {
  }

  lemma HeadWords(r: Runner, segments: seq<string>)
    ensures Head(r, segments)
            == (if Truthy(r.scuttle) then ["scuttle", "k6", "run"] else ["k6", "run"])
               + (if r.quiet == "" || Truthy(r.quiet) then ["--quiet"] else []) + segments
  {
    assert ParsedBool(r.scuttle) <==> Truthy(r.scuttle);
    assert ParsedBool(r.quiet) <==> Truthy(r.quiet);
    hide ParsedBool, Truthy;
  }

  lemma TailWords(r: Runner, index: nat, script: string)
    ensures Tail(r, index, script)
            == [script, "--address=0.0.0.0:6565"]
               + (if r.paused == "" || Truthy(r.paused) then ["--paused"] else [])
               + ["--tag", "instance_id=" + Decimal(index), "--tag", "testrun_name=" + r.name]
               + (if !r.plz then []
                  else if r.testRunID == "" then ["--no-setup", "--no-teardown", "--linger"]
                  else ["--no-setup", "--no-teardown", "--linger", "-e", "K6_CLOUDRUN_INSTANCE_ID=" + Decimal(index)])
  {
    assert ParsedBool(r.paused) <==> Truthy(r.paused);
    hide ParsedBool, Truthy, Decimal;
    var three, instance := ["--no-setup", "--no-teardown", "--linger"], "K6_CLOUDRUN_INSTANCE_ID=" + Decimal(index);
    assert INSTANCE_VAR + "=" == "K6_CLOUDRUN_INSTANCE_ID=";
    assert three + ["-e", instance] == ["--no-setup", "--no-teardown", "--linger", "-e", instance];
    assert three + [] == three;
  }

  /** Where the checked script is a local file, a shell looks for it and then becomes the command. */
  lemma ContainerWords(r: Runner, index: nat)
    ensures ContainerCommand(r, index).Some? <==> r.script.Some? && (r.parallelism <= 1 || index <= r.parallelism)
    ensures ContainerCommand(r, index).Some? ==>
              var script := r.script.value;
              var words := K6Words(r, index, script.path + script.filename, Segments(r, index).value, r.argv);
              ContainerCommand(r, index).value
              == if script.kind != "LocalFile" then words
                 else ["sh", "-c",
                       CheckText(),
                       "sh", script.path + script.filename]
                      + if r.needsShell then ["sh", "-c", Join(words, " ")] else words
  {
    CheckWords();
    hide Command, K6Words, CHECK_SCRIPT, Join, Segmentation.CommandFragments;
    if ContainerCommand(r, index).Some? {
      WordsOfCommand(r, index, FullName(r.script.value), Segments(r, index).value, r.argv);
    }
    assert r.parallelism > 1 ==> (Segments(r, index).Some? <==> index <= r.parallelism) by { Numbered(r, index); }
  }

  lemma Numbered(r: Runner, index: nat)
    ensures Segments(r, index).Some? <==> r.parallelism <= 1 || index <= r.parallelism
  {
  }

  /** localFileCheckScript, in pieces. */
  ghost function CheckText(): string {
    "if [ ! -f \"" + "$1" + "\" ]; then\n"
    + "  echo \"LocalFile not found exiting...\"\n"
    + "  exit 1\nfi\nshift\nexec \"" + "$@" + "\""
  }

  lemma CheckWords()
    ensures CHECK_SCRIPT == CheckText()
  {
    var a, b, c, d, e, f, g := "if [ ! -f \"", "$1", "\" ]; then\n", "  echo \"LocalFile not found exiting...\"\n",
      "  exit 1\nfi\nshift\nexec \"", "$@", "\"";
    Seven(a, b, c, d, e, f, g);
  }

  lemma Seven(a: string, b: string, c: string, d: string, e: string, f: string, g: string)
    ensures a + (b + (c + (d + (e + (f + g))))) == a + b + c + d + e + f + g
  {
  }

  // The arguments of a PLZ worker.

  /** A text for each key, with the flag before it. */
  ghost predicate PairsOf(args: seq<string>, flag: string, m: map<string, string>, keys: seq<string>) {
    && |args| == 2 * |keys|
    && forall i | 0 <= i < |keys| ::
         keys[i] in m && args[2 * i] == flag && args[2 * i + 1] == keys[i] + "=" + m[keys[i]]
  }

  lemma {:induction false} PairArgsAre(flag: string, keys: seq<string>, m: map<string, string>)
    requires Within(keys, m)
    ensures PairsOf(PairArgs(flag, keys, m, false), flag, m, keys)
  {
    if keys == [] {
    } else {
      var n := |keys| - 1;
      PairArgsAre(flag, keys[..n], m);
      var front := PairArgs(flag, keys[..n], m, false);
      forall i | 0 <= i < n
        ensures keys[i] in m && front[2 * i] == flag && front[2 * i + 1] == keys[i] + "=" + m[keys[i]]
      {
        assert keys[..n][i] == keys[i];
      }
    }
  }

  /** Every tag with a key and a value is there once, in ascending order of the keys, and so is every variable. */
  lemma PairsListed(tags: map<string, string>, environment: map<string, string>)
    ensures exists keys :: Ascending(keys) && (forall k :: k in keys <==> k in tags && k != "" && tags[k] != "")
                           && PairsOf(PairArgs("--tag", SortedKeys(TagKeys(tags)), tags, false), "--tag", tags, keys)
    ensures exists keys :: Ascending(keys) && (forall k :: k in keys <==> k in environment)
                           && PairsOf(PairArgs("-e", SortedKeys(environment.Keys), environment, false), "-e",
                                      environment, keys)
  {
    var tagKeys, envKeys := SortedKeys(TagKeys(tags)), SortedKeys(environment.Keys);
    PairArgsAre("--tag", tagKeys, tags);
    PairArgsAre("-e", envKeys, environment);
    hide PairArgs, PairsOf, Ascending;
  }

  /** What k6 is told by a runner of a PLZ test run. */
  ghost function PLZWords(id: string, index: nat, segments: seq<string>, plzName: string, tagArgs: seq<string>,
                          envArgs: seq<string>, systemEnv: bool, token: string): seq<string>
  {
    ["k6", "run", "--quiet"] + segments
    + ["--out", "cloud"] + tagArgs
    + ["--no-thresholds",
       "--log-output" + "=loki=https://cloudlogs.k6.io" + "/api/v1/push,label.lz=" + plzName
       + ",label.test_run_id=" + id + ",header.Authorization=Token " + token]
    + envArgs
    + (if systemEnv then ["--include-system-env-vars=true"]
       else ["--include-system-env-vars=false", "--verbose", "--summary-mode=disabled"])
    + ["/test/archive.tar", "--address=0.0.0.0:6565", "--paused",
       "--tag", "instance_id=" + Decimal(index), "--tag", "testrun_name=plz-test-" + id,
       "--no-setup", "--no-teardown", "--linger", "-e", "K6_CLOUDRUN_INSTANCE_ID=" + Decimal(index)]
  }

  lemma LogWords(plzName: string, id: string, token: string)
    ensures LogOutput(plzName, id, token)
            == "--log-output" + "=loki=https://cloudlogs.k6.io" + "/api/v1/push,label.lz=" + plzName
               + ",label.test_run_id=" + id + ",header.Authorization=Token " + token
  {
    Seven("--log-output", "=loki=https://cloudlogs.k6.io", "/api/v1/push,label.lz=", plzName,
          ",label.test_run_id=", id, LOG_SUFFIX + token);
    var head := "--log-output" + "=loki=https://cloudlogs.k6.io" + "/api/v1/push,label.lz=" + plzName
                + ",label.test_run_id=" + id;
    assert head + (LOG_SUFFIX + token) == head + LOG_SUFFIX + token;
    Regroup("--log-output", "=loki=https://cloudlogs.k6.io", "/api/v1/push,label.lz=",
            plzName + (",label.test_run_id=" + (id + (LOG_SUFFIX + token))));
  }

  lemma Regroup(a: string, b: string, c: string, rest: string)
    ensures (a + (b + c)) + rest == a + (b + (c + rest))
  {
  }

  lemma WorkerWords(log: string, tagArgs: seq<string>, envArgs: seq<string>, systemEnv: bool)
    ensures WorkerArgs(log, tagArgs, envArgs, systemEnv)
            == ["--out", "cloud"] + tagArgs + ["--no-thresholds", log] + envArgs
               + if systemEnv then ["--include-system-env-vars=true"]
                 else ["--include-system-env-vars=false", "--verbose", "--summary-mode=disabled"]
  {
    assert SYSTEM_ENV + "true" == "--include-system-env-vars=true";
    assert SYSTEM_ENV + "false" == "--include-system-env-vars=false";
    assert ["--include-system-env-vars=false"] + ["--verbose", "--summary-mode=disabled"]
           == ["--include-system-env-vars=false", "--verbose", "--summary-mode=disabled"];
    assert ["--include-system-env-vars=true"] + [] == ["--include-system-env-vars=true"];
  }
}
