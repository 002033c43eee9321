/**
 * pkg/resources/jobs/runner.go and pkg/types/script.go: the command of a runner container, and what reaches k6
 * once the kubelet has expanded it and a shell has checked that the script exists.
 */
module RunnerCommand {
  import opened Text
  import opened KubeExpansion
  import opened CloudArgs
  import Segmentation

  datatype Script = Script(filename: string, path: string, kind: string)

  function FullName(script: Script): string {
    script.path + script.filename
  }

  const CHECK_FILE := "if [ ! -f \""
  const CHECK_ECHO := "  echo \"LocalFile not found exiting...\"\n"
  const CHECK_SCRIPT :=
    CHECK_FILE + ("$1" + ("\" ]; then\n" + (CHECK_ECHO + ("  exit 1\nfi\nshift\nexec \"" + ("$@" + "\"")))))

  /** A LocalFile script is looked for first; a command that needs a shell is passed on as one text. */
  function UpdateCommand(script: Script, cmd: seq<string>, needsShell: bool): seq<string> {
    if script.kind != "LocalFile" then cmd
    else
      ["sh", "-c", CHECK_SCRIPT, "sh", FullName(script)]
      + if needsShell then ["sh", "-c", Join(cmd, " ")] else cmd
  }

  /** What a container does: it runs a command, or ends with an exit code. */
  datatype Outcome = Runs(command: seq<string>) | Exits(code: nat)

  /**
   * Running a command. Only the shell text of the check is interpreted here: the element after it is $0, the
   * next one $1, the file to look for; shift drops that one, and exec "$@" runs the others as they are.
   */
  function Execute(command: seq<string>, files: set<string>): Outcome {
    if |command| >= 3 && command[..3] == ["sh", "-c", CHECK_SCRIPT] then
      var arguments := if |command| > 4 then command[4..] else [];
      if arguments == [] || arguments[0] !in files then Exits(1)
      else if |arguments| == 1 then Exits(0)
      else Runs(arguments[1..])
    else Runs(command)
  }

  function ExpandAll(args: seq<string>, env: map<string, string>): (expanded: seq<string>)
    ensures |expanded| == |args|
  {
    seq(|args|, i requires 0 <= i < |args| => Expand(args[i], env))
  }

  /** The value of strconv.ParseBool, whose error is ignored. */
  predicate ParsedBool(text: string) {
    text in ["1", "t", "T", "TRUE", "true", "True"]
  }

  datatype Runner = Runner(
    name: string, scuttle: string, quiet: string, paused: string, parallelism: int,
    script: Option<Script>, // None if the script definition is invalid
    argv: seq<string>, needsShell: bool,
    plz: bool, testRunID: string)

  /** What comes before the arguments of the user. */
  function Head(r: Runner, segments: seq<string>): seq<string> {
    (if ParsedBool(r.scuttle) then ["scuttle"] else []) + ["k6", "run"]
    + (if r.quiet == "" || ParsedBool(r.quiet) then ["--quiet"] else []) + segments
  }

  function Tail(r: Runner, index: nat, script: string): seq<string> {
    [script, "--address=0.0.0.0:6565"]
    + (if r.paused == "" || ParsedBool(r.paused) then ["--paused"] else [])
    + ["--tag", "instance_id=" + Decimal(index), "--tag", "testrun_name=" + r.name]
    + (if r.plz then ["--no-setup", "--no-teardown", "--linger"] else [])
    + (if r.testRunID != "" && r.plz then ["-e", INSTANCE_VAR + "=" + Decimal(index)] else [])
  }

  /** k6 run with the options of the operator before the user's arguments, and others after them. */
  function Command(r: Runner, index: nat, script: string, segments: seq<string>, argv: seq<string>): seq<string> {
    Head(r, segments) + argv + Tail(r, index, script)
  }

  /** One runner alone gets no segments. */
  function Segments(r: Runner, index: nat): Option<seq<string>> {
    if r.parallelism > 1 then Segmentation.CommandFragments(index, r.parallelism) else Some([])
  }

  /** The command that NewRunnerJob assembles; None if it fails. */
  function ContainerCommand(r: Runner, index: nat): Option<seq<string>> {
    if Segments(r, index).None? || r.script.None? then None
    else
      var script := r.script.value;
      var command := Command(r, index, FullName(script), Segments(r, index).value, r.argv);
      Some(UpdateCommand(script, command, r.needsShell))
  }

  method NewRunnerCommand(r: Runner, index: nat) returns (result: Option<seq<string>>)
    ensures result == ContainerCommand(r, index)
  {
    hide Segmentation.CommandFragments, Tail, UpdateCommand;
    var command := RunnerHead(r);
    ghost var segments := [];
    assert Head(r, []) + segments == Head(r, []);
    if r.parallelism > 1 {
      var fragments := Segmentation.NewCommandFragments(index, r.parallelism);
      if fragments.None? {
        return None;
      }
      command := command + fragments.value;
      segments := fragments.value;
    }
    HeadEnds(r, segments);
    hide Head;
    if r.script.None? {
      return None;
    }
    var script := r.script.value;
    command := command + r.argv;
    assert command == Head(r, segments) + r.argv;
    var tail := RunnerTail(r, index, FullName(script));
    command := command + tail;
    assert command == Command(r, index, FullName(script), segments, r.argv);
    return Some(UpdateCommand(script, command, r.needsShell));
  }

  lemma HeadEnds(r: Runner, segments: seq<string>)
    ensures Head(r, segments) == Head(r, []) + segments
  {
    hide ParsedBool;
  }

  method RunnerHead(r: Runner) returns (head: seq<string>)
    ensures head == Head(r, [])
  {
    head := [];
    if r.scuttle != "" && ParsedBool(r.scuttle) {
      head := head + ["scuttle"];
    }
    head := head + ["k6", "run"];

    var quiet := true;
    if r.quiet != "" {
      quiet := ParsedBool(r.quiet);
    }
    if quiet {
      head := head + ["--quiet"];
    }
  }

  method RunnerTail(r: Runner, index: nat, script: string) returns (tail: seq<string>)
    ensures tail == Tail(r, index, script)
  {
    tail := [script, "--address=0.0.0.0:6565"];
    var paused := true;
    if r.paused != "" {
      paused := ParsedBool(r.paused);
    }
    if paused {
      tail := tail + ["--paused"];
    }
    tail := tail + ["--tag", "instance_id=" + Decimal(index)];
    tail := tail + ["--tag", "testrun_name=" + r.name];
    if r.plz {
      tail := tail + ["--no-setup", "--no-teardown", "--linger"];
    }
    if |r.testRunID| > 0 && r.plz {
      tail := tail + ["-e", INSTANCE_VAR + "=" + Decimal(index)];
    }
  }
}
