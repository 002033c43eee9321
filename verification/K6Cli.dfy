/** pkg/types/k6cli.go: the parser that picks from the arguments of `k6 run` those fit for `k6 archive`. */
module K6Cli {
  import opened Text

  datatype CLI = CLI(archiveArgs: seq<string>, hasCloudOut: bool)

  predicate IsFlag(arg: string) {
    |arg| > 0 && arg[0] == '-'
  }

  /** What becomes of a flag and its values: left out, looked at for "cloud" only, or passed on to `k6 archive`. */
  datatype Handling = Dropped | Output | Kept

  /** The cases of the switch, in their order. */
  function HandlingOf(flag: string): Handling {
    // `k6 archive` ignores the log output, and a token reference in it would break the shell
    if HasPrefix(flag, "--log-output") then Dropped
    // unsupported by `k6 archive`
    else if HasPrefix(flag, "--block-hostnames") || HasPrefix(flag, "--blacklist-ip")
            || HasPrefix(flag, "--user-agent") then Dropped
    else if flag == "-o" || flag == "--out" then Output
    // not arguments of `k6 archive`
    else if flag == "-l" || flag == "--linger" || flag == "--no-usage-report" then Dropped
    // would mess up the output of `k6 inspect`
    else if flag == "--verbose" || flag == "-v" then Dropped
    else Kept
  }

  predicate Keeps(flag: string) {
    HandlingOf(flag) == Kept
  }

  predicate IsOut(flag: string) {
    HandlingOf(flag) == Output
  }

  // The reference: one pass over the tokens that gathers groups of a flag and its values.

  /** Whether the last group, if any, can take another value. */
  datatype Phase = NoGroup | AfterFlag | InValues | Sealed

  datatype Scan = Scan(groups: seq<seq<string>>, phase: Phase, bad: Option<string>)

  predicate Absorbs(phase: Phase, token: string) {
    phase == AfterFlag || (phase == InValues && token != "")
  }

  function Step(s: Scan, token: string): Scan {
    if s.bad.Some? then s
    else if IsFlag(token) then Scan(s.groups + [[token]], AfterFlag, None)
    else if s.groups != [] && Absorbs(s.phase, token) then
      var n := |s.groups| - 1;
      Scan(s.groups[..n] + [s.groups[n] + [token]], if token == "" then Sealed else InValues, None)
    else Scan(s.groups, s.phase, Some(token))
  }

  function ScanOf(argv: seq<string>): Scan {
    if argv == [] then Scan([], NoGroup, None)
    else Step(ScanOf(argv[..|argv| - 1]), argv[|argv| - 1])
  }

  function Concat(groups: seq<seq<string>>): seq<string> {
    if groups == [] then [] else Concat(groups[..|groups| - 1]) + groups[|groups| - 1]
  }

  function KeptGroups(groups: seq<seq<string>>): seq<seq<string>> {
    if groups == [] then []
    else
      var g := groups[|groups| - 1];
      var kept := KeptGroups(groups[..|groups| - 1]);
      if g != [] && Keeps(g[0]) then kept + [g] else kept
  }

  predicate CloudGroup(g: seq<string>) {
    |g| > 1 && IsOut(g[0]) && g[1] == "cloud"
  }

  predicate AnyCloud(groups: seq<seq<string>>) {
    exists g :: g in groups && CloudGroup(g)
  }

  /** What parsing yields: the arguments to keep and whether there is cloud output, and the offending token if any. */
  function Parsed(argv: seq<string>): (CLI, Option<string>) {
    var s := ScanOf(argv);
    (CLI(Concat(KeptGroups(s.groups)), AnyCloud(s.groups)), s.bad)
  }

  // The parser itself, with its two nested index loops.

  method LastArgV(start: nat, args: seq<string>) returns (end: nat)
    requires start <= |args|
    ensures start <= end <= |args|
    ensures forall k | start <= k < end :: !IsFlag(args[k]) && (args[k] != "" || end == start + 1)
    ensures end < |args| ==> IsFlag(args[end]) || (start < end && (args[end] == "" || args[start] == ""))
  {
    end := start;
    while end < |args|
      invariant start <= end <= |args|
      invariant forall k | start <= k < end :: !IsFlag(args[k]) && args[k] != ""
    {
      if |args[end]| == 0 {
        if end == start {
          end := end + 1;
        }
        break;
      }
      if args[end][0] == '-' {
        break;
      }
      end := end + 1;
    }
  }

  method ParseCLI(argv: seq<string>) returns (cli: CLI, err: Option<string>)
    ensures (cli, err) == Parsed(argv)
  {
    cli, err := CLI([], false), None;
    NothingParsed();
    hide HandlingOf, KeptGroups, Concat;
    var i := 0;
    while i < |argv|
      invariant 0 <= i <= |argv|
      invariant err == ScanOf(argv[..i]).bad
      invariant (cli, err) == Parsed(argv[..i])
      invariant i < |argv| ==>
                  IsFlag(argv[i]) || !Absorbs(ScanOf(argv[..i]).phase, argv[i]) || ScanOf(argv[..i]).groups == []
      invariant err == None
    {
      if |argv[i]| > 0 && argv[i][0] == '-' {
        var end := LastArgV(i + 1, argv);
        ghost var before := ScanOf(argv[..i]);
        GroupScanned(argv, i, end);
        GroupTaken(before.groups, argv[i..end]);
        assert (argv[i..end])[0] == argv[i];
        assert |argv[i..end]| > 1 ==> (argv[i..end])[1] == argv[i + 1];

        match HandlingOf(argv[i]) {
          case Dropped =>
          case Output =>
            if i + 1 < end && argv[i + 1] == "cloud" {
              cli := cli.(hasCloudOut := true);
            }
          case Kept =>
            cli := cli.(archiveArgs := cli.archiveArgs + argv[i..end]);
        }
        i := end;
      } else {
        err := Some(argv[i]);
        BadStays(argv, i);
        break;
      }
    }
    if err == None {
      assert argv[..i] == argv;
    }
  }

  lemma NothingParsed()
    ensures ScanOf([]) == Scan([], NoGroup, None) && Parsed([]) == (CLI([], false), None)
  {
  }

  /** The tokens i..end that LastArgV delimits become one more group. */
  lemma {:induction false} GroupScanned(argv: seq<string>, i: nat, end: nat)
    requires i < end <= |argv| && IsFlag(argv[i])
    requires ScanOf(argv[..i]).bad == None
    requires forall k | i < k < end :: !IsFlag(argv[k]) && (argv[k] != "" || end == i + 2)
    ensures ScanOf(argv[..end])
            == Scan(ScanOf(argv[..i]).groups + [argv[i..end]],
                    if end == i + 1 then AfterFlag else if argv[end - 1] == "" then Sealed else InValues,
                    None)
  {
    hide IsFlag, ScanOf, Step;
    var before := ScanOf(argv[..i]).groups;
    ScanPrefix(argv, end - 1);
    if i + 1 == end {
      assert argv[i..end] == [argv[i]];
      FlagTaken(ScanOf(argv[..i]), argv[i]);
    } else {
      GroupScanned(argv, i, end - 1);
      assert argv[end - 2] == "" ==> end == i + 2;
      ValueTaken(before, argv[i..end - 1], if end == i + 2 then AfterFlag else InValues, argv[end - 1]);
      assert argv[i..end - 1] + [argv[end - 1]] == argv[i..end];
    }
  }

  lemma ScanPrefix(argv: seq<string>, i: nat)
    requires i < |argv|
    ensures ScanOf(argv[..i + 1]) == Step(ScanOf(argv[..i]), argv[i])
  {
    assert argv[..i + 1][..i] == argv[..i];
  }

  lemma FlagTaken(s: Scan, flag: string)
    requires IsFlag(flag) && s.bad == None
    ensures Step(s, flag) == Scan(s.groups + [[flag]], AfterFlag, None)
  {
  }

  lemma ValueTaken(before: seq<seq<string>>, g: seq<string>, phase: Phase, value: string)
    requires !IsFlag(value) && Absorbs(phase, value)
    ensures Step(Scan(before + [g], phase, None), value)
            == Scan(before + [g + [value]], if value == "" then Sealed else InValues, None)
  {
    assert (before + [g])[..|before|] == before;
  }

  lemma GroupTaken(groups: seq<seq<string>>, g: seq<string>)
    requires g != []
    ensures KeptGroups(groups + [g]) == if Keeps(g[0]) then KeptGroups(groups) + [g] else KeptGroups(groups)
    ensures Concat(KeptGroups(groups + [g]))
            == if Keeps(g[0]) then Concat(KeptGroups(groups)) + g else Concat(KeptGroups(groups))
    ensures AnyCloud(groups + [g]) <==> AnyCloud(groups) || CloudGroup(g)
  {
    assert (groups + [g])[..|groups|] == groups;
    var kept := KeptGroups(groups);
    assert (kept + [g])[..|kept|] == kept;
    assert g in groups + [g];
    assert forall h :: h in groups + [g] <==> h in groups || h == g;
  }

  lemma {:induction false} BadStays(argv: seq<string>, i: nat)
    requires i < |argv| && ScanOf(argv[..i]).bad == None
    requires Step(ScanOf(argv[..i]), argv[i]).bad == Some(argv[i])
    ensures ScanOf(argv) == ScanOf(argv[..i]).(bad := Some(argv[i]))
  {
    assert argv[..i + 1][..i] == argv[..i];
    var k := i + 1;
    while k < |argv|
      invariant i < k <= |argv|
      invariant ScanOf(argv[..k]) == ScanOf(argv[..i]).(bad := Some(argv[i]))
    {
      assert argv[..k + 1][..k] == argv[..k];
      k := k + 1;
    }
    assert argv[..|argv|] == argv;
  }

  // What the groups are.

  /** A flag followed by values none of which is a flag. */
  ghost predicate WellFormed(g: seq<string>) {
    && g != [] && IsFlag(g[0])
    && forall k | 0 < k < |g| :: !IsFlag(g[k])
  }

  /** The groups cut argv into a flag each with the values that follow it, and nothing is lost or moved. */
  lemma {:induction false} GroupsPartition(argv: seq<string>)
    requires Parsed(argv).1 == None
    ensures Concat(ScanOf(argv).groups) == argv
    ensures forall g | g in ScanOf(argv).groups :: WellFormed(g)
  {
    if argv == [] {
    } else {
      var n := |argv| - 1;
      GroupsPartition(argv[..n]);
      StepPartitions(ScanOf(argv[..n]), argv[n]);
      assert argv == argv[..n] + [argv[n]];
    }
  }

  lemma StepPartitions(s: Scan, token: string)
    requires s.bad == None && Step(s, token).bad == None
    requires forall g | g in s.groups :: WellFormed(g)
    ensures Concat(Step(s, token).groups) == Concat(s.groups) + [token]
    ensures forall g | g in Step(s, token).groups :: WellFormed(g)
  {
    hide IsFlag, Absorbs;
    var t := Step(s, token);
    if IsFlag(token) {
      assert t.groups[..|s.groups|] == s.groups;
      assert forall g | g in t.groups :: g in s.groups || g == [token];
    } else {
      var m := |s.groups| - 1;
      assert s.groups[m] in s.groups;
      var last := s.groups[m] + [token];
      assert t.groups == s.groups[..m] + [last];
      assert t.groups[..m] == s.groups[..m];
      assert forall g | g in t.groups :: g in s.groups || g == last;
      assert Concat(t.groups) == Concat(s.groups[..m]) + (s.groups[m] + [token]);
    }
  }

  /** Where the scan stands is decided by the last token alone. */
  lemma {:induction false} PhaseOfLast(argv: seq<string>)
    requires ScanOf(argv).bad == None
    ensures var s := ScanOf(argv);
            && (s.groups == [] <==> argv == [])
            && s.phase == (if argv == [] then NoGroup
                           else if IsFlag(argv[|argv| - 1]) then AfterFlag
                           else if argv[|argv| - 1] == "" then Sealed
                           else InValues)
  {
    if argv == [] {
    } else {
      PhaseOfLast(argv[..|argv| - 1]);
    }
  }

  /** A token that is not a flag is accepted next to its predecessor. */
  ghost predicate Accepted(argv: seq<string>, i: nat)
    requires i < |argv|
  {
    IsFlag(argv[i]) || (i > 0 && (IsFlag(argv[i - 1]) || (argv[i] != "" && argv[i - 1] != "")))
  }

  /**
   * Parsing succeeds exactly when every token that is not a flag follows a flag directly, or is non-empty and
   * follows another non-empty value: a leading value and a stray empty element are the only errors.
   */
  lemma {:induction false} ErrorsExactly(argv: seq<string>)
    ensures Parsed(argv).1 == None <==> forall i | 0 <= i < |argv| :: Accepted(argv, i)
  {
    if argv == [] {
    } else {
      var n := |argv| - 1;
      var front := argv[..n];
      ErrorsExactly(front);
      if forall i | 0 <= i < |argv| :: Accepted(argv, i) {
        forall i | 0 <= i < n ensures Accepted(front, i) {
          assert Accepted(argv, i);
        }
        assert Accepted(argv, n);
        PhaseOfLast(front);
      }
      if Parsed(argv).1 == None {
        PhaseOfLast(front);
        forall i | 0 <= i < |argv| ensures Accepted(argv, i) {
          if i < n {
            assert Accepted(front, i);
          }
        }
      }
    }
  }

  /** Some -o or --out is directly followed by "cloud". */
  ghost predicate CloudPair(argv: seq<string>) {
    exists i :: 0 <= i < |argv| - 1 && IsOut(argv[i]) && argv[i + 1] == "cloud"
  }

  lemma CloudPairStep(front: seq<string>, token: string)
    ensures CloudPair(front + [token])
            <==> CloudPair(front) || (front != [] && IsOut(front[|front| - 1]) && token == "cloud")
  {
    hide HandlingOf;
    var argv := front + [token];
    if CloudPair(front) {
      var i :| 0 <= i < |front| - 1 && IsOut(front[i]) && front[i + 1] == "cloud";
      assert IsOut(argv[i]) && argv[i + 1] == "cloud";
    }
    if CloudPair(argv) {
      var i :| 0 <= i < |argv| - 1 && IsOut(argv[i]) && argv[i + 1] == "cloud";
      if i < |front| - 1 {
        assert IsOut(front[i]) && front[i + 1] == "cloud";
      }
    }
    if front != [] && IsOut(front[|front| - 1]) && token == "cloud" {
      assert IsOut(argv[|front| - 1]) && argv[|front| - 1 + 1] == "cloud";
    }
  }

  lemma AnyCloudStep(groups: seq<seq<string>>, g: seq<string>, token: string)
    requires g != []
    ensures AnyCloud(groups + [g + [token]])
            <==> AnyCloud(groups + [g]) || (|g| == 1 && IsOut(g[0]) && token == "cloud")
  {
    hide HandlingOf;
    GroupTaken(groups, g);
    GroupTaken(groups, g + [token]);
  }

  /** The last group of a scan: a lone flag, or a flag with values. */
  lemma {:induction false} LastGroup(argv: seq<string>)
    requires ScanOf(argv).bad == None && argv != []
    ensures var s := ScanOf(argv);
            s.groups != []
            && var g := s.groups[|s.groups| - 1];
               g != [] && (|g| == 1 <==> IsFlag(argv[|argv| - 1])) && (|g| == 1 ==> g[0] == argv[|argv| - 1])
  {
    if |argv| > 1 && !IsFlag(argv[|argv| - 1]) {
      LastGroup(argv[..|argv| - 1]);
    }
  }

  /** HasCloudOut holds exactly when some -o or --out is directly followed by "cloud". */
  lemma {:induction false} CloudOutExactly(argv: seq<string>)
    requires Parsed(argv).1 == None
    ensures Parsed(argv).0.hasCloudOut <==> CloudPair(argv)
  {
    hide HandlingOf;
    if argv == [] {
    } else {
      var n := |argv| - 1;
      var front := argv[..n];
      var before := ScanOf(front).groups;
      CloudOutExactly(front);
      assert argv == front + [argv[n]];
      CloudPairStep(front, argv[n]);
      if IsFlag(argv[n]) {
        GroupTaken(before, [argv[n]]);
        assert argv[n] != "cloud";
      } else {
        LastGroup(front);
        FlagsOfOut();
        var m := |before| - 1;
        assert before == before[..m] + [before[m]];
        AnyCloudStep(before[..m], before[m], argv[n]);
      }
    }
  }

  lemma FlagsOfOut()
    ensures forall s | IsOut(s) :: IsFlag(s)
  {
  }

  // The parser is a homomorphism, and parsing its own output changes nothing.

  lemma {:induction false} ScanAppends(a: seq<string>, b: seq<string>)
    requires ScanOf(a).bad == None && b != [] && IsFlag(b[0])
    ensures ScanOf(b).groups != []
    ensures ScanOf(a + b) == ScanOf(b).(groups := ScanOf(a).groups + ScanOf(b).groups)
  {
    hide IsFlag, Absorbs;
    var n := |b| - 1;
    assert (a + b)[..|a + b| - 1] == a + b[..n];
    if n == 0 {
      assert a + b[..n] == a;
      assert ScanOf(a).groups + [[b[0]]] == ScanOf(a).groups + ([] + [[b[0]]]);
    } else {
      ScanAppends(a, b[..n]);
      StepAppends(ScanOf(a).groups, ScanOf(b[..n]), b[n]);
    }
  }

  /** A step looks at the last group only. */
  lemma StepAppends(groups: seq<seq<string>>, s: Scan, token: string)
    requires s.groups != []
    ensures Step(s, token).groups != []
    ensures Step(s.(groups := groups + s.groups), token) == Step(s, token).(groups := groups + Step(s, token).groups)
  {
    hide IsFlag, Absorbs;
    var g := s.groups;
    var m := |g| - 1;
    assert (groups + g)[..|groups + g| - 1] == groups + g[..m];
    assert groups + (g + [[token]]) == (groups + g) + [[token]];
    assert groups + (g[..m] + [g[m] + [token]]) == (groups + g[..m]) + [g[m] + [token]];
  }

  lemma {:induction false} KeptConcat(a: seq<seq<string>>, b: seq<seq<string>>)
    ensures KeptGroups(a + b) == KeptGroups(a) + KeptGroups(b)
  {
    hide HandlingOf;
    if b == [] {
      assert a + b == a;
    } else {
      var n := |b| - 1;
      KeptConcat(a, b[..n]);
      assert (a + b)[..|a + b| - 1] == a + b[..n];
      assert (KeptGroups(a) + KeptGroups(b[..n])) + [b[n]] == KeptGroups(a) + (KeptGroups(b[..n]) + [b[n]]);
    }
  }

  lemma {:induction false} ConcatConcat(a: seq<seq<string>>, b: seq<seq<string>>)
    ensures Concat(a + b) == Concat(a) + Concat(b)
  {
    if b == [] {
      assert a + b == a;
    } else {
      var n := |b| - 1;
      ConcatConcat(a, b[..n]);
      assert (a + b)[..|a + b| - 1] == a + b[..n];
      assert (Concat(a) + Concat(b[..n])) + b[n] == Concat(a) + (Concat(b[..n]) + b[n]);
    }
  }

  /** Parsing a and then b, where b starts with a flag, is parsing both at once. */
  lemma ParseHomomorphism(a: seq<string>, b: seq<string>)
    requires Parsed(a).1 == None
    requires b == [] || IsFlag(b[0])
    ensures Parsed(a + b).0 == CLI(Parsed(a).0.archiveArgs + Parsed(b).0.archiveArgs,
                                   Parsed(a).0.hasCloudOut || Parsed(b).0.hasCloudOut)
    ensures Parsed(a + b).1 == Parsed(b).1
  {
    if b == [] {
      assert a + b == a;
    } else {
      ScanAppends(a, b);
      var ga, gb := ScanOf(a).groups, ScanOf(b).groups;
      KeptConcat(ga, gb);
      ConcatConcat(KeptGroups(ga), KeptGroups(gb));
      assert forall g :: g in ga + gb <==> g in ga || g in gb;
    }
  }

  /** A group that is scanned as itself. */
  ghost predicate Stable(g: seq<string>) {
    g != [] && IsFlag(g[0]) && ScanOf(g).bad == None && ScanOf(g).groups == [g]
  }

  lemma {:induction false} GroupsStable(argv: seq<string>)
    requires ScanOf(argv).bad == None
    ensures forall g | g in ScanOf(argv).groups :: Stable(g)
    ensures argv != [] ==> ScanOf(ScanOf(argv).groups[|ScanOf(argv).groups| - 1]).phase == ScanOf(argv).phase
  {
    if argv == [] {
    } else {
      var n := |argv| - 1;
      var front, s := ScanOf(argv[..n]), ScanOf(argv);
      GroupsStable(argv[..n]);
      if IsFlag(argv[n]) {
        var g := [argv[n]];
        assert g[..0] == [];
        assert ScanOf(g) == Step(ScanOf([]), argv[n]);
        assert ScanOf(g).groups == [g];
      } else {
        PhaseOfLast(argv[..n]);
        var m := |front.groups| - 1;
        var g := front.groups[m];
        assert g in front.groups;
        var longer := g + [argv[n]];
        assert longer[..|longer| - 1] == g;
        assert ScanOf(longer) == Step(ScanOf(g), argv[n]);
        assert [g][..0] + [g + [argv[n]]] == [longer];
      }
    }
  }

  lemma OneMoreGroup(front: seq<string>, g: seq<string>)
    requires ScanOf(front).bad == None && Stable(g)
    ensures ScanOf(front + g).groups == ScanOf(front).groups + [g] && ScanOf(front + g).bad == None
  {
    ScanAppends(front, g);
  }

  lemma {:induction false} ScanOfConcat(groups: seq<seq<string>>)
    requires forall g | g in groups :: Stable(g)
    ensures ScanOf(Concat(groups)).groups == groups && ScanOf(Concat(groups)).bad == None
  {
    hide Step;
    if groups != [] {
      var n := |groups| - 1;
      assert groups[n] in groups;
      ScanOfConcat(groups[..n]);
      OneMoreGroup(Concat(groups[..n]), groups[n]);
    } else {
      assert ScanOf([]) == Scan([], NoGroup, None);
    }
  }

  lemma {:induction false} KeptAreKept(groups: seq<seq<string>>)
    ensures forall g | g in KeptGroups(groups) :: g in groups && g != [] && Keeps(g[0])
    ensures KeptGroups(KeptGroups(groups)) == KeptGroups(groups)
  {
    if groups == [] {
    } else {
      var n := |groups| - 1;
      KeptAreKept(groups[..n]);
      assert groups == groups[..n] + [groups[n]];
      if groups[n] != [] && Keeps(groups[n][0]) {
        var kept := KeptGroups(groups[..n]);
        assert (kept + [groups[n]])[..|kept|] == kept;
      }
    }
  }

  /** The kept arguments parse to themselves, without error and without cloud output. */
  lemma ParseIdempotent(argv: seq<string>)
    requires Parsed(argv).1 == None
    ensures Parsed(Parsed(argv).0.archiveArgs) == (CLI(Parsed(argv).0.archiveArgs, false), None)
  {
    var groups := ScanOf(argv).groups;
    GroupsStable(argv);
    KeptAreKept(groups);
    ScanOfConcat(KeptGroups(groups));
    forall g | g in KeptGroups(groups) ensures !CloudGroup(g) {
    }
  }
}
