/** Which arguments of `k6 run` reach `k6 archive`, and which ask for cloud output, word by word. */
module ArchiveArgs {
  import opened Text
  import opened K6Cli
  import CloudArgsTheorems

  /** A flag that is passed on, with its values. */
  predicate Fit(flag: string) {
    && !("--log-output" <= flag) && !("--block-hostnames" <= flag) && !("--blacklist-ip" <= flag)
    && !("--user-agent" <= flag)
    && flag !in ["-o", "--out", "-l", "--linger", "--no-usage-report", "--verbose", "-v"]
  }

  predicate Dashed(token: string) {
    token != "" && token[0] == '-'
  }

  lemma FitIsKept(flag: string)
    ensures Keeps(flag) <==> Fit(flag)
  {
  }

  lemma OutIs(flag: string)
    ensures IsOut(flag) <==> flag == "-o" || flag == "--out"
  {
  }

  lemma {:induction false} OneGroupScanned(flag: string, values: seq<string>)
    requires Dashed(flag) && (values == [""] || forall v | v in values :: v != "" && !Dashed(v))
    ensures var s := ScanOf([flag] + values);
            && s.groups == [[flag] + values] && s.bad == None
            && s.phase == (if values == [] then AfterFlag else if values == [""] then Sealed else InValues)
  {
    var argv := [flag] + values;
    hide Step;
    if values == [] {
      assert argv == [flag] && argv[..0] == [];
      NothingParsed();
      FlagTaken(ScanOf([]), flag);
      assert [] + [[flag]] == [[flag]];
    } else {
      var n := |values| - 1;
      assert values[n] in values && values[0] in values;
      assert n > 0 ==> values[..n][0] == values[0] && values[..n] != [""];
      if n > 0 {
        assert |values| != |[""]|;
        forall v | v in values[..n] ensures v != "" && !Dashed(v) {
          assert v in values;
        }
      }
      OneGroupScanned(flag, values[..n]);
      assert argv[..|argv| - 1] == [flag] + values[..n];
      assert ScanOf(argv) == Step(ScanOf([flag] + values[..n]), values[n]);
      hide ScanOf;
      var g := [flag] + values[..n];
      assert ScanOf([flag] + values[..n]) == Scan([g], if n == 0 then AfterFlag else InValues, None);
      ValueTaken([], g, if n == 0 then AfterFlag else InValues, values[n]);
      assert values == values[..n] + [values[n]];
      assert g + [values[n]] == argv;
      assert [] + [g] == [g] && [] + [g + [values[n]]] == [argv];
    }
  }

  /** A flag and its values are passed on as they are, or not at all. */
  lemma GroupKeptExactly(flag: string, values: seq<string>)
    requires Dashed(flag) && (values == [""] || forall v | v in values :: v != "" && !Dashed(v))
    ensures Parsed([flag] + values).1 == None
    ensures Parsed([flag] + values).0.archiveArgs == if Fit(flag) then [flag] + values else []
    ensures Parsed([flag] + values).0.hasCloudOut
            <==> (flag == "-o" || flag == "--out") && values != [] && values[0] == "cloud"
  {
    hide HandlingOf;
    var g := [flag] + values;
    OneGroupScanned(flag, values);
    hide ScanOf;
    FitIsKept(flag);
    OutIs(flag);
    CloudArgsTheorems.OneGroup(g);
    assert |g| > 1 <==> values != [];
    assert |g| > 1 ==> g[1] == values[0];
    hide KeptGroups, Concat, AnyCloud, Keeps, IsOut, Fit;
  }

  /** The flag that a last token belongs to. */
  function NearestFlag(argv: seq<string>): string {
    if argv == [] then ""
    else if Dashed(argv[|argv| - 1]) then argv[|argv| - 1]
    else NearestFlag(argv[..|argv| - 1])
  }

  /** The tokens whose flag is fit, in order. */
  function Fitting(argv: seq<string>): seq<string> {
    if argv == [] then []
    else Fitting(argv[..|argv| - 1]) + if Fit(NearestFlag(argv)) then [argv[|argv| - 1]] else []
  }

  /** The last group of a scan begins with the nearest flag. */
  lemma {:induction false} LastHead(argv: seq<string>)
    requires ScanOf(argv).bad == None && argv != []
    ensures var groups := ScanOf(argv).groups;
            groups != [] && groups[|groups| - 1] != [] && groups[|groups| - 1][0] == NearestFlag(argv)
  {
    if |argv| > 1 && !Dashed(argv[|argv| - 1]) {
      LastHead(argv[..|argv| - 1]);
    }
  }

  lemma TokenTaken(before: seq<seq<string>>, g: seq<string>, token: string)
    requires g != []
    ensures Concat(KeptGroups(before + [g + [token]]))
            == Concat(KeptGroups(before + [g])) + if Keeps(g[0]) then [token] else []
  {
    hide HandlingOf, KeptGroups, Concat;
    GroupTaken(before, g);
    GroupTaken(before, g + [token]);
  }

  /** Of arguments without an error, exactly the tokens whose flag is fit are passed on, in their order. */
  lemma {:induction false} ArchiveArgsExactly(argv: seq<string>)
    requires Parsed(argv).1 == None
    ensures Parsed(argv).0.archiveArgs == Fitting(argv)
  {
    hide HandlingOf, Fit, KeptGroups, Concat;
    if argv == [] {
      NothingParsed();
    } else {
      var n := |argv| - 1;
      var front := ScanOf(argv[..n]).groups;
      ArchiveArgsExactly(argv[..n]);
      FitIsKept(NearestFlag(argv));
      if Dashed(argv[n]) {
        GroupTaken(front, [argv[n]]);
      } else {
        LastHead(argv[..n]);
        var m := |front| - 1;
        assert front == front[..m] + [front[m]];
        TokenTaken(front[..m], front[m], argv[n]);
      }
    }
  }

  /** What is returned along with an error are the arguments before the offending one, parsed. */
  lemma {:induction false} ErrorKeepsBefore(argv: seq<string>)
    requires Parsed(argv).1 != None
    ensures exists i :: 0 <= i < |argv| && Parsed(argv) == (Parsed(argv[..i]).0, Some(argv[i]))
                        && Parsed(argv[..i]).1 == None
  {
    hide HandlingOf, KeptGroups, Concat, AnyCloud;
    NothingParsed();
    var n := |argv| - 1;
    if Parsed(argv[..n]).1 == None {
      assert Parsed(argv) == (Parsed(argv[..n]).0, Some(argv[n]));
    } else {
      ErrorKeepsBefore(argv[..n]);
      var i :| 0 <= i < n && Parsed(argv[..n]) == (Parsed(argv[..n][..i]).0, Some(argv[..n][i]))
               && Parsed(argv[..n][..i]).1 == None;
      assert argv[..n][..i] == argv[..i];
      assert Parsed(argv) == Parsed(argv[..n]);
    }
  }

  /** There is cloud output exactly if the word cloud directly follows -o or --out. */
  lemma CloudOutputExactly(argv: seq<string>)
    requires Parsed(argv).1 == None
    ensures Parsed(argv).0.hasCloudOut
            <==> exists i :: 0 <= i < |argv| - 1 && (argv[i] == "-o" || argv[i] == "--out") && argv[i + 1] == "cloud"
  {
    hide HandlingOf, Parsed;
    CloudOutExactly(argv);
    forall i | 0 <= i < |argv| - 1 ensures IsOut(argv[i]) <==> argv[i] == "-o" || argv[i] == "--out" {
      OutIs(argv[i]);
    }
  }
}
