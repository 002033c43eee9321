/**
 * escapeKubeExpansion of pkg/cloud/apitypes.go against the expansion it guards from: the kubelet's replacement
 * of variable references in the command, the arguments and the environment of a container (the fields
 * `command`, `args` and `env` of Container v1 in the Kubernetes API).
 */
module KubeExpansion {

  /** strings.ReplaceAll(value, "$", "$$") */
  function Escape(value: string): string {
    if value == "" then ""
    else (if value[0] == '$' then "$$" else [value[0]]) + Escape(value[1..])
  }

  /** The index of the first c in s from i on, |s| if there is none. */
  function Find(s: string, c: char, i: nat): (j: nat)
    requires i <= |s|
    ensures i <= j <= |s| && (j < |s| ==> s[j] == c) && c !in s[i..j]
    decreases |s| - i
  {
    if i == |s| || s[i] == c then i
    else
      var j := Find(s, c, i + 1);
      assert s[i..j] == [s[i]] + s[i + 1..j];
      j
  }

  /**
   * $(NAME) becomes the value of the variable, or stays as it is if there is none; $$ becomes $; any other $
   * stays, along with the character after it.
   */
  function Expand(s: string, env: map<string, string>): string
    decreases |s|
  {
    if |s| < 2 then s
    else if s[0] != '$' then [s[0]] + Expand(s[1..], env)
    else if s[1] == '$' then "$" + Expand(s[2..], env)
    else if s[1] == '(' && Find(s, ')', 2) < |s| then
      var end := Find(s, ')', 2);
      var name := s[2..end];
      (if name in env then env[name] else "$(" + name + ")") + Expand(s[end + 1..], env)
    else s[..2] + Expand(s[2..], env)
  }

  lemma {:induction false} EscapeConcat(a: string, b: string)
    ensures Escape(a + b) == Escape(a) + Escape(b)
  {
    if a == "" {
      assert a + b == b;
    } else {
      assert (a + b)[1..] == a[1..] + b;
      EscapeConcat(a[1..], b);
    }
  }

  lemma ExpandCharacter(c: char, rest: string, env: map<string, string>)
    requires c != '$'
    ensures Expand([c] + rest, env) == [c] + Expand(rest, env)
  {
    assert ([c] + rest)[1..] == rest;
  }

  lemma ExpandDollars(rest: string, env: map<string, string>)
    ensures Expand("$$" + rest, env) == "$" + Expand(rest, env)
  {
    assert ("$$" + rest)[2..] == rest;
  }

  lemma ExpandFirst(c: char, rest: string, env: map<string, string>)
    ensures Expand((if c == '$' then "$$" else [c]) + rest, env) == [c] + Expand(rest, env)
  {
    hide Expand;
    if c == '$' {
      ExpandDollars(rest, env);
    } else {
      ExpandCharacter(c, rest, env);
    }
  }

  /** An escaped text comes out as it was, whatever stands behind it and whatever the variables are. */
  lemma {:induction false} ExpandSkipsEscaped(value: string, rest: string, env: map<string, string>)
    ensures Expand(Escape(value) + rest, env) == value + Expand(rest, env)
  {
    hide Expand;
    if value == "" {
      assert Escape(value) + rest == rest;
      assert value + Expand(rest, env) == Expand(rest, env);
    } else {
      ExpandSkipsEscaped(value[1..], rest, env);
      ExpandFirst(value[0], Escape(value[1..]) + rest, env);
      var first := if value[0] == '$' then "$$" else [value[0]];
      assert Escape(value) == first + Escape(value[1..]);
      hide Escape;
      assert (first + Escape(value[1..])) + rest == first + (Escape(value[1..]) + rest);
      assert [value[0]] + (value[1..] + Expand(rest, env)) == value + Expand(rest, env);
    }
  }

  /** Expansion undoes the escape, for every text and every set of variables. */
  lemma ExpandOfEscape(value: string, env: map<string, string>)
    ensures Expand(Escape(value), env) == value
  {
    ExpandSkipsEscaped(value, "", env);
    assert Escape(value) + "" == Escape(value);
    assert value + Expand("", env) == value;
  }

  // Texts that are not escaped.

  lemma {:induction false} ExpandSkipsPlain(plain: string, rest: string, env: map<string, string>)
    requires '$' !in plain
    ensures Expand(plain + rest, env) == plain + Expand(rest, env)
  {
    hide Expand;
    if plain == "" {
      assert plain + rest == rest;
      assert plain + Expand(rest, env) == Expand(rest, env);
    } else {
      ExpandSkipsPlain(plain[1..], rest, env);
      ExpandCharacter(plain[0], plain[1..] + rest, env);
      assert plain + rest == [plain[0]] + (plain[1..] + rest);
      assert [plain[0]] + (plain[1..] + Expand(rest, env)) == plain + Expand(rest, env);
    }
  }

  lemma PlainStays(plain: string, env: map<string, string>)
    requires '$' !in plain
    ensures Expand(plain, env) == plain
  {
    ExpandSkipsPlain(plain, "", env);
    assert plain + "" == plain;
    assert plain + Expand("", env) == plain;
  }

  /** No $$ and no $( that is closed by a later ). */
  ghost predicate Inert(s: string) {
    forall i | 0 <= i < |s| - 1 && s[i] == '$' :: s[i + 1] != '$' && !(s[i + 1] == '(' && ')' in s[i + 2..])
  }

  lemma InertTail(s: string, n: nat)
    requires n <= |s| && Inert(s)
    ensures Inert(s[n..])
  {
    var t := s[n..];
    forall i | 0 <= i < |t| - 1 && t[i] == '$' ensures t[i + 1] != '$' && !(t[i + 1] == '(' && ')' in t[i + 2..]) {
      assert t[i + 2..] == s[n + i + 2..];
      assert s[n + i] == '$';
    }
  }

  lemma {:induction false} InertStays(s: string, env: map<string, string>)
    requires Inert(s)
    ensures Expand(s, env) == s
    decreases |s|
  {
    if |s| >= 2 {
      InertTail(s, 1);
      InertTail(s, 2);
      if s[0] != '$' {
        InertStays(s[1..], env);
      } else {
        var end := Find(s, ')', 2);
        assert end < |s| ==> s[2..][end - 2] == ')';
        InertStays(s[2..], env);
      }
    }
  }

  lemma {:induction false} NeverLonger(s: string)
    ensures |Expand(s, map[])| <= |s|
    decreases |s|
  {
    if |s| >= 2 {
      var end := Find(s, ')', 2);
      NeverLonger(s[1..]);
      NeverLonger(s[2..]);
      if end < |s| {
        NeverLonger(s[end + 1..]);
      }
    }
  }

  lemma InertFromTail(s: string, n: nat)
    requires 1 <= n <= 2 <= |s| && Inert(s[n..])
    requires s[0] == '$' ==> n == 2 && s[1] != '$' && !(s[1] == '(' && ')' in s[2..])
    requires n == 1 ==> s[0] != '$'
    requires n == 2 ==> s[1] != '$'
    ensures Inert(s)
  {
    var t := s[n..];
    forall i | 0 <= i < |s| - 1 && s[i] == '$' ensures s[i + 1] != '$' && !(s[i + 1] == '(' && ')' in s[i + 2..]) {
      if i >= n {
        assert t[i - n] == '$' && t[i - n + 2..] == s[i + 2..];
      }
    }
  }

  /** Some variables make a difference to a text that is not inert. */
  lemma {:induction false} ActiveChanges(s: string) returns (env: map<string, string>)
    requires !Inert(s)
    ensures Expand(s, env) != s
    decreases |s|
  {
    if s[0] != '$' {
      if Inert(s[1..]) {
        InertFromTail(s, 1);
      }
      env := ActiveChanges(s[1..]);
      assert Expand(s, env)[1..] == Expand(s[1..], env);
    } else if s[1] == '$' {
      env := map[];
      NeverLonger(s[2..]);
    } else {
      var end := Find(s, ')', 2);
      if s[1] == '(' && end < |s| {
        env := map[s[2..end] := s + s];
      } else {
        assert s[1] == '(' ==> ')' !in s[2..];
        if Inert(s[2..]) {
          InertFromTail(s, 2);
        }
        env := ActiveChanges(s[2..]);
        assert Expand(s, env)[2..] == Expand(s[2..], env);
      }
    }
  }

  /** A text that is not escaped survives every set of variables exactly if it holds no $$ and no closed $(. */
  lemma SurvivesExactly(s: string)
    ensures (forall env :: Expand(s, env) == s) <==> Inert(s)
  {
    if Inert(s) {
      forall env ensures Expand(s, env) == s {
        InertStays(s, env);
      }
    } else {
      var env := ActiveChanges(s);
    }
  }
}
