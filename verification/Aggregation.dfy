/** pkg/cloud/aggregation.go: the aggregation settings of a cloud output run, stored as one text in its status. */
module Aggregation {
  import opened Text

  datatype EnvVar = EnvVar(name: string, value: string)

  /** The part of the cloud's runtime configuration that is kept; durations are in their printed form. */
  datatype RuntimeConfig = RuntimeConfig(
    aggregationPeriod: string, aggregationWaitPeriod: string, metricPushInterval: string, metricPushConcurrency: int)

  const VAR_NAMES := [
    "K6_CLOUD_API_VERSION",
    "K6_CLOUD_AGGREGATION_PERIOD",
    "K6_CLOUD_AGGREGATION_WAIT_PERIOD",
    "K6_CLOUD_METRIC_PUSH_INTERVAL",
    "K6_CLOUD_METRIC_PUSH_CONCURRENCY"]

  function Values(config: RuntimeConfig): (values: seq<string>)
    ensures |values| == |VAR_NAMES|
  {
    ["2", config.aggregationPeriod, config.aggregationWaitPeriod, config.metricPushInterval,
     Integer(config.metricPushConcurrency)]
  }

  function Encode(config: RuntimeConfig): (encoded: string)
    ensures encoded != ""
  {
    "2" + "|" + config.aggregationPeriod + "|" + config.aggregationWaitPeriod + "|"
    + config.metricPushInterval + "|" + Integer(config.metricPushConcurrency)
  }

  /** What decoding a stored text yields; None when the number of values is wrong. */
  function Decoded(encoded: string): Option<seq<EnvVar>> {
    var values := Split(encoded, '|');
    if |values| != |VAR_NAMES| then None
    else Some(seq(|values|, i requires 0 <= i < |values| => EnvVar(VAR_NAMES[i], values[i])))
  }

  method Decode(encoded: string) returns (vars: Option<seq<EnvVar>>)
    ensures vars == Decoded(encoded)
  {
    var values := Split(encoded, '|');
    if |values| != |VAR_NAMES| {
      return None;
    }
    var filled := [];
    for i := 0 to |values|
      invariant |filled| == i
      invariant forall k | 0 <= k < i :: filled[k] == EnvVar(VAR_NAMES[k], values[k])
    {
      filled := filled + [EnvVar(VAR_NAMES[i], values[i])];
    }
    assert filled == Decoded(encoded).value;
    return Some(filled);
  }

  predicate Separable(config: RuntimeConfig) {
    '|' !in config.aggregationPeriod && '|' !in config.aggregationWaitPeriod && '|' !in config.metricPushInterval
  }

  lemma EncodeJoins(config: RuntimeConfig)
    ensures Encode(config) == Join(Values(config), "|")
  {
    var v := Values(config);
    var three := v[3] + "|" + v[4];
    var two := v[2] + "|" + three;
    var one := v[1] + "|" + two;
    assert Join(v[3..], "|") == three by { assert v[3..][1..] == [v[4]]; }
    assert Join(v[2..], "|") == two by { assert v[2..][1..] == v[3..]; }
    assert Join(v[1..], "|") == one by { assert v[1..][1..] == v[2..]; }
    assert Encode(config) == v[0] + "|" + one;
  }

  function Count(s: string, c: char): nat {
    if s == "" then 0 else (if s[0] == c then 1 else 0) + Count(s[1..], c)
  }

  lemma {:induction false} CountConcat(a: string, b: string, c: char)
    ensures Count(a + b, c) == Count(a, c) + Count(b, c)
  {
    if a == "" {
      assert a + b == b;
    } else {
      assert (a + b)[1..] == a[1..] + b;
      CountConcat(a[1..], b, c);
    }
  }

  lemma {:induction false} CountZero(s: string, c: char)
    ensures Count(s, c) == 0 <==> c !in s
  {
    if s == "" {
    } else {
      CountZero(s[1..], c);
      assert c in s <==> s[0] == c || c in s[1..];
    }
  }

  /** Splitting yields one part more than there are separators. */
  lemma {:induction false} SplitCounts(s: string, c: char)
    ensures |Split(s, c)| == Count(s, c) + 1
  {
    if s == "" {
    } else {
      SplitCounts(s[1..], c);
    }
  }

  /**
   * The stored text decodes exactly when no duration text holds the separator, and then to the five
   * variables with the values that were encoded.
   */
  lemma DecodeOfEncode(config: RuntimeConfig)
    ensures Decoded(Encode(config)).Some? <==> Separable(config)
    ensures Separable(config) ==>
              Decoded(Encode(config)).value
              == seq(|VAR_NAMES|, i requires 0 <= i < |VAR_NAMES| => EnvVar(VAR_NAMES[i], Values(config)[i]))
    ensures Separable(config) ==>
              Decoded(Encode(config)).value
              == [EnvVar("K6_CLOUD_API_VERSION", "2"),
                  EnvVar("K6_CLOUD_AGGREGATION_PERIOD", config.aggregationPeriod),
                  EnvVar("K6_CLOUD_AGGREGATION_WAIT_PERIOD", config.aggregationWaitPeriod),
                  EnvVar("K6_CLOUD_METRIC_PUSH_INTERVAL", config.metricPushInterval),
                  EnvVar("K6_CLOUD_METRIC_PUSH_CONCURRENCY", Integer(config.metricPushConcurrency))]
  {
    var v := Values(config);
    EncodedSeparators(config);
    SplitCounts(Encode(config), '|');
    if Separable(config) {
      EncodeJoins(config);
      SplitOfJoin(v, '|');
    }
  }

  lemma EncodedSeparators(config: RuntimeConfig)
    ensures Count(Encode(config), '|') == 4 <==> Separable(config)
    ensures Count(Encode(config), '|') >= 4
  {
    var v := Values(config);
    var a := "2" + "|" + v[1];
    var b := a + "|" + v[2];
    var c := b + "|" + v[3];
    CountConcat("2" + "|", v[1], '|');
    assert Count("2" + "|", '|') == 1 by {
      CountConcat("2", "|", '|');
      CountZero("2", '|');
      assert Count("|", '|') == 1 + Count("|"[1..], '|');
    }
    CountSeparated(a, v[2]);
    CountSeparated(b, v[3]);
    CountSeparated(c, v[4]);
    CountZero(v[1], '|');
    CountZero(v[2], '|');
    CountZero(v[3], '|');
    CountZero(v[4], '|');
  }

  lemma CountSeparated(a: string, b: string)
    ensures Count(a + "|" + b, '|') == Count(a, '|') + 1 + Count(b, '|')
  {
    CountConcat(a + "|", b, '|');
    CountConcat(a, "|", '|');
    assert Count("|", '|') == 1 + Count("|"[1..], '|');
  }
}
