/**
 * pkg/cloud/apitypes.go and pkg/plz/worker.go: from the data of a cloud test run to the k6 arguments of its
 * runners, and what the argument parser of pkg/types/k6cli.go makes of them.
 */
module CloudArgs {
  import opened Text
  import opened Sorting
  import opened KubeExpansion
  import opened Aggregation

  datatype Distribution = Distribution(loadZone: string, percent: int)

  datatype SecretsConfig = SecretsConfig(endpoint: string, responsePath: string)

  const LZ_VAR := "K6_CLOUDRUN_LOAD_ZONE"
  const DISTRIBUTION_VAR := "K6_CLOUDRUN_DISTRIBUTION"
  const TEST_RUN_VAR := "K6_CLOUDRUN_TEST_RUN_ID"
  const INSTANCE_VAR := "K6_CLOUDRUN_INSTANCE_ID"

  // Pairs of a flag and key=value.

  function RawPair(key: string, value: string): string {
    key + "=" + value
  }

  function EscapedPair(key: string, value: string): string {
    Escape(key) + "=" + Escape(value)
  }

  predicate Within(keys: seq<string>, m: map<string, string>) {
    forall k | k in keys :: k in m
  }

  function PairArgs(flag: string, keys: seq<string>, m: map<string, string>, escaped: bool): (args: seq<string>)
    requires Within(keys, m)
    ensures |args| == 2 * |keys|
  {
    if keys == [] then []
    else
      var n := |keys| - 1;
      PairArgs(flag, keys[..n], m, escaped)
      + [flag, if escaped then EscapedPair(keys[n], m[keys[n]]) else RawPair(keys[n], m[keys[n]])]
  }

  /** Empty keys and values are not passed on as tags. */
  function TagKeys(tags: map<string, string>): set<string> {
    set k | k in tags && k != "" && tags[k] != ""
  }

  function Tags(tags: map<string, string>, zone: string): map<string, string> {
    tags["load_zone" := zone]
  }

  /** The reserved variables take precedence; the instance ID is left to the runner job. */
  function Environment(env: map<string, string>, zone: string, lzLabel: string, id: string): map<string, string> {
    env[LZ_VAR := zone][DISTRIBUTION_VAR := lzLabel][TEST_RUN_VAR := id] - {INSTANCE_VAR}
  }

  ghost predicate IsZone(zones: map<string, Distribution>, lzLabel: string, zone: string) {
    lzLabel in zones && zones[lzLabel].loadZone == zone
  }

  /** LZLabel and LZName of an empty distribution. */
  const UNKNOWN_LABEL := "unknown_lz_label"
  const UNKNOWN_ZONE := "unknown_lz_name"

  /** LZName may yield this zone. */
  ghost predicate PossibleZone(zones: map<string, Distribution>, zone: string) {
    if zones == map[] then zone == UNKNOWN_ZONE else exists lzLabel :: IsZone(zones, lzLabel, zone)
  }

  lemma OnlyZone(zones: map<string, Distribution>, a: string, b: string)
    requires |zones| == 1 && a in zones && b in zones
    ensures a == b
  {
    assert |zones.Keys - {a}| == 0;
    assert b !in zones.Keys - {a};
  }

  lemma OnlyZoneName(zones: map<string, Distribution>, lzLabel: string, zone: string, possible: string)
    requires |zones| == 1 && IsZone(zones, lzLabel, zone) && PossibleZone(zones, possible)
    ensures zone == possible
  {
    var l :| IsZone(zones, l, possible);
    OnlyZone(zones, l, lzLabel);
  }

  function OptionVars(userAgent: string, blacklist: seq<string>, hostnames: seq<string>): seq<EnvVar> {
    (if userAgent != "" then [EnvVar("K6_USER_AGENT", Escape(userAgent))] else [])
    + (if blacklist != [] then [EnvVar("K6_BLACKLIST_IPS", Join(blacklist, ","))] else [])
    + (if hostnames != [] then [EnvVar("K6_BLOCK_HOSTNAMES", Join(hostnames, ","))] else [])
  }

  /** AggregationEnvVars: nothing if the encoded settings do not decode. */
  function AggregationVars(config: RuntimeConfig): seq<EnvVar> {
    match Decoded(Encode(config)) case None => [] case Some(vars) => vars
  }

  function SecretsVars(config: Option<SecretsConfig>, token: string): seq<EnvVar> {
    match config
    case None => []
    case Some(c) =>
      [EnvVar("K6_SECRET_SOURCE", "url"), EnvVar("K6_SECRET_SOURCE_URL_URL_TEMPLATE", c.endpoint),
       EnvVar("K6_SECRET_SOURCE_URL_RESPONSE_PATH", c.responsePath)]
      + if token != "" then [EnvVar("K6_SECRET_SOURCE_URL_HEADER_AUTHORIZATION", "Bearer " + token)] else []
  }

  /** The variables by which the data configures k6 itself, by name. */
  ghost predicate Configures(userAgent: string, blacklist: seq<string>, hostnames: seq<string>, config: RuntimeConfig,
                             secrets: Option<SecretsConfig>, token: string, cloudHost: string,
                             name: string, value: string)
  {
    || (name == "K6_USER_AGENT" && userAgent != "" && value == Escape(userAgent))
    || (name == "K6_BLACKLIST_IPS" && blacklist != [] && value == Join(blacklist, ","))
    || (name == "K6_BLOCK_HOSTNAMES" && hostnames != [] && value == Join(hostnames, ","))
    || (name == "K6_CLOUD_HOST" && value == cloudHost)
    || (Separable(config) && name == "K6_CLOUD_API_VERSION" && value == "2")
    || (Separable(config) && name == "K6_CLOUD_AGGREGATION_PERIOD" && value == config.aggregationPeriod)
    || (Separable(config) && name == "K6_CLOUD_AGGREGATION_WAIT_PERIOD" && value == config.aggregationWaitPeriod)
    || (Separable(config) && name == "K6_CLOUD_METRIC_PUSH_INTERVAL" && value == config.metricPushInterval)
    || (Separable(config) && name == "K6_CLOUD_METRIC_PUSH_CONCURRENCY"
        && value == Integer(config.metricPushConcurrency))
    || (secrets.Some? && name == "K6_SECRET_SOURCE" && value == "url")
    || (secrets.Some? && name == "K6_SECRET_SOURCE_URL_URL_TEMPLATE" && value == secrets.value.endpoint)
    || (secrets.Some? && name == "K6_SECRET_SOURCE_URL_RESPONSE_PATH" && value == secrets.value.responsePath)
    || (secrets.Some? && token != "" && name == "K6_SECRET_SOURCE_URL_HEADER_AUTHORIZATION"
        && value == "Bearer " + token)
  }

  lemma OptionVarsAre(userAgent: string, blacklist: seq<string>, hostnames: seq<string>, v: EnvVar)
    ensures v in OptionVars(userAgent, blacklist, hostnames)
            <==> || (userAgent != "" && v == EnvVar("K6_USER_AGENT", Escape(userAgent)))
                 || (blacklist != [] && v == EnvVar("K6_BLACKLIST_IPS", Join(blacklist, ",")))
                 || (hostnames != [] && v == EnvVar("K6_BLOCK_HOSTNAMES", Join(hostnames, ",")))
  {
    hide Escape, Join;
  }

  lemma SecretsVarsAre(secrets: Option<SecretsConfig>, token: string, v: EnvVar)
    ensures v in SecretsVars(secrets, token)
            <==> && secrets.Some?
                 && (v == EnvVar("K6_SECRET_SOURCE", "url")
                    || v == EnvVar("K6_SECRET_SOURCE_URL_URL_TEMPLATE", secrets.value.endpoint)
                    || v == EnvVar("K6_SECRET_SOURCE_URL_RESPONSE_PATH", secrets.value.responsePath)
                    || (token != "" && v == EnvVar("K6_SECRET_SOURCE_URL_HEADER_AUTHORIZATION", "Bearer " + token)))
  {
  }

  lemma AggregationVarsAre(config: RuntimeConfig, v: EnvVar)
    ensures v in AggregationVars(config)
            <==> && Separable(config)
                 && v in [EnvVar("K6_CLOUD_API_VERSION", "2"),
                          EnvVar("K6_CLOUD_AGGREGATION_PERIOD", config.aggregationPeriod),
                          EnvVar("K6_CLOUD_AGGREGATION_WAIT_PERIOD", config.aggregationWaitPeriod),
                          EnvVar("K6_CLOUD_METRIC_PUSH_INTERVAL", config.metricPushInterval),
                          EnvVar("K6_CLOUD_METRIC_PUSH_CONCURRENCY", Integer(config.metricPushConcurrency))]
  {
    hide Encode, Decoded, Values, Integer;
    DecodeOfEncode(config);
  }

  /** The variables that are appended are the ones with these names and values, and no others. */
  lemma ConfiguresExactly(userAgent: string, blacklist: seq<string>, hostnames: seq<string>, config: RuntimeConfig,
                          secrets: Option<SecretsConfig>, token: string, cloudHost: string, name: string, value: string)
    ensures EnvVar(name, value) in OptionVars(userAgent, blacklist, hostnames) + AggregationVars(config)
                                   + SecretsVars(secrets, token) + [EnvVar("K6_CLOUD_HOST", cloudHost)]
            <==> Configures(userAgent, blacklist, hostnames, config, secrets, token, cloudHost, name, value)
  {
    hide Escape, Join, OptionVars, AggregationVars, SecretsVars, Separable, Integer;
    OptionVarsAre(userAgent, blacklist, hostnames, EnvVar(name, value));
    AggregationVarsAre(config, EnvVar(name, value));
    SecretsVarsAre(secrets, token, EnvVar(name, value));
  }

  lemma AppendedVars(before: seq<EnvVar>, after: seq<EnvVar>, userAgent: string, blacklist: seq<string>,
                     hostnames: seq<string>, config: RuntimeConfig, secrets: Option<SecretsConfig>, token: string,
                     cloudHost: string)
    requires after == before + OptionVars(userAgent, blacklist, hostnames) + AggregationVars(config)
                      + SecretsVars(secrets, token) + [EnvVar("K6_CLOUD_HOST", cloudHost)]
    ensures forall name, value ::
              EnvVar(name, value) in after
              <==> || EnvVar(name, value) in before
                   || Configures(userAgent, blacklist, hostnames, config, secrets, token, cloudHost, name, value)
  {
    hide OptionVars, AggregationVars, SecretsVars, Configures;
    var added := OptionVars(userAgent, blacklist, hostnames) + AggregationVars(config)
                 + SecretsVars(secrets, token) + [EnvVar("K6_CLOUD_HOST", cloudHost)];
    assert after == before + added;
    forall name, value
      ensures EnvVar(name, value) in added
              <==> Configures(userAgent, blacklist, hostnames, config, secrets, token, cloudHost, name, value)
    {
      ConfiguresExactly(userAgent, blacklist, hostnames, config, secrets, token, cloudHost, name, value);
    }
  }

  /** The keys of a map, in whatever order they are iterated, then sorted. */
  method SortedNames(m: map<string, string>, skipEmpty: bool) returns (keys: seq<string>)
    ensures keys == SortedKeys(if skipEmpty then TagKeys(m) else m.Keys) && Within(keys, m)
  {
    ghost var wanted := if skipEmpty then TagKeys(m) else m.Keys;
    keys := [];
    var rest := m.Keys;
    while rest != {}
      invariant rest <= m.Keys
      invariant forall k :: k in keys <==> k in wanted && k !in rest
      invariant forall i, j | 0 <= i < j < |keys| :: keys[i] != keys[j]
      decreases |rest|
    {
      var k :| k in rest;
      assert k !in keys;
      if !skipEmpty || (|k| > 0 && |m[k]| > 0) {
        keys := keys + [k];
      }
      rest := rest - {k};
    }
    SortLists(keys, wanted);
    ListedOnce(SortStrings(keys), SortedKeys(wanted), wanted);
    keys := SortStrings(keys);
  }

  method EscapedArgs(flag: string, keys: seq<string>, m: map<string, string>) returns (args: seq<string>)
    requires Within(keys, m)
    ensures args == PairArgs(flag, keys, m, true)
  {
    args := [];
    for i := 0 to |keys|
      invariant Within(keys[..i], m)
      invariant args == PairArgs(flag, keys[..i], m, true)
    {
      assert keys[..i + 1][..i] == keys[..i];
      args := args + [flag, Escape(keys[i]) + "=" + Escape(m[keys[i]])];
    }
    assert keys[..|keys|] == keys;
  }

  predicate SameAt(a: map<string, string>, b: map<string, string>, k: string) {
    (k in a <==> k in b) && (k in a && k in b ==> a[k] == b[k])
  }

  /** The reserved variables hold the load zone, its label and the run ID, and all others are the user's. */
  ghost predicate Reserves(before: map<string, string>, zones: map<string, Distribution>, id: string,
                           env: map<string, string>)
  {
    && (forall lzLabel | lzLabel in zones ::
          && "K6_CLOUDRUN_LOAD_ZONE" in env && env["K6_CLOUDRUN_LOAD_ZONE"] == zones[lzLabel].loadZone
          && "K6_CLOUDRUN_DISTRIBUTION" in env && env["K6_CLOUDRUN_DISTRIBUTION"] == lzLabel)
    && "K6_CLOUDRUN_TEST_RUN_ID" in env && env["K6_CLOUDRUN_TEST_RUN_ID"] == id
    && "K6_CLOUDRUN_INSTANCE_ID" !in env
    && forall k | k !in ["K6_CLOUDRUN_LOAD_ZONE", "K6_CLOUDRUN_DISTRIBUTION", "K6_CLOUDRUN_TEST_RUN_ID",
                         "K6_CLOUDRUN_INSTANCE_ID"] :: SameAt(env, before, k)
  }

  /** The reserved tag holds the load zone, and all others are the user's. */
  ghost predicate Tagged(before: map<string, string>, zones: map<string, Distribution>, tags: map<string, string>) {
    && (forall lzLabel | lzLabel in zones :: "load_zone" in tags && tags["load_zone"] == zones[lzLabel].loadZone)
    && forall k | k != "load_zone" :: SameAt(tags, before, k)
  }

  lemma ReservedVars(before: map<string, string>, zones: map<string, Distribution>, id: string,
                     env: map<string, string>, oldTags: map<string, string>, tags: map<string, string>)
    requires |zones| == 1
    requires forall lzLabel, zone | IsZone(zones, lzLabel, zone) ::
               env == Environment(before, zone, lzLabel, id) && tags == Tags(oldTags, zone)
    ensures Reserves(before, zones, id, env) && Tagged(oldTags, zones, tags)
  {
    assert |zones.Keys| == 1;
    assert exists lzLabel :: lzLabel in zones.Keys;
    var l :| l in zones;
    assert IsZone(zones, l, zones[l].loadZone);
    forall lzLabel | lzLabel in zones ensures lzLabel == l {
      OnlyZone(zones, lzLabel, l);
    }
  }

  class TestRunData {
    const testRunId: int
    const zones: map<string, Distribution>
    const userAgent: string
    const blacklistIPs: seq<string>
    const blockedHostnames: seq<string>
    const includeSystemEnvVars: bool
    const runtimeConfig: RuntimeConfig
    const secretsConfig: Option<SecretsConfig>
    const secretsToken: string
    var tags: map<string, string>
    var environment: map<string, string>
    var tagArgs: seq<string>
    var envArgs: seq<string>
    var runnerEnvVars: seq<EnvVar>

    constructor (testRunId: int, zones: map<string, Distribution>, userAgent: string, blacklistIPs: seq<string>,
                 blockedHostnames: seq<string>, includeSystemEnvVars: bool, runtimeConfig: RuntimeConfig,
                 secretsConfig: Option<SecretsConfig>, secretsToken: string,
                 tags: map<string, string>, environment: map<string, string>)
      ensures this.testRunId == testRunId && this.zones == zones && this.tags == tags
      ensures this.environment == environment && this.includeSystemEnvVars == includeSystemEnvVars
      ensures tagArgs == [] && envArgs == [] && runnerEnvVars == []
    {
      this.testRunId, this.zones, this.userAgent, this.blacklistIPs := testRunId, zones, userAgent, blacklistIPs;
      this.blockedHostnames, this.includeSystemEnvVars := blockedHostnames, includeSystemEnvVars;
      this.runtimeConfig, this.secretsConfig, this.secretsToken := runtimeConfig, secretsConfig, secretsToken;
      this.tags, this.environment := tags, environment;
      tagArgs, envArgs, runnerEnvVars := [], [], [];
    }

    /** The load zone of whichever entry comes first in the iteration, and its label. */
    method FirstZone() returns (lzLabel: string, zone: string)
      ensures if zones == map[] then lzLabel == UNKNOWN_LABEL && zone == UNKNOWN_ZONE else IsZone(zones, lzLabel, zone)
    {
      lzLabel, zone := UNKNOWN_LABEL, UNKNOWN_ZONE;
      if zones != map[] {
        var k :| k in zones;
        lzLabel, zone := k, zones[k].loadZone;
      }
    }

    method PreprocessTags()
      modifies this`tags, this`tagArgs
      ensures exists zone :: PossibleZone(zones, zone) && tags == Tags(old(tags), zone)
      ensures tagArgs == PairArgs("--tag", SortedKeys(TagKeys(tags)), tags, true)
    {
      hide PairArgs, Lists, SortedKeys, TagKeys, Escape;
      var _, zone := FirstZone();
      assert PossibleZone(zones, zone);
      tags := tags["load_zone" := zone];
      var keys := SortedNames(tags, true);
      tagArgs := EscapedArgs("--tag", keys, tags);
    }

    method AddRunnerEnvVars(cloudHost: string)
      modifies this`runnerEnvVars
      ensures runnerEnvVars
              == old(runnerEnvVars) + OptionVars(userAgent, blacklistIPs, blockedHostnames)
                 + AggregationVars(runtimeConfig) + SecretsVars(secretsConfig, secretsToken)
                 + [EnvVar("K6_CLOUD_HOST", cloudHost)]
      ensures forall name, value ::
                EnvVar(name, value) in runnerEnvVars
                <==> || EnvVar(name, value) in old(runnerEnvVars)
                     || Configures(userAgent, blacklistIPs, blockedHostnames, runtimeConfig, secretsConfig,
                                   secretsToken, cloudHost, name, value)
    {
      hide AggregationVars, SecretsVars, Escape, Join, Configures;
      if |userAgent| > 0 {
        runnerEnvVars := runnerEnvVars + [EnvVar("K6_USER_AGENT", Escape(userAgent))];
      }
      if |blacklistIPs| > 0 {
        runnerEnvVars := runnerEnvVars + [EnvVar("K6_BLACKLIST_IPS", Join(blacklistIPs, ","))];
      }
      if |blockedHostnames| > 0 {
        runnerEnvVars := runnerEnvVars + [EnvVar("K6_BLOCK_HOSTNAMES", Join(blockedHostnames, ","))];
      }
      assert runnerEnvVars == old(runnerEnvVars) + OptionVars(userAgent, blacklistIPs, blockedHostnames);
      runnerEnvVars := runnerEnvVars + AggregationVars(runtimeConfig);
      runnerEnvVars := runnerEnvVars + SecretsVars(secretsConfig, secretsToken);
      // the list of reserved variables that the cloud may set is empty
      runnerEnvVars := runnerEnvVars + [EnvVar("K6_CLOUD_HOST", cloudHost)];
      hide OptionVars;
      AppendedVars(old(runnerEnvVars), runnerEnvVars, userAgent, blacklistIPs, blockedHostnames, runtimeConfig,
                   secretsConfig, secretsToken, cloudHost);
    }

    /** The reserved variables overwrite those of the user. */
    method OverwriteEnvironment()
      requires |zones| == 1
      modifies this`environment
      ensures forall lzLabel, zone | IsZone(zones, lzLabel, zone) ::
                environment == Environment(old(environment), zone, lzLabel, Integer(testRunId))
    {
      var lzLabel, zone := FirstZone();
      forall l, z | IsZone(zones, l, z) ensures l == lzLabel && z == zone {
        OnlyZone(zones, l, lzLabel);
      }
      environment := environment[LZ_VAR := zone];
      environment := environment[DISTRIBUTION_VAR := lzLabel];
      environment := environment[TEST_RUN_VAR := Integer(testRunId)];
      environment := environment - {INSTANCE_VAR};
    }

    /** Fails, and changes nothing, unless there is exactly one load zone. */
    method Preprocess(cloudHost: string) returns (ok: bool)
      modifies this
      ensures ok == (|zones| == 1)
      ensures !ok ==> unchanged(this)
      ensures ok ==> forall lzLabel, zone | IsZone(zones, lzLabel, zone) ::
                       && tags == Tags(old(tags), zone)
                       && environment == Environment(old(environment), zone, lzLabel, Integer(testRunId))
      ensures ok ==> tagArgs == PairArgs("--tag", SortedKeys(TagKeys(tags)), tags, true)
      ensures ok ==> envArgs == PairArgs("-e", SortedKeys(environment.Keys), environment, true)
      ensures ok ==> runnerEnvVars
                     == old(runnerEnvVars) + OptionVars(userAgent, blacklistIPs, blockedHostnames)
                        + AggregationVars(runtimeConfig) + SecretsVars(secretsConfig, secretsToken)
                        + [EnvVar("K6_CLOUD_HOST", cloudHost)]
      ensures ok ==> forall name, value ::
                       EnvVar(name, value) in runnerEnvVars
                       <==> || EnvVar(name, value) in old(runnerEnvVars)
                            || Configures(userAgent, blacklistIPs, blockedHostnames, runtimeConfig, secretsConfig,
                                          secretsToken, cloudHost, name, value)
      ensures ok ==> Reserves(old(environment), zones, Integer(testRunId), environment) && Tagged(old(tags), zones, tags)
    {
      hide *;
      if |zones| != 1 {
        return false;
      }
      PreprocessTags();
      AddRunnerEnvVars(cloudHost);
      OverwriteEnvironment();
      var keys := SortedNames(environment, false);
      envArgs := EscapedArgs("-e", keys, environment);
      ghost var zone :| PossibleZone(zones, zone) && tags == Tags(old(tags), zone);
      forall l, z | IsZone(zones, l, z) ensures z == zone {
        OnlyZoneName(zones, l, z, zone);
      }
      ReservedVars(old(environment), zones, Integer(testRunId), environment, old(tags), tags);
      ok := true;
    }
  }

  // The arguments that a PLZ worker puts together.

  const LOG_PREFIX := "--log-output" + ("=loki=https://cloudlogs.k6.io" + "/api/v1/push,label.lz=")
  const LOG_SUFFIX := ",header.Authorization=Token "
  const TOKEN_VAR := "K6_CLOUD_TOKEN"
  const TOKEN_REFERENCE := "$(" + TOKEN_VAR + ")"

  const SYSTEM_ENV := "--include-system-env-vars="

  function LogOutput(plzName: string, testRunID: string, token: string): string {
    LOG_PREFIX + (plzName + (",label.test_run_id=" + (testRunID + (LOG_SUFFIX + token))))
  }

  function WorkerArgs(log: string, tagArgs: seq<string>, envArgs: seq<string>, systemEnv: bool): seq<string> {
    ["--out", "cloud"] + tagArgs + ["--no-thresholds", log] + envArgs
    + [SYSTEM_ENV + (if systemEnv then "true" else "false")]
    + if systemEnv then [] else ["--verbose", "--summary-mode=disabled"]
  }

  /** plzk6Args */
  method PlzK6Args(plzName: string, testRunID: string, data: TestRunData) returns (args: seq<string>)
    ensures args == WorkerArgs(LogOutput(plzName, testRunID, TOKEN_REFERENCE), data.tagArgs, data.envArgs,
                               data.includeSystemEnvVars)
  {
    args := ["--out", "cloud"];
    args := args + data.tagArgs;
    args := args + ["--no-thresholds"];
    args := args + [LogOutput(plzName, testRunID, TOKEN_REFERENCE)];
    args := args + data.envArgs;
    assert args == ["--out", "cloud"] + data.tagArgs
                   + ["--no-thresholds", LogOutput(plzName, testRunID, TOKEN_REFERENCE)] + data.envArgs;
    args := args + [SYSTEM_ENV + (if data.includeSystemEnvVars then "true" else "false")];
    if !data.includeSystemEnvVars {
      args := args + ["--verbose", "--summary-mode=disabled"];
    }
  }
}
