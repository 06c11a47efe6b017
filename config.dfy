/** config/config.go: the server configuration, read once from environment variables,
    and the checks it must pass before the server starts. */
module Config {
  import opened Wrappers
  import opened Strings
  import opened Strconv

  // Environment variable names and their defaults.
  const MaxBrowserInstancesKey := "MAX_BROWSER_INSTANCES"
  const MaxBrowserInstancesDefault := 10
  const DefaultChromeProfileKey := "DEFAULT_CHROME_PROFILE"
  const MinBrowserInstancesKey := "MIN_BROWSER_INSTANCES"
  const MinBrowserInstancesDefault := 0
  const EnableAutoAssignDebugPortKey := "ENABLE_AUTO_ASSIGN_DEBUG_PORT"
  const EnableAutoAssignDebugPortDefault := true
  const EnableBrowserReuseKey := "ENABLE_BROWSER_REUSE"
  const EnableBrowserReuseDefault := false
  const ChromeDebugPortsKey := "CHROME_DEBUG_PORTS"
  const ChromeHeadlessKey := "CHROME_HEADLESS"
  const ChromeHeadlessDefault := true
  const ChromeEnableCustomProfilesKey := "CHROME_ENABLE_CUSTOM_PROFILES"
  const ChromeEnableCustomProfilesDefault := false
  const ChromeEnableBrowserAutoShutdownKey := "CHROME_ENABLE_BROWSER_AUTO_SHUTDOWN"
  const ChromeEnableBrowserAutoShutdownDefault := true
  const ChromeBrowserAutoShutdownTimeoutKey := "CHROME_BROWSER_AUTO_SHUTDOWN_TIMEOUT_IN_SECS"
  const ChromeBrowserAutoShutdownTimeoutDefault := 30
  const ChromeBrowserAutoIdleTimeoutKey := "CHROME_BROWSER_AUTO_IDLE_TIMEOUT_IN_SECS"
  const ChromeBrowserAutoIdleTimeoutDefault := 30
  const LogLevelKey := "LOG_LEVEL"
  const LogFilePathKey := "LOG_OUTPUT"
  const ServerPortKey := "SERVER_PORT"
  const ServerPortDefault := 3000
  const ServerAccessTokenKey := "SERVER_ACCESS_TOKEN"
  const ServerAccessTokenValidationEnabledKey := "SERVER_ACCESS_TOKEN_VALIDATION_ENABLED"
  const ServerAccessTokenValidationEnabledDefault := false

  /** time.Second, in the nanoseconds a time.Duration counts. */
  const Second: int := 1_000_000_000

  /** zerolog's levels, least severe first. */
  datatype Level = Trace | Debug | Info | Warn | Error | Fatal | Panic

  /** The options a browser is started with; `hash` identifies them (hashstructure's output,
      which the model treats as an opaque string). */
  datatype ChromeConfigOptions = ChromeConfigOptions(profile: string, hash: string)

  datatype ChromeConfig = ChromeConfig(
    enableBrowserReuse: bool,
    browserAutoSetIdleTimeout: int,   // nanoseconds
    headless: bool,
    enableCustomChromeProfiles: bool,
    enableBrowserAutoShutdown: bool,
    browserAutoShutdownTimeout: int,  // nanoseconds
    defaultOptions: ChromeConfigOptions)

  datatype ChromePoolConfig = ChromePoolConfig(
    maxBrowserInstances: int,
    minBrowserInstances: int,
    enableAutoAssignDebugPort: bool,
    debugPorts: seq<int>)

  datatype LoggerConfig = LoggerConfig(logLevel: Level, logFilePath: string)

  datatype ServerConfig = ServerConfig(port: int, accessToken: string, accessTokenValidationEnabled: bool)

  datatype ProxyQueueConfig = ProxyQueueConfig(throughputScaleUpThreshold: real)

  datatype Config = Config(
    chromePool: ChromePoolConfig,
    chrome: ChromeConfig,
    logger: LoggerConfig,
    server: ServerConfig,
    proxyQueue: ProxyQueueConfig)

  /** The process environment; os.Getenv yields "" for an unset variable. */
  type Env = map<string, string>

  function Getenv(env: Env, key: string): string {
    if key in env then env[key] else ""
  }

  /** getEnvValByKey: the value, and whether it counts as present (an empty value does not). */
  function EnvValByKey(env: Env, key: string): (r: (string, bool))
    ensures r.1 <==> key in env && env[key] != ""
    ensures r.1 ==> r.0 == env[key]
  {
    var ev := Getenv(env, key);
    (ev, |ev| > 0)
  }

  /** getBoolFromEnv */
  function BoolFromEnv(env: Env, key: string, defaultVal: bool): (r: bool)
    ensures !EnvValByKey(env, key).1 ==> r == defaultVal
    ensures EnvValByKey(env, key).1 ==>
      r == (if ParseBool(env[key]).Some? then ParseBool(env[key]).value else defaultVal)
  {
    var (ev, exists_) := EnvValByKey(env, key);
    if !exists_ then defaultVal
    else match ParseBool(ev)
      case None => defaultVal
      case Some(b) => b
  }

  /** getIntFromEnv */
  function IntFromEnv(env: Env, key: string, defaultVal: int): (r: int)
    ensures !EnvValByKey(env, key).1 ==> r == defaultVal
    ensures EnvValByKey(env, key).1 && Atoi(env[key]).None? ==> r == defaultVal
    ensures EnvValByKey(env, key).1 && Atoi(env[key]).Some? ==> r == Atoi(env[key]).value
  {
    var (ev, exists_) := EnvValByKey(env, key);
    if !exists_ then defaultVal
    else match Atoi(ev)
      case None => defaultVal
      case Some(n) => n
  }

  /** getStringFromEnv */
  function StringFromEnv(env: Env, key: string, defaultVal: string): (r: string)
    ensures r == if key in env && env[key] != "" then env[key] else defaultVal
  {
    var (ev, exists_) := EnvValByKey(env, key);
    if exists_ then ev else defaultVal
  }

  /** getLogLevelFromEnv: only the exact text "debug" selects a level other than the default. */
  function LogLevelFromEnv(env: Env, key: string, defaultVal: Level): (r: Level)
    ensures r == (if Getenv(env, key) == "debug" then Debug else defaultVal)
  {
    var (ev, exists_) := EnvValByKey(env, key);
    if !exists_ then defaultVal
    else if ev == "debug" then Debug
    else defaultVal
  }

  /** Two's-complement wrap-around of a 64-bit signed multiplication result. */
  function Wrap64(x: int): (r: int)
    ensures MinInt64 <= r <= MaxInt64
    ensures (r - x) % 0x1_0000_0000_0000_0000 == 0
    ensures MinInt64 <= x <= MaxInt64 ==> r == x
  {
    (x - MinInt64) % 0x1_0000_0000_0000_0000 + MinInt64
  }

  /** getSecTimeDurationFromEnv: whole seconds times time.Second, as an int64 Duration (so a
      value beyond about 292 years wraps around). */
  function SecTimeDurationFromEnv(env: Env, key: string, defaultVal: int): (r: int)
    ensures MinInt64 <= r <= MaxInt64
    ensures MinInt64 <= IntFromEnv(env, key, defaultVal) * Second <= MaxInt64 ==>
      r == IntFromEnv(env, key, defaultVal) * Second
  {
    Wrap64(IntFromEnv(env, key, defaultVal) * Second)
  }

  /** The pieces of a comma-separated list, each parsed with Atoi; None as soon as one fails. */
  function AtoiAll(pieces: seq<string>): (r: Option<seq<int>>)
    ensures r.Some? <==> forall i :: 0 <= i < |pieces| ==> Atoi(pieces[i]).Some?
    ensures r.Some? ==> |r.value| == |pieces|
    ensures r.Some? ==> forall i :: 0 <= i < |pieces| ==> r.value[i] == Atoi(pieces[i]).value
  {
    if |pieces| == 0 then Some([])
    else match Atoi(pieces[0])
      case None => None
      case Some(n) =>
        var rest := AtoiAll(pieces[1..]);
        if rest.None? then
          assert !Atoi(pieces[1..][0]).Some? || exists i :: 0 <= i < |pieces| - 1 && !Atoi(pieces[1..][i]).Some?;
          None
        else Some([n] + rest.value)
  }

  /** getIntArrayFromEnv, stated on the value: the whole list parsed, or the default. */
  function IntArrayFromEnvValue(env: Env, key: string, defaultVal: seq<int>): seq<int> {
    var (ev, exists_) := EnvValByKey(env, key);
    if !exists_ then defaultVal
    else match AtoiAll(Split(ev, ','))
      case None => defaultVal
      case Some(xs) => xs
  }

  /** getIntArrayFromEnv: split the value on "," and parse each piece, falling back to the
      default (never to a partial list) when a piece is not an integer. */
  method IntArrayFromEnv(env: Env, key: string, defaultVal: seq<int>) returns (evis: seq<int>)
    ensures evis == IntArrayFromEnvValue(env, key, defaultVal)
    ensures !EnvValByKey(env, key).1 ==> evis == defaultVal
    ensures EnvValByKey(env, key).1 ==>
      var evs := Split(env[key], ',');
      if forall i :: 0 <= i < |evs| ==> Atoi(evs[i]).Some?
      then |evis| == |evs| && forall i :: 0 <= i < |evs| ==> evis[i] == Atoi(evs[i]).value
      else evis == defaultVal
  {
    var ev, exists_ := Getenv(env, key), |Getenv(env, key)| > 0;
    if !exists_ {
      return defaultVal;
    }
    var evs := Split(ev, ',');
    evis := [];
    var k := 0;
    while k < |evs|
      invariant 0 <= k <= |evs|
      invariant |evis| == k
      invariant forall i :: 0 <= i < k ==> Atoi(evs[i]).Some? && evis[i] == Atoi(evs[i]).value
    {
      var evi := Atoi(evs[k]);
      if evi.None? {
        return defaultVal;
      }
      evis := evis + [evi.value];
      k := k + 1;
    }
  }

  function ItoaAll(xs: seq<int>): (r: seq<string>)
    ensures |r| == |xs| && forall i :: 0 <= i < |xs| ==> r[i] == Itoa(xs[i])
  {
    if |xs| == 0 then [] else [Itoa(xs[0])] + ItoaAll(xs[1..])
  }

  /** A port list written the way the test utilities write it (the numbers joined with ",")
      is read back as exactly that list. */
  lemma {:induction false} IntArrayRoundTrip(env: Env, key: string, xs: seq<int>, defaultVal: seq<int>)
    requires |xs| >= 1
    requires forall i :: 0 <= i < |xs| ==> MinInt64 <= xs[i] <= MaxInt64
    ensures IntArrayFromEnvValue(env[key := Join(ItoaAll(xs), ",")], key, defaultVal) == xs
  {
    var pieces := ItoaAll(xs);
    forall i | 0 <= i < |pieces| ensures ',' !in pieces[i] {
      ItoaCharacters(xs[i]);
    }
    SplitJoin(pieces, ',');
    JoinNonEmpty(pieces, ",");
    forall i | 0 <= i < |xs| ensures Atoi(pieces[i]) == Some(xs[i]) {
      AtoiItoa(xs[i]);
    }
    var r := AtoiAll(pieces).value;
    assert r == xs;
  }

  lemma {:induction false} JoinNonEmpty(parts: seq<string>, sep: string)
    requires |parts| >= 1 && |parts[0]| >= 1
    ensures |Join(parts, sep)| >= 1
  {
  }

  /** The validation rules, in the order Validate checks them. */
  datatype Rule =
    | DebugPortsRequired   // auto-assign disabled and no debug ports
    | DebugPortsTooFew     // auto-assign disabled and fewer debug ports than the maximum
    | MinInstancesNegative
    | MaxInstancesNotPositive
    | AccessTokenMissing
    | ThresholdNotPositive

  function RuleRank(r: Rule): nat {
    match r
    case DebugPortsRequired => 0
    case DebugPortsTooFew => 1
    case MinInstancesNegative => 2
    case MaxInstancesNotPositive => 3
    case AccessTokenMissing => 4
    case ThresholdNotPositive => 5
  }

  /** The message Validate reports for a violated rule. */
  function Message(r: Rule): string {
    match r
    case DebugPortsRequired => "if ENABLE_AUTO_ASSIGN_DEBUG_PORT is disabled, CHROME_DEBUG_PORTS is required"
    case DebugPortsTooFew => "if ENABLE_AUTO_ASSIGN_DEBUG_PORT is disabled, CHROME_DEBUG_PORTS must contain MAX_BROWSER_INSTANCES number of ports"
    case MinInstancesNegative => "MIN_BROWSER_INSTANCES must be greater than 0 if set"
    case MaxInstancesNotPositive => "MAX_BROWSER_INSTANCES must be greater than or equal to 1 if set"
    case AccessTokenMissing => "SERVER_ACCESS_TOKEN is required if SERVER_ACCESS_TOKEN_VALIDATION_ENABLED is enabled"
    case ThresholdNotPositive => "THROUGHPUT_SCALE_UP_THRESHOLD must be greater than 0.0"
  }

  function Messages(rs: seq<Rule>): (ms: seq<string>)
    ensures |ms| == |rs| && forall i :: 0 <= i < |rs| ==> ms[i] == Message(rs[i])
  {
    seq(|rs|, i requires 0 <= i < |rs| => Message(rs[i]))
  }

  const ValidationPrefix := "environment config failed validation with the following errors: \n"

  predicate InRuleOrder(v: seq<Rule>) {
    forall i, j :: 0 <= i < j < |v| ==> RuleRank(v[i]) < RuleRank(v[j])
  }

  predicate RanksWithin(v: seq<Rule>, lo: nat, hi: nat) {
    forall i :: 0 <= i < |v| ==> lo <= RuleRank(v[i]) < hi
  }

  lemma InRuleOrderConcat(a: seq<Rule>, b: seq<Rule>, lo: nat, mid: nat, hi: nat)
    requires lo <= mid <= hi && InRuleOrder(a) && InRuleOrder(b) && RanksWithin(a, lo, mid) && RanksWithin(b, mid, hi)
    ensures InRuleOrder(a + b) && RanksWithin(a + b, lo, hi)
  {
    forall i, j | 0 <= i < j < |a + b| ensures RuleRank((a + b)[i]) < RuleRank((a + b)[j]) {
      if j < |a| {
      } else if i >= |a| {
        assert (a + b)[i] == b[i - |a|] && (a + b)[j] == b[j - |a|];
      } else {
        assert (a + b)[i] == a[i] && (a + b)[j] == b[j - |a|];
      }
    }
    forall i | 0 <= i < |a + b| ensures lo <= RuleRank((a + b)[i]) < hi {
      if i < |a| {
        assert (a + b)[i] == a[i];
      } else {
        assert (a + b)[i] == b[i - |a|];
      }
    }
  }

  lemma ConcatMembership(p: seq<Rule>, n: seq<Rule>, t: seq<Rule>, h: seq<Rule>)
    ensures forall r :: r in p + n + t + h <==> r in p || r in n || r in t || r in h
  {
  }

  function PortRules(pool: ChromePoolConfig): (v: seq<Rule>)
    ensures |v| <= 1
    ensures DebugPortsRequired in v <==> !pool.enableAutoAssignDebugPort && |pool.debugPorts| == 0
    ensures DebugPortsTooFew in v <==> !pool.enableAutoAssignDebugPort && 0 < |pool.debugPorts| < pool.maxBrowserInstances
  {
    if pool.enableAutoAssignDebugPort then []
    else if |pool.debugPorts| == 0 then [DebugPortsRequired]
    else if |pool.debugPorts| < pool.maxBrowserInstances then [DebugPortsTooFew]
    else []
  }

  function CountRules(pool: ChromePoolConfig): (v: seq<Rule>)
    ensures |v| <= 1
    ensures MinInstancesNegative in v <==> pool.minBrowserInstances < 0
    ensures MaxInstancesNotPositive in v <==> pool.minBrowserInstances >= 0 && pool.maxBrowserInstances <= 0
  {
    if pool.minBrowserInstances < 0 then [MinInstancesNegative]
    else if pool.maxBrowserInstances <= 0 then [MaxInstancesNotPositive]
    else []
  }

  function TokenRules(server: ServerConfig): (v: seq<Rule>)
    ensures |v| <= 1
    ensures AccessTokenMissing in v <==> server.accessTokenValidationEnabled && server.accessToken == ""
  {
    if server.accessTokenValidationEnabled && |server.accessToken| == 0 then [AccessTokenMissing] else []
  }

  function ThresholdRules(pq: ProxyQueueConfig): (v: seq<Rule>)
    ensures |v| <= 1
    ensures ThresholdNotPositive in v <==> pq.throughputScaleUpThreshold <= 0.0
  {
    if pq.throughputScaleUpThreshold <= 0.0 then [ThresholdNotPositive] else []
  }

  /** The rules that `c` violates, in rule order. */
  function Violations(c: Config): seq<Rule> {
    PortRules(c.chromePool) + CountRules(c.chromePool) + TokenRules(c.server) + ThresholdRules(c.proxyQueue)
  }

  /** The violated rules come in the order Validate checks them. */
  lemma ViolationsInOrder(c: Config)
    ensures InRuleOrder(Violations(c))
  {
    var p, n, t, h := PortRules(c.chromePool), CountRules(c.chromePool), TokenRules(c.server), ThresholdRules(c.proxyQueue);
    assert RanksWithin(p, 0, 2) && RanksWithin(n, 2, 4) && RanksWithin(t, 4, 5) && RanksWithin(h, 5, 6);
    InRuleOrderConcat(p, n, 0, 2, 4);
    InRuleOrderConcat(p + n, t, 0, 4, 5);
    InRuleOrderConcat(p + n + t, h, 0, 5, 6);
  }

  /** Each rule fires exactly when its condition on the configuration holds. */
  lemma ViolationsFire(c: Config)
    ensures DebugPortsRequired in Violations(c) <==>
      !c.chromePool.enableAutoAssignDebugPort && |c.chromePool.debugPorts| == 0
    ensures DebugPortsTooFew in Violations(c) <==>
      !c.chromePool.enableAutoAssignDebugPort && 0 < |c.chromePool.debugPorts| < c.chromePool.maxBrowserInstances
    ensures MinInstancesNegative in Violations(c) <==> c.chromePool.minBrowserInstances < 0
    ensures MaxInstancesNotPositive in Violations(c) <==>
      c.chromePool.minBrowserInstances >= 0 && c.chromePool.maxBrowserInstances <= 0
    ensures AccessTokenMissing in Violations(c) <==> c.server.accessTokenValidationEnabled && c.server.accessToken == ""
    ensures ThresholdNotPositive in Violations(c) <==> c.proxyQueue.throughputScaleUpThreshold <= 0.0
  {
    var p, n, t, h := PortRules(c.chromePool), CountRules(c.chromePool), TokenRules(c.server), ThresholdRules(c.proxyQueue);
    ConcatMembership(p, n, t, h);
    var v := Violations(c);
    assert v == p + n + t + h;
    assert DebugPortsRequired in v <==> DebugPortsRequired in p;
    assert DebugPortsTooFew in v <==> DebugPortsTooFew in p;
    assert MinInstancesNegative in v <==> MinInstancesNegative in n;
    assert MaxInstancesNotPositive in v <==> MaxInstancesNotPositive in n;
    assert AccessTokenMissing in v <==> AccessTokenMissing in t;
    assert ThresholdNotPositive in v <==> ThresholdNotPositive in h;
  }

  /** The checks of Config.Validate, in order: each violated rule is appended, standing for the
      error message Validate appends for it. */
  method FiredRules(c: Config) returns (fired: seq<Rule>)
    ensures fired == Violations(c)
  {
    fired := [];

    if !c.chromePool.enableAutoAssignDebugPort {
      if |c.chromePool.debugPorts| == 0 {
        fired := fired + [DebugPortsRequired];
      } else if |c.chromePool.debugPorts| < c.chromePool.maxBrowserInstances {
        fired := fired + [DebugPortsTooFew];
      }
    }
    assert fired == PortRules(c.chromePool);
    ghost var afterPorts := fired;

    if c.chromePool.minBrowserInstances < 0 {
      fired := fired + [MinInstancesNegative];
    } else if c.chromePool.maxBrowserInstances <= 0 {
      fired := fired + [MaxInstancesNotPositive];
    }
    assert fired == afterPorts + CountRules(c.chromePool);
    ghost var afterCounts := fired;

    if c.server.accessTokenValidationEnabled && |c.server.accessToken| == 0 {
      fired := fired + [AccessTokenMissing];
    }
    assert fired == afterCounts + TokenRules(c.server);
    ghost var afterToken := fired;

    if c.proxyQueue.throughputScaleUpThreshold <= 0.0 {
      fired := fired + [ThresholdNotPositive];
    }
    assert fired == afterToken + ThresholdRules(c.proxyQueue);
  }

  /** Config.Validate: nil when no rule fires, otherwise one error listing the message of every
      violated rule, in rule order, separated by ",\n". */
  method Validate(c: Config) returns (err: Option<string>)
    ensures err.None? <==> Violations(c) == []
    ensures err.Some? ==> err.value == ValidationPrefix + Join(Messages(Violations(c)), ",\n")
  {
    var fired := FiredRules(c);
    if |fired| > 0 {
      return Some(ValidationPrefix + Join(Messages(fired), ",\n"));
    }
    return None;
  }

  /** NewCreateOptions: the profile and its hash, or the hashing error. `hashOf` stands for
      hashstructure's hash written in decimal, which the model leaves opaque. */
  function NewCreateOptions(profile: string, hashOf: string -> Result<string>): (r: Result<ChromeConfigOptions>)
    ensures r.Ok? <==> hashOf(profile).Ok?
    ensures r.Err? ==> r.error == hashOf(profile).error
    ensures r.Ok? ==> r.value.profile == profile && r.value.hash == hashOf(profile).value
  {
    match hashOf(profile)
    case Err(e) => Err(e)
    case Ok(hash) => Ok(ChromeConfigOptions(profile, hash))
  }

  /** The zero value Go leaves in the options when their creation fails. */
  const ZeroOptions := ChromeConfigOptions("", "")

  const DefaultChromeProfileDefault := ""
  const ServerAccessTokenDefault := ""

  /** config.Get: every setting read from the environment, each with its default.
      THROUGHPUT_SCALE_UP_THRESHOLD is parsed as a float, which the model leaves out: its
      parsed value is passed in. */
  function Load(env: Env, throughputThreshold: real, hashOf: string -> Result<string>): (c: Config)
    ensures c.chromePool.maxBrowserInstances == IntFromEnv(env, MaxBrowserInstancesKey, MaxBrowserInstancesDefault)
    ensures c.chromePool.minBrowserInstances == IntFromEnv(env, MinBrowserInstancesKey, MinBrowserInstancesDefault)
    ensures c.chromePool.enableAutoAssignDebugPort ==
      BoolFromEnv(env, EnableAutoAssignDebugPortKey, EnableAutoAssignDebugPortDefault)
    ensures c.chromePool.debugPorts == IntArrayFromEnvValue(env, ChromeDebugPortsKey, [])
    ensures c.chrome.enableBrowserReuse == BoolFromEnv(env, EnableBrowserReuseKey, EnableBrowserReuseDefault)
    ensures c.chrome.browserAutoSetIdleTimeout ==
      SecTimeDurationFromEnv(env, ChromeBrowserAutoIdleTimeoutKey, ChromeBrowserAutoIdleTimeoutDefault)
    ensures c.chrome.headless == BoolFromEnv(env, ChromeHeadlessKey, ChromeHeadlessDefault)
    ensures c.chrome.enableCustomChromeProfiles ==
      BoolFromEnv(env, ChromeEnableCustomProfilesKey, ChromeEnableCustomProfilesDefault)
    ensures c.chrome.enableBrowserAutoShutdown ==
      BoolFromEnv(env, ChromeEnableBrowserAutoShutdownKey, ChromeEnableBrowserAutoShutdownDefault)
    ensures c.chrome.browserAutoShutdownTimeout ==
      SecTimeDurationFromEnv(env, ChromeBrowserAutoShutdownTimeoutKey, ChromeBrowserAutoShutdownTimeoutDefault)
    ensures c.logger.logLevel == LogLevelFromEnv(env, LogLevelKey, Info)
    ensures c.logger.logFilePath == StringFromEnv(env, LogFilePathKey, "")
    ensures c.server.port == IntFromEnv(env, ServerPortKey, ServerPortDefault)
    ensures c.server.accessToken == StringFromEnv(env, ServerAccessTokenKey, ServerAccessTokenDefault)
    ensures c.server.accessTokenValidationEnabled ==
      BoolFromEnv(env, ServerAccessTokenValidationEnabledKey, ServerAccessTokenValidationEnabledDefault)
    ensures c.proxyQueue.throughputScaleUpThreshold == throughputThreshold
    // The error of the default options is dropped: they are then Go's zero value.
    ensures var profile := StringFromEnv(env, DefaultChromeProfileKey, DefaultChromeProfileDefault);
      c.chrome.defaultOptions ==
        if hashOf(profile).Ok? then ChromeConfigOptions(profile, hashOf(profile).value) else ZeroOptions
  {
    Config(
      ChromePoolConfig(
        IntFromEnv(env, MaxBrowserInstancesKey, MaxBrowserInstancesDefault),
        IntFromEnv(env, MinBrowserInstancesKey, MinBrowserInstancesDefault),
        BoolFromEnv(env, EnableAutoAssignDebugPortKey, EnableAutoAssignDebugPortDefault),
        IntArrayFromEnvValue(env, ChromeDebugPortsKey, [])),
      ChromeConfig(
        BoolFromEnv(env, EnableBrowserReuseKey, EnableBrowserReuseDefault),
        SecTimeDurationFromEnv(env, ChromeBrowserAutoIdleTimeoutKey, ChromeBrowserAutoIdleTimeoutDefault),
        BoolFromEnv(env, ChromeHeadlessKey, ChromeHeadlessDefault),
        BoolFromEnv(env, ChromeEnableCustomProfilesKey, ChromeEnableCustomProfilesDefault),
        BoolFromEnv(env, ChromeEnableBrowserAutoShutdownKey, ChromeEnableBrowserAutoShutdownDefault),
        SecTimeDurationFromEnv(env, ChromeBrowserAutoShutdownTimeoutKey, ChromeBrowserAutoShutdownTimeoutDefault),
        match NewCreateOptions(StringFromEnv(env, DefaultChromeProfileKey, DefaultChromeProfileDefault), hashOf)
        case Ok(co) => co
        case Err(_) => ZeroOptions),
      LoggerConfig(LogLevelFromEnv(env, LogLevelKey, Info), StringFromEnv(env, LogFilePathKey, "")),
      ServerConfig(
        IntFromEnv(env, ServerPortKey, ServerPortDefault),
        StringFromEnv(env, ServerAccessTokenKey, ServerAccessTokenDefault),
        BoolFromEnv(env, ServerAccessTokenValidationEnabledKey, ServerAccessTokenValidationEnabledDefault)),
      ProxyQueueConfig(throughputThreshold))
  }

  /** With nothing set in the environment (and the float threshold at its 0.6 default) the
      configuration passes validation. */
  lemma DefaultConfigIsValid(hashOf: string -> Result<string>)
    ensures Violations(Load(map[], 0.6, hashOf)) == []
  {
  }
}
