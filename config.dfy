/** Configuration rules of config/config.go and the database-name fallback of
    internal/database/mongo.go. The environment is a map from variable names
    to values; the gRPC config service, its client construction and the JSON
    decoding of the remote document are oracles. log.Fatalf becomes a
    returned fatal message. */
module Config {
  import opened Wrappers
  import opened Numerals

  type Env = map<string, string>

  /** getEnv: the value whenever the variable is set, even when empty. */
  function GetEnv(env: Env, key: string, fallback: string): (v: string)
    ensures key in env ==> v == env[key]
    ensures key !in env ==> v == fallback
  {
    if key in env then env[key] else fallback
  }

  const MinInt64: int := -0x8000_0000_0000_0000
  const MaxInt64: int := 0x7FFF_FFFF_FFFF_FFFF

  /** The white space fmt's scanner skips: U+0009-U+000D, U+0020, U+0085,
      U+00A0, U+1680, U+2000-U+200A, U+2028, U+2029, U+202F, U+205F, U+3000. */
  predicate IsSpace(c: char) {
    var n := c as int;
    || 0x09 <= n <= 0x0D || n == 0x20 || n == 0x85 || n == 0xA0 || n == 0x1680
    || 0x2000 <= n <= 0x200A || n == 0x2028 || n == 0x2029 || n == 0x202F
    || n == 0x205F || n == 0x3000
  }

  /** Leading white space skipped; None when a newline comes first (Sscanf
      does not treat newlines as space; "\r\n" counts as a newline since the
      carriage return is itself skipped). */
  function SkipSpace(s: string): (r: Option<string>)
    ensures r.Some? ==> |r.value| <= |s| && r.value == s[|s| - |r.value|..] && (r.value == [] || !IsSpace(r.value[0]))
    decreases |s|
  {
    if s == [] then Some(s)
    else if s[0] == '\n' then None
    else if IsSpace(s[0]) then SkipSpace(s[1..])
    else Some(s)
  }

  /** The longest run of decimal digits at the start of `s`. */
  function LeadingDigits(s: string): (ds: string)
    ensures ds <= s
    ensures forall i | 0 <= i < |ds| :: IsDigit(ds[i])
    ensures |ds| == |s| || !IsDigit(s[|ds|])
    decreases |s|
  {
    if s != [] && IsDigit(s[0]) then [s[0]] + LeadingDigits(s[1..]) else []
  }

  /** fmt.Sscanf(s, "%d", &i) into a 64-bit int: white space skipped, an
      optional sign, then the longest run of decimal digits; whatever follows
      is ignored. None where Sscanf fails (newline first, end of input, no
      digit, value out of the int64 range) and leaves the target unassigned. */
  function ScanInt(s: string): (r: Option<int>)
    ensures r.Some? ==> MinInt64 <= r.value <= MaxInt64
    ensures s != [] && s[0] == '\n' ==> r.None?
    ensures (forall i | 0 <= i < |s| :: IsSpace(s[i])) ==> r.None?
  {
    match SkipSpace(s)
    case None => None
    case Some(t) => ScanToken(t)
  }

  /** The %d token at the start of `t`, once white space is skipped. */
  function ScanToken(t: string): (r: Option<int>)
    ensures r.Some? ==> MinInt64 <= r.value <= MaxInt64
    ensures r.Some? ==> t != [] && (IsDigit(t[0]) || t[0] == '+' || t[0] == '-')
    ensures r.Some? && t[0] == '-' ==> r.value <= 0
    ensures r.Some? && t[0] != '-' ==> r.value >= 0
  {
    if t == [] then None
    else
      var negative := t[0] == '-';
      var body := if t[0] == '+' || t[0] == '-' then t[1..] else t;
      var ds := LeadingDigits(body);
      if ds == [] then None
      else
        var v: int := if negative then -(DigitsValue(ds) as int) else DigitsValue(ds);
        if MinInt64 <= v <= MaxInt64 then Some(v) else None
  }

  /** getEnvInt: the fallback only when the variable is unset; a set value is
      scanned into a zeroed int, so a value without a parsable integer is 0. */
  function GetEnvInt(env: Env, key: string, fallback: int): (v: int)
    ensures key !in env ==> v == fallback
    ensures key in env && ScanInt(env[key]).Some? ==> v == ScanInt(env[key]).value
    ensures key in env && ScanInt(env[key]).None? ==> v == 0
  {
    if key in env then
      match ScanInt(env[key])
      case Some(n) => n
      case None => 0
    else fallback
  }

  function Digit(d: nat): (c: char)
    requires d < 10
    ensures IsDigit(c) && c as int - '0' as int == d
  {
    ('0' as int + d) as char
  }

  /** The decimal numeral of a natural number, most significant digit first. */
  function NatText(k: nat): (s: string)
    ensures s != []
    decreases k
  {
    if k < 10 then [Digit(k)] else NatText(k / 10) + [Digit(k % 10)]
  }

  /** The decimal numeral of an integer, as strconv.Itoa writes it. */
  function DecimalText(n: int): string {
    if n < 0 then "-" + NatText(-n) else NatText(n)
  }

  lemma {:induction false} NatTextValue(k: nat)
    ensures forall i | 0 <= i < |NatText(k)| :: IsDigit(NatText(k)[i])
    ensures DigitsValue(NatText(k)) == k
    decreases k
  {
    var s := NatText(k);
    if k < 10 {
      assert s[..|s| - 1] == [];
    } else {
      NatTextValue(k / 10);
      assert s[..|s| - 1] == NatText(k / 10);
    }
  }

  lemma {:induction false} LeadingDigitsOf(ds: string, rest: string)
    requires forall i | 0 <= i < |ds| :: IsDigit(ds[i])
    requires rest == [] || !IsDigit(rest[0])
    ensures LeadingDigits(ds + rest) == ds
    decreases |ds|
  {
    if ds == [] {
      assert ds + rest == rest;
    } else {
      assert (ds + rest)[0] == ds[0];
      assert (ds + rest)[1..] == ds[1..] + rest;
      LeadingDigitsOf(ds[1..], rest);
    }
  }

  lemma ScanTokenOfNatural(k: nat, rest: string)
    requires k <= MaxInt64
    requires rest == [] || !IsDigit(rest[0])
    ensures ScanToken(NatText(k) + rest) == Some(k)
    ensures ScanInt(NatText(k) + rest) == Some(k)
  {
    NatTextValue(k);
    LeadingDigitsOf(NatText(k), rest);
    var t := NatText(k) + rest;
    assert t[0] == NatText(k)[0];
    assert IsDigit(t[0]) && !IsSpace(t[0]);
  }

  lemma ScanTokenOfNegative(k: nat, rest: string)
    requires k <= -MinInt64
    requires rest == [] || !IsDigit(rest[0])
    ensures ScanToken("-" + NatText(k) + rest) == Some(-(k as int))
  {
    NatTextValue(k);
    LeadingDigitsOf(NatText(k), rest);
    var body := NatText(k) + rest;
    var t := "-" + body;
    assert t[0] == '-' && t[1..] == body;
    NegativeToken(t, NatText(k));
    assert "-" + NatText(k) + rest == t;
  }

  lemma NegativeToken(t: string, ds: string)
    requires t != [] && t[0] == '-' && LeadingDigits(t[1..]) == ds && ds != []
    requires DigitsValue(ds) <= -MinInt64
    ensures ScanToken(t) == Some(-(DigitsValue(ds) as int))
  {
  }

  lemma ScanIntOfNegative(k: nat, rest: string)
    requires k <= -MinInt64
    requires rest == [] || !IsDigit(rest[0])
    ensures ScanInt("-" + NatText(k) + rest) == Some(-(k as int))
  {
    var t := "-" + NatText(k) + rest;
    assert t[0] == '-';
    assert SkipSpace(t) == Some(t);
    ScanTokenOfNegative(k, rest);
  }

  /** Sscanf's %d reads back every int64 written in decimal, whatever non-digit
      text follows it. */
  lemma ScanIntRoundTrip(n: int, rest: string)
    requires MinInt64 <= n <= MaxInt64
    requires rest == [] || !IsDigit(rest[0])
    ensures ScanInt(DecimalText(n) + rest) == Some(n)
  {
    if n < 0 {
      ScanIntOfNegative(-n, rest);
    } else {
      ScanTokenOfNatural(n, rest);
    }
  }

  /** A set SMTP_PORT that does not scan gives port 0, not the default 587;
      a newline before the digits is such a value. */
  lemma UnparsablePortIsZero()
    ensures GetEnvInt(map["SMTP_PORT" := "abc"], "SMTP_PORT", 587) == 0
    ensures GetEnvInt(map["SMTP_PORT" := "\n25"], "SMTP_PORT", 587) == 0
    ensures GetEnvInt(map["SMTP_PORT" := ""], "SMTP_PORT", 587) == 0
  {
    assert LeadingDigits("abc") == [];
  }

  /** A port written in decimal, possibly followed by other text, scans to
      itself. */
  lemma PortIsScanned(port: nat, rest: string)
    requires port <= MaxInt64
    requires rest == [] || !IsDigit(rest[0])
    ensures GetEnvInt(map["SMTP_PORT" := NatText(port) + rest], "SMTP_PORT", 587) == port
  {
    ScanIntRoundTrip(port, rest);
  }

  datatype SMTPConfig = SMTPConfig(host: string, port: int, user: string, password: string, from: string)
  datatype KafkaConfig = KafkaConfig(brokers: seq<string>, topics: map<string, string>, groupId: string)
  datatype Config = Config(mongoUri: string, mongoDbName: string, smtp: SMTPConfig, kafka: KafkaConfig,
                           featureFlags: map<string, bool>, appPort: string)

  /** The part of the config service's JSON document the service reads. */
  datatype RemoteConfig = RemoteConfig(mongoUri: string, mongoDatabase: string, brokers: seq<string>,
                                       topics: map<string, string>, featureFlags: map<string, bool>)

  const DefaultConfigServiceUrl := "127.0.0.1:50051"
  const ServiceName := "notification-service"
  const MaxAttempts: nat := 10

  /** The configuration LoadConfig builds from the environment before the
      remote fetch: every variable falls back to its default when unset. */
  function LocalConfig(env: Env): (c: Config)
    ensures "SMTP_HOST" !in env ==> c.smtp.host == "smtp.gmail.com"
    ensures "SMTP_PORT" !in env ==> c.smtp.port == 587
    ensures "SMTP_PORT" in env ==> c.smtp.port == GetEnvInt(env, "SMTP_PORT", 0)
    ensures "SMTP_USER" !in env ==> c.smtp.user == ""
    ensures "SMTP_PASSWORD" !in env ==> c.smtp.password == ""
    ensures "SMTP_FROM" !in env ==> c.smtp.from == "no-reply@ecommerce.com"
    ensures "KAFKA_GROUP_ID" !in env ==> c.kafka.groupId == "notification-service-group"
    ensures "PORT" !in env ==> c.appPort == "8086"
    ensures "SMTP_HOST" in env ==> c.smtp.host == env["SMTP_HOST"]
    ensures "SMTP_USER" in env ==> c.smtp.user == env["SMTP_USER"]
    ensures "SMTP_PASSWORD" in env ==> c.smtp.password == env["SMTP_PASSWORD"]
    ensures "SMTP_FROM" in env ==> c.smtp.from == env["SMTP_FROM"]
    ensures "KAFKA_GROUP_ID" in env ==> c.kafka.groupId == env["KAFKA_GROUP_ID"]
    ensures "PORT" in env ==> c.appPort == env["PORT"]
    ensures c.mongoUri == "" && c.mongoDbName == "" && c.kafka.brokers == [] && c.kafka.topics == map[]
    ensures c.featureFlags == map[]
  {
    Config(
      "", "",
      SMTPConfig(
        GetEnv(env, "SMTP_HOST", "smtp.gmail.com"),
        GetEnvInt(env, "SMTP_PORT", 587),
        GetEnv(env, "SMTP_USER", ""),
        GetEnv(env, "SMTP_PASSWORD", ""),
        GetEnv(env, "SMTP_FROM", "no-reply@ecommerce.com")),
      KafkaConfig([], map[], GetEnv(env, "KAFKA_GROUP_ID", "notification-service-group")),
      map[],
      GetEnv(env, "PORT", "8086"))
  }

  /** The broker list: a non-empty KAFKA_BROKERS replaces the remote list by a
      single element holding the raw value, commas and all. */
  function Brokers(env: Env, remote: seq<string>): (b: seq<string>)
    ensures "KAFKA_BROKERS" in env && env["KAFKA_BROKERS"] != "" ==> b == [env["KAFKA_BROKERS"]]
    ensures "KAFKA_BROKERS" !in env || env["KAFKA_BROKERS"] == "" ==> b == remote
  {
    var brokersEnv := GetEnv(env, "KAFKA_BROKERS", "");
    if brokersEnv != "" then [brokersEnv] else remote
  }

  /** The configuration after a successful fetch: the Mongo settings, topics
      and feature flags are taken verbatim from the remote document, the
      brokers by the override rule, and everything else is left alone. */
  function Apply(c: Config, remote: RemoteConfig, env: Env): (r: Config)
    ensures r.mongoUri == remote.mongoUri && r.mongoDbName == remote.mongoDatabase
    ensures r.kafka.topics == remote.topics && r.featureFlags == remote.featureFlags
    ensures r.kafka.brokers == Brokers(env, remote.brokers)
    ensures r.smtp == c.smtp && r.kafka.groupId == c.kafka.groupId && r.appPort == c.appPort
  {
    c.(mongoUri := remote.mongoUri, mongoDbName := remote.mongoDatabase,
       kafka := c.kafka.(brokers := Brokers(env, remote.brokers), topics := remote.topics),
       featureFlags := remote.featureFlags)
  }

  /** The first call index in [i, hi) whose answer succeeds, or hi. */
  function FirstSuccess(answer: nat -> Result<string>, i: nat, hi: nat): (k: nat)
    requires i <= hi
    ensures i <= k <= hi
    ensures k < hi ==> answer(k).Ok?
    ensures forall j | i <= j < k :: answer(j).Err?
    decreases hi - i
  {
    if i == hi then hi
    else if answer(i).Ok? then i
    else FirstSuccess(answer, i + 1, hi)
  }

  /** The number of GetConfig calls made from call index `base` on: up to and
      including the first success, and never more than MaxAttempts. */
  function Attempts(answer: nat -> Result<string>, base: nat): (n: nat)
    ensures 1 <= n <= MaxAttempts
    ensures forall j | base <= j < base + n - 1 :: answer(j).Err?
    ensures n < MaxAttempts ==> answer(base + n - 1).Ok?
  {
    var k := FirstSuccess(answer, base, base + MaxAttempts);
    if k < base + MaxAttempts then k - base + 1 else MaxAttempts
  }

  /** fetchRemoteConfig as a function of its oracles: the fatal message it
      stops with, or the configuration it leaves in place of `c`. */
  function Fetch(c: Config, env: Env, url: string, dialError: string -> Option<string>,
                 answer: nat -> Result<string>, base: nat, decode: string -> Result<RemoteConfig>): (r: Result<Config>)
    ensures dialError(url).Some? ==> r == Err("Failed to create gRPC client: " + dialError(url).value)
    ensures r.Ok? ==> dialError(url).None? && answer(base + Attempts(answer, base) - 1).Ok?
  {
    match dialError(url)
    case Some(e) => Err("Failed to create gRPC client: " + e)
    case None =>
      match answer(base + Attempts(answer, base) - 1)
      case Err(e) => Err("Failed to fetch config from " + url + " after retries: " + e)
      case Ok(json) =>
        match decode(json)
        case Err(e) => Err("Failed to unmarshal config json: " + e)
        case Ok(remote) => Ok(Apply(c, remote, env))
  }

  /** Startup fails for want of a config when all MaxAttempts answers fail,
      and with the last answer's error; otherwise the calls stop at the first
      success. */
  lemma {:induction false} RetriesAreBounded(c: Config, env: Env, url: string, dialError: string -> Option<string>,
                                             answer: nat -> Result<string>, base: nat, decode: string -> Result<RemoteConfig>)
    requires dialError(url).None?
    ensures (forall j | base <= j < base + MaxAttempts :: answer(j).Err?) ==>
              Fetch(c, env, url, dialError, answer, base, decode)
              == Err("Failed to fetch config from " + url + " after retries: " + answer(base + MaxAttempts - 1).error)
    ensures forall j | base <= j < base + MaxAttempts && answer(j).Ok? ::
              Attempts(answer, base) <= j - base + 1 && answer(base + Attempts(answer, base) - 1).Ok?
  {
    var n := Attempts(answer, base);
    if forall j | base <= j < base + MaxAttempts :: answer(j).Err? {
      assert answer(base + n - 1).Err?;
    }
  }

  /** The Mongo database name: the configured one, or ecommerce_notifications
      when it is empty. */
  function DatabaseName(configured: string): (name: string)
    ensures configured != "" ==> name == configured
    ensures configured == "" ==> name == "ecommerce_notifications"
  {
    if configured == "" then "ecommerce_notifications" else configured
  }

  function Repeat(x: string, n: nat): (s: seq<string>)
    ensures |s| == n && forall i | 0 <= i < n :: s[i] == x
  {
    seq(n, _ => x)
  }

  /** The config service client; its answers are an oracle indexed by call. */
  class ConfigClient {
    const answer: nat -> Result<string>
    var requests: seq<string>

    constructor (answer: nat -> Result<string>)
      ensures this.answer == answer && requests == []
    {
      this.answer := answer;
      requests := [];
    }

    method GetConfig(serviceName: string) returns (r: Result<string>)
      modifies this
      ensures requests == old(requests) + [serviceName] && r == answer(|old(requests)|)
    {
      r := answer(|requests|);
      requests := requests + [serviceName];
    }
  }

  /** LoadConfig and fetchRemoteConfig over the process-wide AppConfig. */
  class Loader {
    const env: Env
    const dialError: string -> Option<string>
    const client: ConfigClient
    const decode: string -> Result<RemoteConfig>
    var appConfig: Option<Config>

    constructor (env: Env, dialError: string -> Option<string>, client: ConfigClient,
                 decode: string -> Result<RemoteConfig>)
      ensures this.env == env && this.dialError == dialError && this.client == client
      ensures this.decode == decode && appConfig == None
    {
      this.env := env;
      this.dialError := dialError;
      this.client := client;
      this.decode := decode;
      appConfig := None;
    }

    method FetchRemoteConfig(url: string) returns (fatal: Option<string>)
      requires appConfig.Some?
      modifies this, client
      ensures var base := |old(client.requests)|;
              var r := Fetch(old(appConfig.value), env, url, dialError, client.answer, base, decode);
              && client.requests
                 == old(client.requests) + Repeat(ServiceName, if dialError(url).Some? then 0 else Attempts(client.answer, base))
              && (r.Ok? ==> fatal == None && appConfig == Some(r.value))
              && (r.Err? ==> fatal == Some(r.error) && appConfig == old(appConfig))
    {
      var dialed := dialError(url);
      if dialed.Some? {
        return Some("Failed to create gRPC client: " + dialed.value);
      }
      ghost var base := |client.requests|;
      var resp: Result<string> := Err("");
      var i := 0;
      while i < MaxAttempts
        invariant i <= MaxAttempts
        invariant appConfig == old(appConfig)
        invariant client.requests == old(client.requests) + Repeat(ServiceName, i)
        invariant forall j | base <= j < base + i :: client.answer(j).Err?
        invariant i > 0 ==> resp == client.answer(base + i - 1)
        decreases MaxAttempts - i
      {
        resp := client.GetConfig(ServiceName);
        if resp.Ok? {
          i := i + 1;
          break;
        }
        i := i + 1;
      }
      assert i == Attempts(client.answer, base);
      if resp.Err? {
        return Some("Failed to fetch config from " + url + " after retries: " + resp.error);
      }
      var remote := decode(resp.value);
      if remote.Err? {
        return Some("Failed to unmarshal config json: " + remote.error);
      }
      appConfig := Some(Apply(appConfig.value, remote.value, env));
      fatal := None;
    }

    /** LoadConfig: the local settings first, then the remote fetch from
        CONFIG_SERVICE_URL (default 127.0.0.1:50051). */
    method LoadConfig() returns (fatal: Option<string>)
      modifies this, client
      ensures var base := |old(client.requests)|;
              var url := GetEnv(env, "CONFIG_SERVICE_URL", DefaultConfigServiceUrl);
              var r := Fetch(LocalConfig(env), env, url, dialError, client.answer, base, decode);
              && (r.Ok? ==> fatal == None && appConfig == Some(r.value))
              && (r.Err? ==> fatal == Some(r.error) && appConfig == Some(LocalConfig(env)))
    {
      appConfig := Some(LocalConfig(env));
      var url := GetEnv(env, "CONFIG_SERVICE_URL", DefaultConfigServiceUrl);
      fatal := FetchRemoteConfig(url);
    }
  }
}
