/** cfg/config.go: configuration read from the process environment at
    start-up. The environment is a map from variable name to value; a name
    absent from the map is an unset variable (os.LookupEnv reports false). */
module Config {
  import opened Wrappers
  import opened GoStd

  type Environment = map<string, string>

  /** getEnv: the variable's value whenever it is defined, even when empty. */
  function GetEnv(env: Environment, key: string, defaultVal: string): (r: string)
    ensures key in env ==> r == env[key]
    ensures key !in env ==> r == defaultVal
  {
    if key in env then env[key] else defaultVal
  }

  /** getEnvAsInt: strconv.Atoi of the value, or the default when the
      variable is unset or does not parse. */
  function GetEnvAsInt(env: Environment, name: string, defaultVal: int64): (r: int64)
    ensures name in env && Atoi(env[name]).Ok? ==> r == Atoi(env[name]).value
    ensures (name !in env || Atoi(env[name]).Err?) ==> r == defaultVal
  {
    var valueStr := GetEnv(env, name, "");
    match Atoi(valueStr)
    case Ok(value) => value
    case Err(_) => defaultVal
  }

  /** A variable holding the decimal rendering of an int64 yields that value. */
  lemma GetEnvAsIntOfDecimal(env: Environment, name: string, v: int64, defaultVal: int64)
    requires name in env && env[name] == IntToString(v)
    ensures GetEnvAsInt(env, name, defaultVal) == v
  {
    AtoiOfIntToString(v);
  }

  datatype LogLevel = PanicLevel | FatalLevel | ErrorLevel | WarnLevel | InfoLevel | DebugLevel | TraceLevel

  /** The level names logrus accepts, in lower case. */
  const LevelByName: map<string, LogLevel> := map[
    "panic" := PanicLevel, "fatal" := FatalLevel, "error" := ErrorLevel, "warn" := WarnLevel,
    "warning" := WarnLevel, "info" := InfoLevel, "debug" := DebugLevel, "trace" := TraceLevel]

  /** logrus.ParseLevel: the level names compared after lower-casing
      (ASCII letters only here). */
  function ParseLevel(lvl: string): (r: Result<LogLevel>)
    ensures r.Ok? <==> ToLowerAscii(lvl) in LevelByName
    ensures r.Ok? ==> r.value == LevelByName[ToLowerAscii(lvl)]
    ensures r.Err? ==> r.error == InvalidLogLevel(lvl)
  {
    match ToLowerAscii(lvl)
    case "panic" => Ok(PanicLevel)
    case "fatal" => Ok(FatalLevel)
    case "error" => Ok(ErrorLevel)
    case "warn" => Ok(WarnLevel)
    case "warning" => Ok(WarnLevel)
    case "info" => Ok(InfoLevel)
    case "debug" => Ok(DebugLevel)
    case "trace" => Ok(TraceLevel)
    case _ => Err(InvalidLogLevel(lvl))
  }

  /** Lower-casing twice is lower-casing once. */
  lemma ToLowerAsciiIdempotent(s: string)
    ensures ToLowerAscii(ToLowerAscii(s)) == ToLowerAscii(s)
  {
    var once := ToLowerAscii(s);
    var twice := ToLowerAscii(once);
    forall i | 0 <= i < |s|
      ensures twice[i] == once[i]
    {
      if 'A' <= s[i] <= 'Z' {
        assert once[i] == (s[i] as int + 32) as char;
      }
    }
  }

  /** The case of ASCII letters does not matter to ParseLevel: a text and
      its lower-cased form parse to the same level, and fail alike. */
  lemma {:induction false} ParseLevelIgnoresAsciiCase(lvl: string)
    ensures ParseLevel(ToLowerAscii(lvl)).Ok? <==> ParseLevel(lvl).Ok?
    ensures ParseLevel(lvl).Ok? ==> ParseLevel(ToLowerAscii(lvl)) == ParseLevel(lvl)
  {
    ToLowerAsciiIdempotent(lvl);
  }

  /** getLogLevel: the parsed level, and DebugLevel (not InfoLevel, whatever
      the warning says) when the text is not a level. */
  function GetLogLevel(env: Environment, key: string, defaultVal: string): (r: LogLevel)
    ensures ParseLevel(GetEnv(env, key, defaultVal)).Ok? ==> r == ParseLevel(GetEnv(env, key, defaultVal)).value
    ensures ParseLevel(GetEnv(env, key, defaultVal)).Err? ==> r == DebugLevel
  {
    match ParseLevel(GetEnv(env, key, defaultVal))
    case Ok(level) => level
    case Err(_) => DebugLevel
  }

  /** The package variables assigned by `init`. */
  datatype Config = Config(
    logLevel: string,
    bootstrapServer: string,
    topic: string,
    groupId: string,
    username: string,
    password: string,
    useSASLForKafka: string,
    kafkaUsername: string,
    kafkaPassword: string)

  /** cfg's `init`: one getEnv per variable, with its default. */
  function Init(env: Environment): Config
  {
    Config(
      GetEnv(env, "LOG_LEVEL", "info"),
      GetEnv(env, "KAFKA_URL", "kafka:9092"),
      GetEnv(env, "PAP_TOPIC", "policy-pdp-pap"),
      GetEnv(env, "GROUPID", "opa-pdp"),
      GetEnv(env, "API_USER", "policyadmin"),
      GetEnv(env, "API_PASSWORD", "zb!XztG34"),
      GetEnv(env, "UseSASLForKAFKA", "false"),
      GetEnv(env, "KAFKA_USERNAME", "strimzi-kafka-user"),
      GetEnv(env, "KAFKA_PASSWORD", "kafkaSecretPassword123"))
  }

  /** With nothing set, the agent talks to kafka:9092 on policy-pdp-pap as
      consumer group opa-pdp, without SASL; any set variable wins, even "". */
  lemma InitDefaults(env: Environment)
    ensures "KAFKA_URL" !in env ==> Init(env).bootstrapServer == "kafka:9092"
    ensures "PAP_TOPIC" !in env ==> Init(env).topic == "policy-pdp-pap"
    ensures "GROUPID" !in env ==> Init(env).groupId == "opa-pdp"
    ensures "UseSASLForKAFKA" !in env ==> Init(env).useSASLForKafka == "false"
    ensures "LOG_LEVEL" !in env ==> Init(env).logLevel == "info"
    ensures "KAFKA_URL" in env ==> Init(env).bootstrapServer == env["KAFKA_URL"]
    ensures "UseSASLForKAFKA" in env ==> Init(env).useSASLForKafka == env["UseSASLForKAFKA"]
  {
  }

  /** The SASL switch of both Kafka clients: on exactly for the text "true". */
  predicate UseSasl(c: Config) { c.useSASLForKafka == "true" }
}
