/**
 * The application configuration, derived from three environment variables:
 * the log level, the runtime environment name and a secret.
 */
module Config {
  import opened Wrappers
  import opened Builtins

  /** The log levels a configuration may name, in the order the validator lists them. */
  const LogLevelNames: seq<string> := ["debug", "info", "warn", "error"]

  /** The four level names; nothing else is a valid configured level. */
  type LogLevel = s: string | s in LogLevelNames witness "info"

  const DefaultLogLevel: LogLevel := "info"
  const DefaultNodeEnv := "development"

  /** The environment variables the configuration reads; `None` is an unset variable. */
  datatype Environment = Environment(
    logLevel: Option<string>,             // LOG_LEVEL
    nodeEnv: Option<string>,              // NODE_ENV
    superSecretiveSecret: Option<string>) // SUPER_SECRETIVE_SECRET

  datatype AppConfig = AppConfig(nodeEnv: string, secretKey: Option<string>, logLevel: LogLevel)

  /**
   * `getLogLevel()`: the lower-cased LOG_LEVEL when that names a level,
   * otherwise `info` (unset, empty and unrecognised alike).
   */
  function GetLogLevel(logLevel: Option<string>): (r: LogLevel)
    ensures r in LogLevelNames
    ensures logLevel.None? ==> r == DefaultLogLevel
    ensures logLevel.Some? && ToLower(logLevel.value) in LogLevelNames ==> r == ToLower(logLevel.value)
    ensures logLevel.Some? && ToLower(logLevel.value) !in LogLevelNames ==> r == DefaultLogLevel
  {
    match logLevel
    case None => DefaultLogLevel
    case Some(raw) =>
      var level := ToLower(raw);
      if level != "" && level in LogLevelNames then level else DefaultLogLevel
  }

  /**
   * The `config` record: NODE_ENV unless it is unset or empty, the secret
   * as given (possibly unset), and the validated log level.
   */
  function LoadConfig(env: Environment): (c: AppConfig)
    ensures env.nodeEnv.Some? && env.nodeEnv.value != "" ==> c.nodeEnv == env.nodeEnv.value
    ensures env.nodeEnv.None? || env.nodeEnv.value == "" ==> c.nodeEnv == DefaultNodeEnv
    ensures c.nodeEnv != ""
    ensures c.secretKey == env.superSecretiveSecret
    ensures c.logLevel == GetLogLevel(env.logLevel)
  {
    var nodeEnv := match env.nodeEnv case Some(v) => (if v != "" then v else DefaultNodeEnv) case None => DefaultNodeEnv;
    AppConfig(nodeEnv, env.superSecretiveSecret, GetLogLevel(env.logLevel))
  }

  /** `isDevelopment`; when it holds, neither of the other two names matches. */
  function IsDevelopment(c: AppConfig): (b: bool)
    ensures b ==> c.nodeEnv != "production" && c.nodeEnv != "test"
  {
    c.nodeEnv == "development"
  }

  /** `isProduction`; when it holds, neither of the other two names matches. */
  function IsProduction(c: AppConfig): (b: bool)
    ensures b ==> c.nodeEnv != "development" && c.nodeEnv != "test"
  {
    c.nodeEnv == "production"
  }

  /** `isTest`; when it holds, neither of the other two names matches. */
  function IsTest(c: AppConfig): (b: bool)
    ensures b ==> c.nodeEnv != "development" && c.nodeEnv != "production"
  {
    c.nodeEnv == "test"
  }

  /** Each level name is already lower-case. */
  lemma LevelNamesLowerCase(level: LogLevel)
    ensures IsLowerCase(level)
  {
  }

  /** The empty LOG_LEVEL is treated as unset. */
  lemma EmptyLogLevelIsInfo()
    ensures GetLogLevel(Some("")) == "info"
  {
  }

  /** A level name in any mix of cases selects that level. */
  lemma GetLogLevelCaseInsensitive(raw: string, level: LogLevel)
    requires ToLower(raw) == level
    ensures GetLogLevel(Some(raw)) == level
  {
  }

  /** Two spellings that differ only in case configure the same level. */
  lemma GetLogLevelSameUpToCase(a: string, b: string)
    requires ToLower(a) == ToLower(b)
    ensures GetLogLevel(Some(a)) == GetLogLevel(Some(b))
  {
  }

  /** Setting LOG_LEVEL to the level it produced produces that level again. */
  lemma GetLogLevelIdempotent(logLevel: Option<string>)
    ensures GetLogLevel(Some(GetLogLevel(logLevel))) == GetLogLevel(logLevel)
  {
    var r := GetLogLevel(logLevel);
    LevelNamesLowerCase(r);
    ToLowerOfLowerCase(r);
  }

  /** Every level name, written exactly, is accepted as it is. */
  lemma GetLogLevelAcceptsEachName(level: LogLevel)
    ensures GetLogLevel(Some(level)) == level
  {
    LevelNamesLowerCase(level);
    ToLowerOfLowerCase(level);
  }

  /** An upper-case LOG_LEVEL such as `DEBUG` is accepted. */
  lemma GetLogLevelUpperCaseExample()
    ensures GetLogLevel(Some("DEBUG")) == "debug"
  {
    assert ToLower("DEBUG") == "debug";
  }

  /** A LOG_LEVEL that names no level falls back to `info`. */
  lemma GetLogLevelUnknownExample()
    ensures GetLogLevel(Some("verbose")) == "info"
  {
  }

  /** The three environment flags are mutually exclusive. */
  lemma AtMostOneFlag(env: Environment)
    ensures !(IsDevelopment(LoadConfig(env)) && IsProduction(LoadConfig(env)))
    ensures !(IsDevelopment(LoadConfig(env)) && IsTest(LoadConfig(env)))
    ensures !(IsProduction(LoadConfig(env)) && IsTest(LoadConfig(env)))
  {
  }

  /** Each flag is set exactly when NODE_ENV is its name, or, for development, unset or empty. */
  lemma FlagsFollowNodeEnv(env: Environment)
    ensures IsDevelopment(LoadConfig(env)) <==>
      env.nodeEnv.None? || env.nodeEnv.value == "" || env.nodeEnv.value == "development"
    ensures IsProduction(LoadConfig(env)) <==> env.nodeEnv == Some("production")
    ensures IsTest(LoadConfig(env)) <==> env.nodeEnv == Some("test")
  {
  }

  /** Some flag is set exactly when NODE_ENV is unset, empty or one of the three names. */
  lemma SomeFlagIff(env: Environment)
    ensures IsDevelopment(LoadConfig(env)) || IsProduction(LoadConfig(env)) || IsTest(LoadConfig(env))
      <==> env.nodeEnv.None? || env.nodeEnv.value in {"", "development", "production", "test"}
  {
  }
}
