/**
 * Configuration of the API server: every setting comes from its
 * command-line option, else its environment variable, else a default,
 * combined with Python's `or` (so an empty value falls through). Three
 * settings are required.
 */
module Env {
  import opened Common
  import Decimal

  /** The command-line options as `argparse` leaves them: `None` when not given. */
  datatype Args = Args(
    environment: Option<string>,
    debug: bool,
    pathBackups: Option<string>,
    pathLogs: Option<string>,
    databaseConnSync: Option<string>,
    databaseConnAsync: Option<string>,
    quartHost: Option<string>,
    quartPort: Option<int>,
    quartSecretKey: Option<string>)

  /** The process environment. */
  type Environ = map<string, string>

  /** The resolved settings. */
  datatype Config = Config(
    environment: string,
    debug: bool,
    pathBackups: string,
    pathLogs: string,
    dbConnSync: string,
    dbConnAsync: string,
    quartHost: string,
    quartPort: int,
    quartSecretKey: string)

  /** Why resolution raised. */
  datatype EnvError =
    | InvalidPort(text: string)
    | NoSyncConnection
    | NoAsyncConnection
    | NoSecretKey

  /** The text of the exception raised for each error. */
  function ErrorMessage(e: EnvError): string {
    match e
    case InvalidPort(text) => "invalid literal for int() with base 10: '" + text + "'"
    case NoSyncConnection => "No sync database connection string specified!"
    case NoAsyncConnection => "No async database connection string specified!"
    case NoSecretKey => "No secret key specified!"
  }

  /** `os.getenv(key)`. */
  function GetEnv(env: Environ, key: string): Option<string> {
    if key in env then Some(env[key]) else None
  }

  /** Python truthiness of an optional string: present and non-empty. */
  predicate Truthy(v: Option<string>) {
    v.Some? && v.value != ""
  }

  /** Python's `a or b` on optional strings: `a` when truthy, else `b`. */
  function Or(a: Option<string>, b: Option<string>): Option<string> {
    if Truthy(a) then a else b
  }

  /** `str.lower()` on ASCII letters. */
  function LowerChar(c: char): char {
    if 'A' <= c <= 'Z' then (c as int - 'A' as int + 'a' as int) as char else c
  }

  function Lower(s: string): (r: string)
    ensures |r| == |s| && forall k :: 0 <= k < |s| ==> r[k] == LowerChar(s[k])
    ensures forall k :: 0 <= k < |r| ==> !('A' <= r[k] <= 'Z')
  {
    seq(|s|, k requires 0 <= k < |s| => LowerChar(s[k]))
  }

  /**
   * The `QUART_PORT` expression of `env.py` (line 29) as written: the conditional expression binds loosest, so the
   * option is consulted only when the `QUART_PORT` variable is set and
   * non-empty; otherwise the port is 5000. `int()` of a bad text raises.
   */
  function QuartPortAsWritten(option: Option<int>, env: Environ): (r: Result<int, EnvError>)
    ensures Truthy(GetEnv(env, "QUART_PORT")) && option.Some? && option.value != 0 ==> r == Success(option.value)
    ensures r.Failure? <==> Truthy(GetEnv(env, "QUART_PORT")) && (option.None? || option.value == 0)
                            && Decimal.ParseInt(env["QUART_PORT"]).None?
  {
    var raw := GetEnv(env, "QUART_PORT");
    if Truthy(raw) then
      if option.Some? && option.value != 0 then Success(option.value)
      else
        var parsed := Decimal.ParseInt(raw.value);
        if parsed.None? then Failure(InvalidPort(raw.value)) else Success(parsed.value)
    else Success(5000)
  }

  /** Whatever the option says, an unset `QUART_PORT` variable yields 5000. */
  lemma CommandLinePortIgnored(option: Option<int>, env: Environ)
    requires !Truthy(GetEnv(env, "QUART_PORT"))
    ensures QuartPortAsWritten(option, env) == Success(5000)
  {
  }

  /** A concrete case: `--quart_port 8080` with no `QUART_PORT` variable serves on 5000. */
  lemma CommandLinePortIgnoredExample()
    ensures QuartPortAsWritten(Some(8080), map[]) == Success(5000)
    ensures QuartPortIntended(Some(8080), map[]) == Success(8080)
  {
  }

  /**
   * The port as the other settings resolve theirs: option, else the
   * variable read as an integer, else 5000 (a zero falls through, as with `or`).
   */
  function QuartPortIntended(option: Option<int>, env: Environ): (r: Result<int, EnvError>)
    ensures r.Success? ==> r.value != 0
    ensures r.Failure? ==> "QUART_PORT" in env && r.error == InvalidPort(env["QUART_PORT"])
  {
    if option.Some? && option.value != 0 then Success(option.value)
    else
      var raw := GetEnv(env, "QUART_PORT");
      if !Truthy(raw) then Success(5000)
      else
        var parsed := Decimal.ParseInt(raw.value);
        if parsed.None? then Failure(InvalidPort(raw.value))
        else if parsed.value != 0 then Success(parsed.value)
        else Success(5000)
  }

  /**
   * The corrected port: a non-zero option always wins; without one, a set
   * variable gives its non-zero value, and 5000 when it reads as zero or is
   * unset; a bad variable raises exactly when the option is absent or zero
   * and the variable is set to a text `int()` refuses.
   */
  lemma QuartPortPrecedence(option: Option<int>, env: Environ)
    ensures option.Some? && option.value != 0 ==> QuartPortIntended(option, env) == Success(option.value)
    ensures QuartPortIntended(option, env).Failure? <==>
      (option.None? || option.value == 0) && Truthy(GetEnv(env, "QUART_PORT"))
        && Decimal.ParseInt(env["QUART_PORT"]).None?
    ensures QuartPortIntended(option, env).Success? ==> QuartPortIntended(option, env).value != 0
    ensures (option.None? || option.value == 0) && !Truthy(GetEnv(env, "QUART_PORT")) ==>
      QuartPortIntended(option, env) == Success(5000)
    ensures (option.None? || option.value == 0) && Truthy(GetEnv(env, "QUART_PORT"))
            && Decimal.ParseInt(env["QUART_PORT"]).Some? ==>
      var parsed := Decimal.ParseInt(env["QUART_PORT"]).value;
      QuartPortIntended(option, env) == Success(if parsed != 0 then parsed else 5000)
  {
  }

  /**
   * Both readings raise on the same inputs, and agree whenever the variable
   * is set and the as-written port is not zero.
   */
  lemma QuartPortReadingsAgree(option: Option<int>, env: Environ)
    ensures QuartPortAsWritten(option, env).Failure? <==> QuartPortIntended(option, env).Failure?
    ensures Truthy(GetEnv(env, "QUART_PORT")) && QuartPortAsWritten(option, env).Success?
            && QuartPortAsWritten(option, env).value != 0 ==>
      QuartPortAsWritten(option, env) == QuartPortIntended(option, env)
  {
  }

  /** A setting with a default: `option or os.getenv(key) or default`. */
  function Setting(option: Option<string>, env: Environ, key: string, default: string): (r: string)
    ensures Truthy(option) ==> r == option.value
    ensures !Truthy(option) && Truthy(GetEnv(env, key)) ==> r == env[key]
    ensures !Truthy(option) && !Truthy(GetEnv(env, key)) ==> r == default
  {
    Or(Or(option, GetEnv(env, key)), Some(default)).value
  }

  /** A required setting: `option or os.getenv(key)`, checked for truthiness afterwards. */
  function Required(option: Option<string>, env: Environ, key: string): (r: Option<string>)
    ensures Truthy(r) <==> Truthy(option) || Truthy(GetEnv(env, key))
    ensures Truthy(option) ==> r == option
    ensures !Truthy(option) ==> r == GetEnv(env, key)
  {
    Or(option, GetEnv(env, key))
  }

  /**
   * The module body of `env.py` (lines 20-35): every setting in turn, then the three required ones
   * checked in order. The port is resolved with the corrected precedence.
   */
  function Resolve(args: Args, env: Environ): (r: Result<Config, EnvError>)
    ensures r.Success? ==> r.value.dbConnSync != "" && r.value.dbConnAsync != "" && r.value.quartSecretKey != ""
  {
    var quartPort := QuartPortIntended(args.quartPort, env);
    var dbConnSync := Required(args.databaseConnSync, env, "DB_CONN_SYNC");
    var dbConnAsync := Required(args.databaseConnAsync, env, "DB_CONN_ASYNC");
    var quartSecretKey := Required(args.quartSecretKey, env, "QUART_SECRET_KEY");
    if quartPort.Failure? then Failure(quartPort.error)
    else if !Truthy(dbConnSync) then Failure(NoSyncConnection)
    else if !Truthy(dbConnAsync) then Failure(NoAsyncConnection)
    else if !Truthy(quartSecretKey) then Failure(NoSecretKey)
    else Success(Config(
      Lower(Setting(args.environment, env, "ENVIRONMENT", "production")),
      args.debug || Truthy(GetEnv(env, "DEBUG")),
      Setting(args.pathBackups, env, "PATH_BACKUPS", "/backups"),
      Setting(args.pathLogs, env, "PATH_LOGS", "/logs"),
      dbConnSync.value,
      dbConnAsync.value,
      Setting(args.quartHost, env, "QUART_HOST", "127.0.0.1"),
      quartPort.value,
      quartSecretKey.value))
  }

  /**
   * Reference reading of a precedence chain: the first candidate that is
   * present and non-empty, or `default` when there is none.
   */
  function FirstNonEmpty(candidates: seq<Option<string>>, default: string): (r: string)
    ensures r == default || exists k :: 0 <= k < |candidates| && candidates[k] == Some(r) && r != ""
  {
    if candidates == [] then default
    else if candidates[0].Some? && candidates[0].value != "" then candidates[0].value
    else FirstNonEmpty(candidates[1..], default)
  }

  /**
   * Each setting with a default takes the option when it is non-empty,
   * else the variable when it is non-empty, else the default; the required
   * ones take the option, else the variable.
   */
  lemma {:induction false} SettingsPrecedence(args: Args, env: Environ)
    requires Resolve(args, env).Success?
    ensures var c := Resolve(args, env).value;
      && c.environment == Lower(FirstNonEmpty([args.environment, GetEnv(env, "ENVIRONMENT")], "production"))
      && c.pathBackups == FirstNonEmpty([args.pathBackups, GetEnv(env, "PATH_BACKUPS")], "/backups")
      && c.pathLogs == FirstNonEmpty([args.pathLogs, GetEnv(env, "PATH_LOGS")], "/logs")
      && c.quartHost == FirstNonEmpty([args.quartHost, GetEnv(env, "QUART_HOST")], "127.0.0.1")
      && c.dbConnSync == FirstNonEmpty([args.databaseConnSync, GetEnv(env, "DB_CONN_SYNC")], "")
      && c.dbConnAsync == FirstNonEmpty([args.databaseConnAsync, GetEnv(env, "DB_CONN_ASYNC")], "")
      && c.quartSecretKey == FirstNonEmpty([args.quartSecretKey, GetEnv(env, "QUART_SECRET_KEY")], "")
  {
    ChainIsFirstNonEmpty(args.environment, GetEnv(env, "ENVIRONMENT"), "production");
    ChainIsFirstNonEmpty(args.pathBackups, GetEnv(env, "PATH_BACKUPS"), "/backups");
    ChainIsFirstNonEmpty(args.pathLogs, GetEnv(env, "PATH_LOGS"), "/logs");
    ChainIsFirstNonEmpty(args.quartHost, GetEnv(env, "QUART_HOST"), "127.0.0.1");
    ChainIsFirstNonEmpty(args.databaseConnSync, GetEnv(env, "DB_CONN_SYNC"), "");
    ChainIsFirstNonEmpty(args.databaseConnAsync, GetEnv(env, "DB_CONN_ASYNC"), "");
    ChainIsFirstNonEmpty(args.quartSecretKey, GetEnv(env, "QUART_SECRET_KEY"), "");
  }

  /** `(option or variable or default)` is the first non-empty of the three. */
  lemma ChainIsFirstNonEmpty(option: Option<string>, variable: Option<string>, default: string)
    ensures Truthy(Or(option, variable)) ==> Or(option, variable).value == FirstNonEmpty([option, variable], default)
    ensures Or(Or(option, variable), Some(default)).value == FirstNonEmpty([option, variable], default)
  {
    assert [option, variable][1..] == [variable];
    assert [variable][1..] == [];
  }

  /** The default environment name is already lower case. */
  lemma DefaultEnvironmentIsLowerCase()
    ensures Lower("production") == "production"
  {
  }

  /** `ENVIRONMENT` is lower case and is `production` unless set. */
  lemma EnvironmentIsLowerCase(args: Args, env: Environ)
    requires Resolve(args, env).Success?
    ensures var e := Resolve(args, env).value.environment;
      forall k :: 0 <= k < |e| ==> !('A' <= e[k] <= 'Z')
    ensures !Truthy(args.environment) && !Truthy(GetEnv(env, "ENVIRONMENT")) ==>
      Resolve(args, env).value.environment == "production"
  {
    if !Truthy(args.environment) && !Truthy(GetEnv(env, "ENVIRONMENT")) {
      assert Setting(args.environment, env, "ENVIRONMENT", "production") == "production";
      DefaultEnvironmentIsLowerCase();
    }
  }

  /** `DEBUG` is on with the flag or with any non-empty variable, `"false"` included. */
  lemma DebugFlag(args: Args, env: Environ)
    requires Resolve(args, env).Success?
    ensures Resolve(args, env).value.debug <==> args.debug || ("DEBUG" in env && env["DEBUG"] != "")
    ensures GetEnv(env, "DEBUG") == Some("false") ==> Resolve(args, env).value.debug
  {
  }

  /** With nothing given, the defaults apply. */
  lemma Defaults(args: Args, env: Environ)
    requires Resolve(args, env).Success?
    requires args.pathBackups.None? && args.pathLogs.None? && args.quartHost.None? && args.quartPort.None?
    requires "PATH_BACKUPS" !in env && "PATH_LOGS" !in env && "QUART_HOST" !in env && "QUART_PORT" !in env
    ensures var c := Resolve(args, env).value;
      c.pathBackups == "/backups" && c.pathLogs == "/logs" && c.quartHost == "127.0.0.1" && c.quartPort == 5000
  {
  }

  /**
   * Resolution raises exactly when the port is unreadable or a required
   * setting is missing or empty; the first failing check, in source order,
   * is the one reported.
   */
  lemma ResolveFailures(args: Args, env: Environ)
    ensures var sync := Or(args.databaseConnSync, GetEnv(env, "DB_CONN_SYNC"));
      var async := Or(args.databaseConnAsync, GetEnv(env, "DB_CONN_ASYNC"));
      var secret := Or(args.quartSecretKey, GetEnv(env, "QUART_SECRET_KEY"));
      var port := QuartPortIntended(args.quartPort, env);
      && (Resolve(args, env).Failure? <==> port.Failure? || !Truthy(sync) || !Truthy(async) || !Truthy(secret))
      && (port.Success? && !Truthy(sync) ==> Resolve(args, env) == Failure(NoSyncConnection))
      && (port.Success? && Truthy(sync) && !Truthy(async) ==> Resolve(args, env) == Failure(NoAsyncConnection))
      && (port.Success? && Truthy(sync) && Truthy(async) && !Truthy(secret) ==>
            Resolve(args, env) == Failure(NoSecretKey))
  {
  }

  /**
   * The text of the exception that ends resolution: `int()`'s complaint
   * quoting the `QUART_PORT` variable, or the message of the first required
   * setting that is missing.
   */
  lemma ResolveErrorMessages(args: Args, env: Environ)
    requires Resolve(args, env).Failure?
    ensures var port := QuartPortIntended(args.quartPort, env);
      var message := ErrorMessage(Resolve(args, env).error);
      && (port.Failure? ==>
            "QUART_PORT" in env && message == "invalid literal for int() with base 10: '" + env["QUART_PORT"] + "'")
      && (port.Success? && !Truthy(Or(args.databaseConnSync, GetEnv(env, "DB_CONN_SYNC"))) ==>
            message == "No sync database connection string specified!")
      && (port.Success? && Truthy(Or(args.databaseConnSync, GetEnv(env, "DB_CONN_SYNC")))
          && !Truthy(Or(args.databaseConnAsync, GetEnv(env, "DB_CONN_ASYNC"))) ==>
            message == "No async database connection string specified!")
      && (port.Success? && Truthy(Or(args.databaseConnSync, GetEnv(env, "DB_CONN_SYNC")))
          && Truthy(Or(args.databaseConnAsync, GetEnv(env, "DB_CONN_ASYNC"))) ==>
            message == "No secret key specified!")
  {
  }
}
