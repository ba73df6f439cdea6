/**
 * The server configuration read from the environment (src/config/env.js):
 * a missing `MONGO_URI` stops the server, every other setting falls back to
 * a development default when its variable is unset or empty, and the CORS
 * origins come from the comma-separated `CLIENT_URL`.
 */
module Config {
  import opened Wrappers
  import opened Text

  /** The process environment: variable name to value. */
  type Env = map<string, string>

  /** JavaScript's truthiness of `process.env[name]`: set and not the empty string. */
  predicate IsSet(env: Env, name: string) {
    name in env && env[name] != ""
  }

  /** `process.env[name] || fallback`. */
  function Setting(env: Env, name: string, fallback: string): (v: string)
    ensures IsSet(env, name) ==> v == env[name]
    ensures !IsSet(env, name) ==> v == fallback
    ensures fallback != "" ==> v != ""
  {
    if IsSet(env, name) then env[name] else fallback
  }

  /** `process.env.PORT || 5000`: the variable's text, or the number 5000. */
  datatype Port = PortText(text: string) | PortNumber(number: nat)

  datatype JwtSettings = JwtSettings(secret: string, refreshSecret: string, expiresIn: string, refreshExpiresIn: string)

  datatype Settings = Settings(port: Port, nodeEnv: string, mongoUri: string, jwt: JwtSettings, origins: seq<string>)

  /** The fatal start-up error: the process exits when `MONGO_URI` is missing. */
  datatype StartupError = MissingMongoUri

  /** The start-up warning about running production with the default token secret. */
  predicate WarnsDefaultSecret(env: Env) {
    "NODE_ENV" in env && env["NODE_ENV"] == "production" && !IsSet(env, "JWT_SECRET")
  }

  const DefaultOrigins: seq<string> :=
    ["http://localhost:3000", "http://localhost:5173", "http://127.0.0.1:3000", "http://127.0.0.1:5173"]

  /** `getAllowedOrigins`: the local development origins, or each comma-separated piece of `CLIENT_URL`, trimmed. */
  function AllowedOrigins(env: Env): (origins: seq<string>)
    ensures !IsSet(env, "CLIENT_URL") ==> origins == DefaultOrigins
    ensures IsSet(env, "CLIENT_URL") ==>
      var parts := Split(env["CLIENT_URL"], ',');
      && |origins| == Occurrences(env["CLIENT_URL"], ',') + 1
      && forall i :: 0 <= i < |origins| ==> origins[i] == Trim(parts[i]) && ',' !in origins[i]
  {
    if !IsSet(env, "CLIENT_URL") then DefaultOrigins
    else
      var parts := Split(env["CLIENT_URL"], ',');
      seq(|parts|, i requires 0 <= i < |parts| => TrimNoSeparator(parts[i]))
  }

  /** Trimming a piece keeps it free of separators. */
  function TrimNoSeparator(part: string): (t: string)
    requires ',' !in part
    ensures t == Trim(part) && ',' !in t
  {
    var t := Trim(part);
    assert forall k :: 0 <= k < |t| ==> t[k] == part[Leading(part) + k];
    t
  }

  /** No origin carries white space at either end. */
  lemma OriginsAreTrimmed(env: Env, i: int)
    requires 0 <= i < |AllowedOrigins(env)|
    ensures Trim(AllowedOrigins(env)[i]) == AllowedOrigins(env)[i]
  {
    if IsSet(env, "CLIENT_URL") {
      TrimIdempotent(Split(env["CLIENT_URL"], ',')[i]);
    } else {
      assert Trim(AllowedOrigins(env)[i]) == AllowedOrigins(env)[i] by {
        var o := AllowedOrigins(env)[i];
        assert o == [] || (!IsSpace(o[0]) && !IsSpace(o[|o| - 1]));
        TrimStartFixed(o);
        TrimEndFixed(o);
      }
    }
  }

  /** A string without white space at its end is its own `TrimEnd`. */
  lemma {:induction false} TrimEndFixed(s: string)
    requires s == [] || !IsSpace(s[|s| - 1])
    ensures TrimEnd(s) == s
  {
  }

  /**
   * When no piece of `CLIENT_URL` has white space around it, the origins
   * joined with commas give `CLIENT_URL` back.
   */
  lemma OriginsJoinBack(env: Env)
    requires IsSet(env, "CLIENT_URL")
    requires forall i :: 0 <= i < |Split(env["CLIENT_URL"], ',')| ==>
      Trim(Split(env["CLIENT_URL"], ',')[i]) == Split(env["CLIENT_URL"], ',')[i]
    ensures Join(AllowedOrigins(env), ',') == env["CLIENT_URL"]
  {
    var parts := Split(env["CLIENT_URL"], ',');
    assert AllowedOrigins(env) == parts;
    JoinSplit(env["CLIENT_URL"], ',');
  }

  /** The module's exported settings, or the fatal error. */
  function Load(env: Env): (r: Result<Settings, StartupError>)
    ensures r.Failure? <==> !IsSet(env, "MONGO_URI")
    ensures r.Success? ==> r.value.mongoUri == env["MONGO_URI"] && r.value.origins == AllowedOrigins(env)
    ensures r.Success? ==> r.value.jwt.secret != "" && r.value.jwt.refreshSecret != ""
    ensures r.Success? && IsSet(env, "PORT") ==> r.value.port == PortText(env["PORT"])
    ensures r.Success? && !IsSet(env, "PORT") ==> r.value.port == PortNumber(5000)
    ensures r.Success? ==> r.value.nodeEnv == Setting(env, "NODE_ENV", "development")
    ensures r.Success? ==>
      && r.value.jwt.secret == Setting(env, "JWT_SECRET", "default-secret-key")
      && r.value.jwt.refreshSecret == Setting(env, "JWT_REFRESH_SECRET", "default-refresh-secret")
      && r.value.jwt.expiresIn == Setting(env, "JWT_EXPIRES_IN", "1h")
      && r.value.jwt.refreshExpiresIn == Setting(env, "JWT_REFRESH_EXPIRES_IN", "7d")
  {
    if !IsSet(env, "MONGO_URI") then Failure(MissingMongoUri)
    else
      Success(Settings(
        if IsSet(env, "PORT") then PortText(env["PORT"]) else PortNumber(5000),
        Setting(env, "NODE_ENV", "development"),
        env["MONGO_URI"],
        JwtSettings(
          Setting(env, "JWT_SECRET", "default-secret-key"),
          Setting(env, "JWT_REFRESH_SECRET", "default-refresh-secret"),
          Setting(env, "JWT_EXPIRES_IN", "1h"),
          Setting(env, "JWT_REFRESH_EXPIRES_IN", "7d")),
        AllowedOrigins(env)))
  }

  /** With only `MONGO_URI` set, every other setting is its development default. */
  lemma OnlyMongoUriGivesDefaults(uri: string)
    requires uri != ""
    ensures Load(map["MONGO_URI" := uri]) == Success(Settings(
      PortNumber(5000), "development", uri,
      JwtSettings("default-secret-key", "default-refresh-secret", "1h", "7d"),
      DefaultOrigins))
  {
  }

  /**
   * The warning about production and the default secret is exactly the
   * case in which production runs with the default token secret.
   */
  lemma WarningMeansDefaultSecret(env: Env)
    requires Load(env).Success?
    ensures WarnsDefaultSecret(env) <==>
      Load(env).value.nodeEnv == "production" && Load(env).value.jwt.secret == "default-secret-key"
      && !(IsSet(env, "JWT_SECRET") && env["JWT_SECRET"] == "default-secret-key")
  {
  }
}
