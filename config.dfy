/** SMTP configuration and how it is read from the process environment
    (`SMTPConfig` and `get_smtp_config_from_env` in server.py). */
module Config {
  import opened Wrappers
  import opened Strings

  /** The process environment: variable name to value. */
  type Env = map<string, string>

  /** `SMTPConfig`: host, port, implicit-TLS flag, credentials and sender. */
  datatype SmtpConfig = SmtpConfig(
    host: string,
    port: int,
    secure: bool,
    auth: map<string, string>,
    fromEmail: string)

  const DefaultPort: nat := 587

  /** What reading the environment produces: no configuration (a required
      variable is missing), the `ValueError` of `int()` on `SMTP_PORT`, or a
      configuration. */
  datatype EnvConfig = NoConfig | InvalidPort(raw: string) | Found(config: SmtpConfig)

  /** `os.getenv(key, default)`. */
  function GetEnv(env: Env, key: string, default: string): (v: string)
    ensures key in env ==> v == env[key]
    ensures key !in env ==> v == default
  {
    if key in env then env[key] else default
  }

  /** `os.getenv(key)` is truthy: the variable is set and not empty. */
  predicate IsSet(env: Env, key: string)
  {
    key in env && env[key] != ""
  }

  /** All four variables without which no configuration is built. */
  predicate HasRequired(env: Env)
  {
    IsSet(env, "SMTP_HOST") && IsSet(env, "SMTP_USER") && IsSet(env, "SMTP_FROM") && IsSet(env, "SMTP_PASS")
  }

  /** `get_smtp_config_from_env`. */
  function SmtpConfigFromEnv(env: Env): (r: EnvConfig)
    ensures r.NoConfig? <==> !HasRequired(env)
    ensures r.InvalidPort? <==>
      HasRequired(env) && "SMTP_PORT" in env && ParseNat(env["SMTP_PORT"]).None?
    ensures r.InvalidPort? ==> r.raw == env["SMTP_PORT"]
    ensures r.Found? ==>
      && r.config.host == env["SMTP_HOST"]
      && r.config.fromEmail == env["SMTP_FROM"]
      && r.config.auth == map["user" := env["SMTP_USER"], "pass" := env["SMTP_PASS"]]
    ensures r.Found? && "SMTP_PORT" !in env ==> r.config.port == 587
    ensures r.Found? && "SMTP_PORT" in env ==> ParseNat(env["SMTP_PORT"]) == Some(r.config.port)
    ensures r.Found? ==> (r.config.secure <==> "SMTP_SECURE" in env && SpellsTrue(env["SMTP_SECURE"]))
  {
    if !HasRequired(env) then NoConfig
    else
      var rawPort := GetEnv(env, "SMTP_PORT", "587");
      ParseShowNat(DefaultPort);
      assert ShowNat(DefaultPort) == "587";
      match ParseNat(rawPort)
      case None => InvalidPort(rawPort)
      case Some(port) =>
        var rawSecure := GetEnv(env, "SMTP_SECURE", "false");
        LowerIsTrue(rawSecure);
        Found(SmtpConfig(
          host := env["SMTP_HOST"],
          port := port,
          secure := Lower(rawSecure) == "true",
          auth := map["user" := env["SMTP_USER"], "pass" := env["SMTP_PASS"]],
          fromEmail := env["SMTP_FROM"]))
  }

  /** A configuration read from the environment always carries both
      credentials, so the `auth['user']` and `auth['pass']` lookups of the
      send and test paths cannot fail on it. */
  lemma EnvConfigHasCredentials(env: Env)
    requires SmtpConfigFromEnv(env).Found?
    ensures "user" in SmtpConfigFromEnv(env).config.auth && "pass" in SmtpConfigFromEnv(env).config.auth
    ensures SmtpConfigFromEnv(env).config.auth["user"] != "" && SmtpConfigFromEnv(env).config.auth["pass"] != ""
  {
  }

  /** Variables other than the six the reader looks at make no difference. */
  lemma OnlySmtpVariablesMatter(env: Env, key: string, value: string)
    requires key !in {"SMTP_HOST", "SMTP_USER", "SMTP_FROM", "SMTP_PASS", "SMTP_PORT", "SMTP_SECURE"}
    ensures SmtpConfigFromEnv(env[key := value]) == SmtpConfigFromEnv(env)
  {
  }
}
