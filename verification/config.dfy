/** Configuration (src/infrastructure/config.ts): the required environment
    variables are checked in list order, the first one that is unset stops the
    program, and otherwise each configuration field is read from its variable.
    The environment is an explicit map; a key outside the map is unset. */
module Infrastructure {
  import opened Wrappers

  /** The process environment after `.env` loading. */
  type Env = map<string, string>

  /** The required variables, in the order they are checked. */
  const RequiredEnvVars: seq<string> := [
    "TRUSTPILOT_AFS_EMAIL",
    "SMTP_HOST",
    "SMTP_PORT",
    "SMTP_USER",
    "SMTP_PASSWORD",
    "SENDER_NAME",
    "SENDER_EMAIL"
  ]

  /** A variable counts as set when it is present and not the empty string. */
  predicate IsSet(env: Env, key: string)
  {
    key in env && |env[key]| > 0
  }

  /** The validation loop: the first key of `keys` that is not set, or None
      when every key is set. */
  function FirstMissing(env: Env, keys: seq<string>): (r: Option<string>)
    ensures r.None? <==> forall k :: 0 <= k < |keys| ==> IsSet(env, keys[k])
    ensures r.Some? ==>
      exists i :: 0 <= i < |keys| && keys[i] == r.value && !IsSet(env, keys[i]) &&
        forall j :: 0 <= j < i ==> IsSet(env, keys[j])
  {
    if |keys| == 0 then None
    else if !IsSet(env, keys[0]) then Some(keys[0])
    else FirstMissing(env, keys[1..])
  }

  /** The typed configuration object. The port is kept as the text of
      SMTP_PORT; its decimal conversion is not modelled. */
  datatype Config = Config(
    smtpHost: string,
    smtpPort: string,
    smtpUser: string,
    smtpPassword: string,
    senderName: string,
    senderEmail: string,
    afsEmail: string)

  /** The fail-fast exit of the validation loop, naming the variable. */
  datatype ConfigError = MissingEnvironmentVariable(key: string)

  /** Loading the configuration: validation first, then the field mapping. */
  function LoadConfig(env: Env): (r: Result<Config, ConfigError>)
    ensures r.Success? <==> forall k :: 0 <= k < |RequiredEnvVars| ==> IsSet(env, RequiredEnvVars[k])
    ensures r.Failure? ==> FirstMissing(env, RequiredEnvVars) == Some(r.error.key)
    ensures r.Success? ==> EnvOf(r.value) == env - (env.Keys - set k | k in RequiredEnvVars)
  {
    match FirstMissing(env, RequiredEnvVars)
    case Some(key) => Failure(MissingEnvironmentVariable(key))
    case None =>
      assert forall k :: 0 <= k < 7 ==> IsSet(env, RequiredEnvVars[k]);
      assert IsSet(env, RequiredEnvVars[0]) && IsSet(env, RequiredEnvVars[1]) && IsSet(env, RequiredEnvVars[2])
        && IsSet(env, RequiredEnvVars[3]) && IsSet(env, RequiredEnvVars[4]) && IsSet(env, RequiredEnvVars[5])
        && IsSet(env, RequiredEnvVars[6]);
      var cfg := Config(
        env["SMTP_HOST"],
        env["SMTP_PORT"],
        env["SMTP_USER"],
        env["SMTP_PASSWORD"],
        env["SENDER_NAME"],
        env["SENDER_EMAIL"],
        env["TRUSTPILOT_AFS_EMAIL"]);
      Success(cfg)
  }

  /** The environment a configuration is read from: each field under the
      name of its variable. */
  function EnvOf(cfg: Config): Env
  {
    map[
      "TRUSTPILOT_AFS_EMAIL" := cfg.afsEmail,
      "SMTP_HOST" := cfg.smtpHost,
      "SMTP_PORT" := cfg.smtpPort,
      "SMTP_USER" := cfg.smtpUser,
      "SMTP_PASSWORD" := cfg.smtpPassword,
      "SENDER_NAME" := cfg.senderName,
      "SENDER_EMAIL" := cfg.senderEmail]
  }

  /** Every field of the configuration is non-empty text. */
  predicate Complete(cfg: Config)
  {
    && |cfg.smtpHost| > 0 && |cfg.smtpPort| > 0 && |cfg.smtpUser| > 0 && |cfg.smtpPassword| > 0
    && |cfg.senderName| > 0 && |cfg.senderEmail| > 0 && |cfg.afsEmail| > 0
  }

  /** Loading the environment of a complete configuration gives that
      configuration back, whatever other variables are present. */
  lemma LoadConfigOfEnv(cfg: Config, extra: Env)
    requires Complete(cfg)
    ensures LoadConfig(extra + EnvOf(cfg)) == Success(cfg)
  {
    var env := extra + EnvOf(cfg);
    assert env.Keys >= EnvOf(cfg).Keys;
    forall k | 0 <= k < |RequiredEnvVars|
      ensures IsSet(env, RequiredEnvVars[k])
    {
      assert RequiredEnvVars[k] in EnvOf(cfg);
    }
  }

  /** The seven required names are distinct, so the required key set has
      exactly seven members. */
  lemma RequiredKeysAreSeven()
    ensures |RequiredEnvVars| == 7
    ensures forall i, j :: 0 <= i < j < |RequiredEnvVars| ==> RequiredEnvVars[i] != RequiredEnvVars[j]
  {
  }
}
