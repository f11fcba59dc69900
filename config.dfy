/**
 * The bot's configuration, read once from the environment. The environment
 * is a map from variable name to value; an unset variable is absent.
 */
module Config {
  type Env = map<string, string>

  datatype Config = Config(
    botToken: string, devGuildId: string,
    mongoDBURL: string, dbName: string,
    mqttHost: string, mqttPort: string, mqttUser: string, mqttPassword: string,
    port: string, environment: string,
    errorWebhook: string, logsWebhook: string, logsWebServerHook: string, guildsWebhook: string,
    linkServer: string, linkPassword: string)
  {
    /** `IsProd`. */
    predicate IsProd() {
      environment == "prod"
    }
  }

  /** `getEnv`: the variable's value when it is set and non-empty, otherwise the default. */
  function GetEnv(env: Env, key: string, default: string): (v: string)
    ensures key in env && env[key] != "" ==> v == env[key]
    ensures key !in env || env[key] == "" ==> v == default
    ensures v == "" ==> default == ""
  {
    if key in env && env[key] != "" then env[key] else default
  }

  /** `loadConfig`: every field from its variable (note the spelling "enviroment"), with its default. */
  function LoadConfig(env: Env): Config
  {
    Config(
      GetEnv(env, "botToken", ""), GetEnv(env, "devGuildId", ""),
      GetEnv(env, "mongodbUrl", "mongodb://localhost:27017"), GetEnv(env, "dbName", "PancyBot"),
      GetEnv(env, "MQTT_Host", "localhost"), GetEnv(env, "MQTT_Port", "1883"),
      GetEnv(env, "MQTT_User", ""), GetEnv(env, "MQTT_Password", ""),
      GetEnv(env, "PORT", "3000"), GetEnv(env, "enviroment", "dev"),
      GetEnv(env, "errorWebhook", ""), GetEnv(env, "logsWebhook", ""),
      GetEnv(env, "logsWebServerWebhook", ""), GetEnv(env, "guildsWebhook", ""),
      GetEnv(env, "linkserver", "localhost"), GetEnv(env, "linkpassword", ""))
  }

  /** With nothing set, every field takes its default, and the bot is not in production. */
  lemma Defaults()
    ensures var c := LoadConfig(map[]);
      c.mongoDBURL == "mongodb://localhost:27017" && c.dbName == "PancyBot"
      && c.mqttHost == "localhost" && c.mqttPort == "1883" && c.port == "3000"
      && c.environment == "dev" && c.linkServer == "localhost" && c.botToken == ""
      && !c.IsProd()
  {
  }

  /** An empty variable counts as unset. */
  lemma EmptyIsUnset(env: Env, key: string)
    requires key in env && env[key] == ""
    ensures LoadConfig(env) == LoadConfig(env - {key})
  {
    forall k, d | true ensures GetEnv(env, k, d) == GetEnv(env - {key}, k, d) {
      if k == key {
        assert k !in env - {key};
      }
    }
  }

  /** Production is chosen exactly by setting "enviroment" to "prod". */
  lemma IsProdFromEnv(env: Env)
    ensures LoadConfig(env).IsProd() <==> "enviroment" in env && env["enviroment"] == "prod"
  {
  }

  /** Whether the field `value` is what the environment sets `key` to, when it sets it to anything non-empty. */
  predicate Takes(env: Env, key: string, value: string)
  {
    key in env && env[key] != "" ==> value == env[key]
  }

  /**
   * In every environment, each variable that is set and non-empty is the
   * value loaded for its field, whatever else is set.
   */
  lemma SetValuesWin(env: Env)
    ensures var c := LoadConfig(env);
      Takes(env, "botToken", c.botToken) && Takes(env, "devGuildId", c.devGuildId)
      && Takes(env, "mongodbUrl", c.mongoDBURL) && Takes(env, "dbName", c.dbName)
      && Takes(env, "MQTT_Host", c.mqttHost) && Takes(env, "MQTT_Port", c.mqttPort)
      && Takes(env, "MQTT_User", c.mqttUser) && Takes(env, "MQTT_Password", c.mqttPassword)
      && Takes(env, "PORT", c.port) && Takes(env, "enviroment", c.environment)
      && Takes(env, "errorWebhook", c.errorWebhook) && Takes(env, "logsWebhook", c.logsWebhook)
      && Takes(env, "logsWebServerWebhook", c.logsWebServerHook) && Takes(env, "guildsWebhook", c.guildsWebhook)
      && Takes(env, "linkserver", c.linkServer) && Takes(env, "linkpassword", c.linkPassword)
  {
  }

  /** The global configuration behind `Load` and `Get`, loaded by the first of them. */
  class ConfigHolder {
    var cfg: Config
    var loaded: bool

    constructor()
      ensures !loaded
    {
      loaded := false;
      cfg := LoadConfig(map[]);
    }

    /**
     * `Load` / `Get`: the first call loads from `env`; every later call returns
     * the configuration already loaded, whatever the environment is now.
     */
    method Get(env: Env) returns (c: Config)
      modifies this
      ensures loaded && c == cfg
      ensures old(loaded) ==> cfg == old(cfg)
      ensures !old(loaded) ==> cfg == LoadConfig(env)
    {
      if !loaded {
        cfg := LoadConfig(env);
        loaded := true;
      }
      return cfg;
    }
  }
}
