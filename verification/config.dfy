/**
  Configuration default resolution, shared (up to the default intents) by the
  gateway client's constructor and the REST client's constructor, and the REST
  client's request-path composition.
 */
module Config {
  import opened Js

  datatype ApiConfig = ApiConfig(host: Value, basePath: Value, port: Value)

  datatype ClientConfig = ClientConfig(
    api: ApiConfig,
    gatewayQuery: Value,
    defaultPresence: Value,
    intents: Value,
    cache: Value)

  /** Default intents of the gateway client. */
  const GatewayIntents: int := 32641
  /** Default intents of the REST client: a different constant. */
  const ApiClientIntents: int := 32767

  /** The presence used when the caller supplies none. */
  const DefaultPresence: Value :=
    Obj(map["since" := Null, "activities" := Arr([]), "status" := Str("online"), "afk" := Bool(false)])

  /** No field of a resolved configuration is `undefined`. */
  predicate FullyDefined(c: ClientConfig)
  {
    && c.api.host != Undefined && c.api.basePath != Undefined && c.api.port != Undefined
    && c.gatewayQuery != Undefined && c.defaultPresence != Undefined
    && c.intents != Undefined && c.cache != Undefined
  }

  /**
    The object literal both constructors build from `config` (which is `null`
    when the caller passes nothing). Every field is read with optional chaining
    and replaced by its default when it is `undefined`.
   */
  function Resolve(config: Value, defaultIntents: int): (c: ClientConfig)
    ensures FullyDefined(c)
  {
    var api := Get(config, "api");
    var presence := Get(config, "defaultPresence");
    ClientConfig(
      ApiConfig(
        IfDefined(Get(api, "host"), Str("discord.com")),
        IfDefined(Get(api, "basePath"), Str("/api/v9")),
        IfDefined(Get(api, "port"), Num(443))),
      IfDefined(Get(config, "gatewayQuery"), Str("/gateway")),
      // the inner look-ups only run when `presence` is undefined
      IfDefined(presence, Obj(map[
        "since" := IfDefined(Get(presence, "since"), Null),
        "activities" := IfDefined(Get(presence, "activities"), Arr([])),
        "status" := IfDefined(Get(presence, "status"), Str("online")),
        "afk" := IfDefined(Get(presence, "afk"), Bool(false))])),
      IfDefined(Get(config, "intents"), Num(defaultIntents)),
      IfDefined(Get(config, "cache"), Bool(true)))
  }

  /** The gateway client's configuration. */
  function GatewayConfig(config: Value): ClientConfig
  {
    Resolve(config, GatewayIntents)
  }

  /** The resolved configuration as the object the gateway client hands on. */
  function ToValue(c: ClientConfig): Value
  {
    Obj(map[
      "api" := Obj(map["host" := c.api.host, "basePath" := c.api.basePath, "port" := c.api.port]),
      "gatewayQuery" := c.gatewayQuery,
      "defaultPresence" := c.defaultPresence,
      "intents" := c.intents,
      "cache" := c.cache])
  }

  /**
    Each field takes the caller's value exactly when that value is not
    `undefined`, and its default when it is, field by field, so a partial
    configuration such as `{intents: 5}` keeps every other default.
   */
  lemma CallerValueOrDefault(config: Value, defaultIntents: int)
    ensures var c := Resolve(config, defaultIntents);
      var api := Get(config, "api");
      && (Get(api, "host") != Undefined <==> c.api.host == Get(api, "host"))
      && (Get(api, "basePath") != Undefined <==> c.api.basePath == Get(api, "basePath"))
      && (Get(api, "port") != Undefined <==> c.api.port == Get(api, "port"))
      && (Get(config, "gatewayQuery") != Undefined <==> c.gatewayQuery == Get(config, "gatewayQuery"))
      && (Get(config, "defaultPresence") != Undefined <==> c.defaultPresence == Get(config, "defaultPresence"))
      && (Get(config, "intents") != Undefined <==> c.intents == Get(config, "intents"))
      && (Get(config, "cache") != Undefined <==> c.cache == Get(config, "cache"))
    ensures var c := Resolve(config, defaultIntents);
      var api := Get(config, "api");
      && (Get(api, "host") == Undefined ==> c.api.host == Str("discord.com"))
      && (Get(api, "basePath") == Undefined ==> c.api.basePath == Str("/api/v9"))
      && (Get(api, "port") == Undefined ==> c.api.port == Num(443))
      && (Get(config, "gatewayQuery") == Undefined ==> c.gatewayQuery == Str("/gateway"))
      && (Get(config, "defaultPresence") == Undefined ==> c.defaultPresence == DefaultPresence)
      && (Get(config, "intents") == Undefined ==> c.intents == Num(defaultIntents))
      && (Get(config, "cache") == Undefined ==> c.cache == Bool(true))
  {
  }

  /**
    Without a caller presence the presence is the fixed default object: the
    per-field fallbacks inside it can never see a caller value.
   */
  lemma AbsentPresenceIsDefault(config: Value, defaultIntents: int)
    requires Get(config, "defaultPresence") == Undefined
    ensures Resolve(config, defaultIntents).defaultPresence == DefaultPresence
  {
  }

  /** Passing nothing (`null`), `undefined` or `{}` gives every documented default. */
  lemma EmptyConfigDefaults(config: Value, defaultIntents: int)
    requires config == Null || config == Undefined || config == Obj(map[])
    ensures Resolve(config, defaultIntents) ==
      ClientConfig(ApiConfig(Str("discord.com"), Str("/api/v9"), Num(443)),
        Str("/gateway"), DefaultPresence, Num(defaultIntents), Bool(true))
  {
  }

  /**
    Resolving an already resolved configuration again changes nothing, whatever
    the second default intents are. This is what the REST client built by the
    gateway client does.
   */
  lemma ResolveIdempotent(config: Value, first: int, second: int)
    ensures Resolve(ToValue(Resolve(config, first)), second) == Resolve(config, first)
  {
    var c := Resolve(config, first);
    var v := ToValue(c);
    ToValueFields(c);
    var r := Resolve(v, second);
    assert r.api == c.api;
    assert r.defaultPresence == c.defaultPresence;
  }

  /** Reading the fields back out of `ToValue`. */
  lemma ToValueFields(c: ClientConfig)
    ensures var v := ToValue(c);
      var api := Get(v, "api");
      && Get(api, "host") == c.api.host && Get(api, "basePath") == c.api.basePath && Get(api, "port") == c.api.port
      && Get(v, "gatewayQuery") == c.gatewayQuery && Get(v, "defaultPresence") == c.defaultPresence
      && Get(v, "intents") == c.intents && Get(v, "cache") == c.cache
  {
    var api := Get(ToValue(c), "api");
    assert api == Obj(map["host" := c.api.host, "basePath" := c.api.basePath, "port" := c.api.port]);
  }

  /** The two constructors differ only in the default intents. */
  lemma DefaultIntentsDiffer(config: Value)
    ensures Resolve(config, GatewayIntents).(intents := Null) == Resolve(config, ApiClientIntents).(intents := Null)
    ensures Get(config, "intents") == Undefined ==>
      Resolve(config, GatewayIntents).intents == Num(32641) &&
      Resolve(config, ApiClientIntents).intents == Num(32767)
  {
  }

  /** The REST client: a credential and its own resolved configuration. */
  datatype ApiClient = ApiClient(token: Value, config: ClientConfig)

  /** `new ApiClient(token, config)`. */
  function NewApiClient(token: Value, config: Value): (client: ApiClient)
    ensures client.token == token
    ensures FullyDefined(client.config)
  {
    ApiClient(token, Resolve(config, ApiClientIntents))
  }

  /** The REST client the gateway client builds keeps the gateway client's configuration. */
  lemma GatewayApiClientConfig(token: Value, config: Value)
    ensures NewApiClient(token, ToValue(GatewayConfig(config))).config == GatewayConfig(config)
    ensures Get(config, "intents") == Undefined ==>
      NewApiClient(token, ToValue(GatewayConfig(config))).config.intents == Num(GatewayIntents)
  {
    ResolveIdempotent(config, GatewayIntents, ApiClientIntents);
  }

  /** `basePath + path` for a request path: the base path, converted to a string, then the path. */
  function RequestPath(client: ApiClient, path: string): (p: string)
    ensures var base := ToString(client.config.api.basePath);
      |p| == |base| + |path| && p[..|base|] == base && p[|base|..] == path
  {
    ToString(client.config.api.basePath) + path
  }

  /**
    For any configuration and path, a request goes to the caller's string base
    path followed by the path, or to `/api/v9` followed by the path when the
    caller gives no base path.
   */
  lemma RequestPathOfConfig(token: Value, config: Value, path: string)
    ensures var base := Get(Get(config, "api"), "basePath");
      var client := NewApiClient(token, config);
      && (base.Str? ==> RequestPath(client, path) == base.s + path)
      && (base == Undefined ==> RequestPath(client, path) == "/api/v9" + path)
  {
    CallerValueOrDefault(config, ApiClientIntents);
  }

  /** With the defaults, endpoint discovery requests `/api/v9/gateway`. */
  lemma DefaultDiscoveryPath(token: Value)
    ensures var client := NewApiClient(token, ToValue(GatewayConfig(Null)));
      && client.config.gatewayQuery == Str("/gateway")
      && RequestPath(client, "/gateway") == "/api/v9/gateway"
  {
    GatewayApiClientConfig(token, Null);
    EmptyConfigDefaults(Null, GatewayIntents);
    var client := NewApiClient(token, ToValue(GatewayConfig(Null)));
    assert client.config.api.basePath == Str("/api/v9");
    assert ToString(Str("/api/v9")) == "/api/v9";
  }
}
