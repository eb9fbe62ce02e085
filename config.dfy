/**
 * The typed configuration and its projection from the configuration
 * registry, the three error kinds of loading the configuration files, and a
 * rendering of a configuration back into registry entries.
 */
module Config {
  import opened Wrappers
  import Viper

  datatype Environment = Local | Dev | Staging | Prod

  /** Declared in this order in the source, so the zero value is Libsql. */
  datatype StorageType = Libsql | Sqlite | Postgres

  datatype CacheType = Redis

  datatype HeartbeatConfig = HeartbeatConfig(enabled: bool, endpoint: string)

  datatype ServerConfig = ServerConfig(hidden: bool, port: Viper.uint16, heartbeat: HeartbeatConfig, security: bool)

  datatype StorageConfig = StorageConfig(enabled: bool, storageType: StorageType, dsn: string)

  datatype CacheConfig = CacheConfig(enabled: bool, cacheType: CacheType, dsn: string)

  datatype R2Config = R2Config(enabled: bool, accountId: string, accessKeyId: string, accessKeySecret: string)

  datatype Config = Config(
    environment: Environment,
    debug: bool,
    server: ServerConfig,
    storage: StorageConfig,
    cache: CacheConfig,
    r2: R2Config)

  /** The configuration before any setter has run: every field at its zero value. */
  const ZeroConfig: Config :=
    Config(Local, false,
           ServerConfig(false, 0, HeartbeatConfig(false, ""), false),
           StorageConfig(false, Libsql, ""),
           CacheConfig(false, Redis, ""),
           R2Config(false, "", "", ""))

  const EnvironmentKey := "draken.environment"
  const DebugKey := "draken.debug"
  const PortKey := "draken.server.port"
  const HiddenKey := "draken.server.hidden"
  const SecurityKey := "draken.server.security"
  const HeartbeatEnabledKey := "draken.server.heartbeat.enabled"
  const HeartbeatEndpointKey := "draken.server.heartbeat.endpoint"
  const StorageEnabledKey := "draken.storage.enabled"
  const StorageTypeKey := "draken.storage.type"
  const LibsqlDsnKey := "draken.storage.libsql.dsn"
  const PostgresDsnKey := "draken.storage.postgres.dsn"
  const CacheEnabledKey := "draken.cache.enabled"
  const CacheTypeKey := "draken.cache.type"
  const RedisDsnKey := "draken.cache.redis.dsn"
  const R2EnabledKey := "draken.r2.enabled"
  const R2AccountIdKey := "draken.r2.accountId"
  const R2AccessKeyIdKey := "draken.r2.accessKeyId"
  const R2AccessKeySecretKey := "draken.r2.accessKeySecret"

  /** Every key the projection reads. */
  const RecognisedKeys: set<string> := {
    EnvironmentKey, DebugKey, PortKey, HiddenKey, SecurityKey, HeartbeatEnabledKey,
    HeartbeatEndpointKey, StorageEnabledKey, StorageTypeKey, LibsqlDsnKey, PostgresDsnKey,
    CacheEnabledKey, CacheTypeKey, RedisDsnKey, R2EnabledKey, R2AccountIdKey,
    R2AccessKeyIdKey, R2AccessKeySecretKey}

  /** "dev", "staging" and "prod" name their environments; every other string is Local. */
  function ParseEnvironment(s: string): (e: Environment)
    ensures e == Dev <==> s == "dev"
    ensures e == Staging <==> s == "staging"
    ensures e == Prod <==> s == "prod"
    ensures e == Local <==> s !in {"dev", "staging", "prod"}
  {
    match s
    case "dev" => Dev
    case "staging" => Staging
    case "prod" => Prod
    case _ => Local
  }

  /**
   * "libsql" and "postgres" select their variant and read their own DSN key;
   * "sqlite" and every other string select Sqlite, which has no DSN.
   */
  function StorageFrom(store: Viper.Store): (c: StorageConfig)
    ensures c.enabled == Viper.GetBool(store, StorageEnabledKey)
    ensures c.storageType == Libsql <==> Viper.GetString(store, StorageTypeKey) == "libsql"
    ensures c.storageType == Postgres <==> Viper.GetString(store, StorageTypeKey) == "postgres"
    ensures c.storageType == Libsql ==> c.dsn == Viper.GetString(store, LibsqlDsnKey)
    ensures c.storageType == Postgres ==> c.dsn == Viper.GetString(store, PostgresDsnKey)
    ensures c.storageType == Sqlite ==> c.dsn == ""
  {
    var enabled := Viper.GetBool(store, StorageEnabledKey);
    match Viper.GetString(store, StorageTypeKey)
    case "libsql" => StorageConfig(enabled, Libsql, Viper.GetString(store, LibsqlDsnKey))
    case "sqlite" => StorageConfig(enabled, Sqlite, "")
    case "postgres" => StorageConfig(enabled, Postgres, Viper.GetString(store, PostgresDsnKey))
    case _ => StorageConfig(enabled, Sqlite, "")
  }

  /** Whatever the type key says, the cache is Redis with the Redis DSN. */
  function CacheFrom(store: Viper.Store): (c: CacheConfig)
    ensures c.enabled == Viper.GetBool(store, CacheEnabledKey)
    ensures c.cacheType == Redis
    ensures c.dsn == Viper.GetString(store, RedisDsnKey)
  {
    var enabled := Viper.GetBool(store, CacheEnabledKey);
    match Viper.GetString(store, CacheTypeKey)
    case "redis" => CacheConfig(enabled, Redis, Viper.GetString(store, RedisDsnKey))
    case _ => CacheConfig(enabled, Redis, Viper.GetString(store, RedisDsnKey))
  }

  /** The server fields, each copied from its own key. */
  function ServerFrom(store: Viper.Store): (c: ServerConfig)
    ensures c.port == Viper.GetUint16(store, PortKey)
    ensures c.hidden == Viper.GetBool(store, HiddenKey)
    ensures c.security == Viper.GetBool(store, SecurityKey)
    ensures c.heartbeat.enabled == Viper.GetBool(store, HeartbeatEnabledKey)
    ensures c.heartbeat.endpoint == Viper.GetString(store, HeartbeatEndpointKey)
  {
    ServerConfig(
      Viper.GetBool(store, HiddenKey),
      Viper.GetUint16(store, PortKey),
      HeartbeatConfig(Viper.GetBool(store, HeartbeatEnabledKey), Viper.GetString(store, HeartbeatEndpointKey)),
      Viper.GetBool(store, SecurityKey))
  }

  /** The object-store fields, each copied from its own key. */
  function R2From(store: Viper.Store): (c: R2Config)
    ensures c.enabled == Viper.GetBool(store, R2EnabledKey)
    ensures c.accountId == Viper.GetString(store, R2AccountIdKey)
    ensures c.accessKeyId == Viper.GetString(store, R2AccessKeyIdKey)
    ensures c.accessKeySecret == Viper.GetString(store, R2AccessKeySecretKey)
  {
    R2Config(
      Viper.GetBool(store, R2EnabledKey),
      Viper.GetString(store, R2AccountIdKey),
      Viper.GetString(store, R2AccessKeyIdKey),
      Viper.GetString(store, R2AccessKeySecretKey))
  }

  /** The configuration the full sequence of setters leaves behind. */
  function Project(store: Viper.Store): Config {
    Config(
      ParseEnvironment(Viper.GetString(store, EnvironmentKey)),
      Viper.GetBool(store, DebugKey),
      ServerFrom(store),
      StorageFrom(store),
      CacheFrom(store),
      R2From(store))
  }

  // ---------------------------------------------------------------------------
  // Loading the configuration files
  // ---------------------------------------------------------------------------

  datatype LoadError =
    | DataUnavailable(message: string)
    | RejectedOperation(message: string)

  /**
   * What the file system offers: the variables of `./.env` (None when the
   * file is missing or does not parse) and the text of
   * `./.config/draken.yaml` (None when it cannot be read).
   */
  datatype ConfigFiles = ConfigFiles(dotenv: Option<map<string, string>>, yaml: Option<string>)

  /** Environment substitution over a text, given the process environment; None on a malformed pattern. */
  type Substitute = (map<string, string>, string) -> Option<string>

  /** The YAML reader filling the registry; None when the text is rejected. */
  type ParseYaml = string -> Option<Viper.Store>

  /** Loading the dotenv file adds its variables without overriding ones already set. */
  function EnvAfterDotenv(env: map<string, string>, dotenv: Option<map<string, string>>): (r: map<string, string>)
    ensures dotenv.None? ==> r == env
    ensures r.Keys == env.Keys + (if dotenv.Some? then dotenv.value.Keys else {})
    ensures forall k :: k in env ==> r[k] == env[k]
    ensures dotenv.Some? ==> forall k :: k in dotenv.value && k !in env ==> r[k] == dotenv.value[k]
  {
    match dotenv
    case None => env
    case Some(vars) => vars + env
  }

  /**
   * The outcome of loading: an unreadable YAML file is DataUnavailable, a
   * failed substitution or a rejected YAML text is RejectedOperation, and a
   * missing or broken dotenv file is never an error.
   */
  function LoadConfigFile(env: map<string, string>, files: ConfigFiles, subst: Substitute, parse: ParseYaml)
    : (r: Result<Viper.Store, LoadError>)
    ensures r.Err? && r.error.DataUnavailable? <==> files.yaml.None?
    ensures r.Err? && r.error.RejectedOperation? <==>
              files.yaml.Some? &&
              (subst(EnvAfterDotenv(env, files.dotenv), files.yaml.value).None? ||
               parse(subst(EnvAfterDotenv(env, files.dotenv), files.yaml.value).value).None?)
    ensures r.Ok? ==>
              files.yaml.Some? &&
              subst(EnvAfterDotenv(env, files.dotenv), files.yaml.value).Some? &&
              parse(subst(EnvAfterDotenv(env, files.dotenv), files.yaml.value).value) == Some(r.value)
  {
    match files.yaml
    case None => Err(DataUnavailable("loading config file failed"))
    case Some(raw) =>
      match subst(EnvAfterDotenv(env, files.dotenv), raw)
      case None => Err(RejectedOperation("substituting env variables failed"))
      case Some(text) =>
        match parse(text)
        case None => Err(RejectedOperation("reading config by viper failed"))
        case Some(store) => Ok(store)
  }

  // ---------------------------------------------------------------------------
  // Logger options
  // ---------------------------------------------------------------------------

  datatype LogLevel = DebugLevel | InfoLevel

  // ---------------------------------------------------------------------------
  // Rendering a configuration as registry entries
  // ---------------------------------------------------------------------------

  function EnvironmentName(e: Environment): string {
    match e
    case Local => "local"
    case Dev => "dev"
    case Staging => "staging"
    case Prod => "prod"
  }

  function StorageTypeName(t: StorageType): string {
    match t
    case Libsql => "libsql"
    case Sqlite => "sqlite"
    case Postgres => "postgres"
  }

  function ServerEntries(c: ServerConfig): Viper.Store {
    map[
      PortKey := Viper.Decimal(c.port as nat),
      HiddenKey := Viper.BoolText(c.hidden),
      SecurityKey := Viper.BoolText(c.security),
      HeartbeatEnabledKey := Viper.BoolText(c.heartbeat.enabled),
      HeartbeatEndpointKey := c.heartbeat.endpoint]
  }

  /** Only the DSN key of the selected storage variant is written; Sqlite writes none. */
  function StorageEntries(c: StorageConfig): Viper.Store {
    var entries := map[
      StorageEnabledKey := Viper.BoolText(c.enabled),
      StorageTypeKey := StorageTypeName(c.storageType)];
    match c.storageType
    case Libsql => entries[LibsqlDsnKey := c.dsn]
    case Postgres => entries[PostgresDsnKey := c.dsn]
    case Sqlite => entries
  }

  function CacheEntries(c: CacheConfig): Viper.Store {
    map[CacheEnabledKey := Viper.BoolText(c.enabled), CacheTypeKey := "redis", RedisDsnKey := c.dsn]
  }

  function R2Entries(c: R2Config): Viper.Store {
    map[
      R2EnabledKey := Viper.BoolText(c.enabled),
      R2AccountIdKey := c.accountId,
      R2AccessKeyIdKey := c.accessKeyId,
      R2AccessKeySecretKey := c.accessKeySecret]
  }

  /** The registry entries a configuration file holding `c` would produce. */
  function Render(c: Config): Viper.Store {
    map[EnvironmentKey := EnvironmentName(c.environment), DebugKey := Viper.BoolText(c.debug)]
      + ServerEntries(c.server) + StorageEntries(c.storage) + CacheEntries(c.cache) + R2Entries(c.r2)
  }

  /** A configuration the projection can produce: Sqlite carries no DSN. */
  predicate Projectable(c: Config) {
    c.storage.storageType == Sqlite ==> c.storage.dsn == ""
  }

  /** Every projection result is projectable. */
  lemma ProjectIsProjectable(store: Viper.Store)
    ensures Projectable(Project(store))
  {
  }

  lemma RenderServer(c: ServerConfig, s: Viper.Store)
    requires forall k :: k in ServerEntries(c) ==> k in s && s[k] == ServerEntries(c)[k]
    ensures ServerFrom(s) == c
  {
    var e := ServerEntries(c);
    assert PortKey in e && HiddenKey in e && SecurityKey in e;
    assert HeartbeatEnabledKey in e && HeartbeatEndpointKey in e;
    Viper.GetUint16OfDecimal(s, PortKey, c.port as nat);
    Viper.GetBoolOfText(s, HiddenKey, c.hidden);
    Viper.GetBoolOfText(s, SecurityKey, c.security);
    Viper.GetBoolOfText(s, HeartbeatEnabledKey, c.heartbeat.enabled);
  }

  lemma RenderStorage(c: StorageConfig, s: Viper.Store)
    requires c.storageType == Sqlite ==> c.dsn == ""
    requires forall k :: k in StorageEntries(c) ==> k in s && s[k] == StorageEntries(c)[k]
    requires c.storageType != Libsql ==> LibsqlDsnKey !in s
    requires c.storageType != Postgres ==> PostgresDsnKey !in s
    ensures StorageFrom(s) == c
  {
    var e := StorageEntries(c);
    assert StorageEnabledKey in e && StorageTypeKey in e;
    Viper.GetBoolOfText(s, StorageEnabledKey, c.enabled);
    match c.storageType
    case Libsql => assert LibsqlDsnKey in e;
    case Postgres => assert PostgresDsnKey in e;
    case Sqlite =>
  }

  lemma RenderCache(c: CacheConfig, s: Viper.Store)
    requires forall k :: k in CacheEntries(c) ==> k in s && s[k] == CacheEntries(c)[k]
    ensures CacheFrom(s) == c
  {
    var e := CacheEntries(c);
    assert CacheEnabledKey in e && RedisDsnKey in e;
    Viper.GetBoolOfText(s, CacheEnabledKey, c.enabled);
  }

  lemma RenderR2(c: R2Config, s: Viper.Store)
    requires forall k :: k in R2Entries(c) ==> k in s && s[k] == R2Entries(c)[k]
    ensures R2From(s) == c
  {
    var e := R2Entries(c);
    assert R2EnabledKey in e && R2AccountIdKey in e && R2AccessKeyIdKey in e && R2AccessKeySecretKey in e;
    Viper.GetBoolOfText(s, R2EnabledKey, c.enabled);
  }

  const ServerKeys: set<string> := {PortKey, HiddenKey, SecurityKey, HeartbeatEnabledKey, HeartbeatEndpointKey}
  const StorageKeys: set<string> := {StorageEnabledKey, StorageTypeKey, LibsqlDsnKey, PostgresDsnKey}
  const CacheKeys: set<string> := {CacheEnabledKey, CacheTypeKey, RedisDsnKey}
  const R2Keys: set<string> := {R2EnabledKey, R2AccountIdKey, R2AccessKeyIdKey, R2AccessKeySecretKey}

  /** The two letters after "draken." that name a key's section. */
  predicate InSection(k: string, a: char, b: char) {
    |k| > 8 && k[7] == a && k[8] == b
  }

  lemma SectionLetters()
    ensures forall k :: k in ServerKeys ==> InSection(k, 's', 'e')
    ensures forall k :: k in StorageKeys ==> InSection(k, 's', 't')
    ensures forall k :: k in CacheKeys ==> InSection(k, 'c', 'a')
    ensures forall k :: k in R2Keys ==> InSection(k, 'r', '2')
    ensures InSection(EnvironmentKey, 'e', 'n') && InSection(DebugKey, 'd', 'e')
  {
    assert InSection(PortKey, 's', 'e') && InSection(HiddenKey, 's', 'e') && InSection(SecurityKey, 's', 'e');
    assert InSection(HeartbeatEnabledKey, 's', 'e') && InSection(HeartbeatEndpointKey, 's', 'e');
    assert InSection(StorageEnabledKey, 's', 't') && InSection(StorageTypeKey, 's', 't');
    assert InSection(LibsqlDsnKey, 's', 't') && InSection(PostgresDsnKey, 's', 't');
    assert InSection(CacheEnabledKey, 'c', 'a') && InSection(CacheTypeKey, 'c', 'a') && InSection(RedisDsnKey, 'c', 'a');
    assert InSection(R2EnabledKey, 'r', '2') && InSection(R2AccountIdKey, 'r', '2');
    assert InSection(R2AccessKeyIdKey, 'r', '2') && InSection(R2AccessKeySecretKey, 'r', '2');
  }

  /** Keys of different sections differ at the first two letters after "draken.". */
  lemma SectionsDisjoint()
    ensures ServerKeys !! StorageKeys && ServerKeys !! CacheKeys && ServerKeys !! R2Keys
    ensures StorageKeys !! CacheKeys && StorageKeys !! R2Keys && CacheKeys !! R2Keys
    ensures EnvironmentKey !in ServerKeys + StorageKeys + CacheKeys + R2Keys
    ensures DebugKey !in ServerKeys + StorageKeys + CacheKeys + R2Keys
  {
    SectionLetters();
  }

  lemma SectionKeys(c: Config)
    ensures ServerEntries(c.server).Keys == ServerKeys
    ensures StorageEntries(c.storage).Keys <= StorageKeys
    ensures c.storage.storageType != Libsql ==> LibsqlDsnKey !in StorageEntries(c.storage)
    ensures c.storage.storageType != Postgres ==> PostgresDsnKey !in StorageEntries(c.storage)
    ensures CacheEntries(c.cache).Keys == CacheKeys
    ensures R2Entries(c.r2).Keys == R2Keys
  {
    SectionLetters();
  }

  /** The rendering holds each section's entries unchanged. */
  lemma RenderSections(c: Config)
    ensures forall k :: k in ServerEntries(c.server) ==> k in Render(c) && Render(c)[k] == ServerEntries(c.server)[k]
    ensures forall k :: k in StorageEntries(c.storage) ==> k in Render(c) && Render(c)[k] == StorageEntries(c.storage)[k]
    ensures forall k :: k in CacheEntries(c.cache) ==> k in Render(c) && Render(c)[k] == CacheEntries(c.cache)[k]
    ensures forall k :: k in R2Entries(c.r2) ==> k in Render(c) && Render(c)[k] == R2Entries(c.r2)[k]
    ensures c.storage.storageType != Libsql ==> LibsqlDsnKey !in Render(c)
    ensures c.storage.storageType != Postgres ==> PostgresDsnKey !in Render(c)
    ensures Render(c)[EnvironmentKey] == EnvironmentName(c.environment)
    ensures Render(c)[DebugKey] == Viper.BoolText(c.debug)
  {
    SectionKeys(c);
    SectionsDisjoint();
  }

  /** Rendering a projectable configuration and projecting it back gives the configuration. */
  lemma ProjectRender(c: Config)
    requires Projectable(c)
    ensures Project(Render(c)) == c
  {
    var s := Render(c);
    RenderSections(c);
    assert ParseEnvironment(Viper.GetString(s, EnvironmentKey)) == c.environment;
    Viper.GetBoolOfText(s, DebugKey, c.debug);
    RenderServer(c.server, s);
    RenderStorage(c.storage, s);
    RenderCache(c.cache, s);
    RenderR2(c.r2, s);
  }

  /** Keys the projection does not read do not change the configuration. */
  lemma ProjectIgnoresUnknownKeys(store: Viper.Store, key: string, value: string)
    requires key !in RecognisedKeys
    ensures Project(store[key := value]) == Project(store)
  {
    var s' := store[key := value];
    forall k | k in RecognisedKeys
      ensures Viper.GetString(s', k) == Viper.GetString(store, k)
    {
    }
  }
}
