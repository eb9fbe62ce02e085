// The application object: configuration set-up, the initialisation of
// cache and storage from it, middleware registration and the router.

module App {
  import opened Wrappers
  import Viper
  import opened Config
  import Cache
  import Storage
  import opened Middleware
  import Router

  class Draken {
    var config: Config
    /** The viper registry the configuration is read from. */
    var viper: Viper.Store
    /** The process environment. */
    var env: map<string, string>
    var startedAt: int
    /** zerolog's global level, whether the console writer is installed, and whether times are Unix. */
    var level: LogLevel
    var console: bool
    var unixTime: bool
    var storage: Storage.SqlDatabase?
    var cache: Cache.Redis?
    var chi: Mux?
    var router: Router.Router?

    /** The zero Draken value in a process with environment `env`; zerolog starts at its debug level. */
    constructor (env: map<string, string>)
      ensures config == ZeroConfig && viper == map[] && this.env == env
      ensures level == DebugLevel && !console && !unixTime
      ensures storage == null && cache == null && chi == null && router == null
    {
      config := ZeroConfig;
      viper := map[];
      this.env := env;
      startedAt := 0;
      level := DebugLevel;
      console := false;
      unixTime := false;
      storage := null;
      cache := null;
      chi := null;
      router := null;
    }

    // ---- Configuration setters --------------------------------------

    method SetDebug()
      modifies this`config
      ensures config == old(config).(debug := Viper.GetBool(viper, DebugKey))
    {
      config := config.(debug := Viper.GetBool(viper, DebugKey));
    }

    method SetEnvironment()
      modifies this`config
      ensures config == old(config).(environment := ParseEnvironment(Viper.GetString(viper, EnvironmentKey)))
    {
      config := config.(environment := ParseEnvironment(Viper.GetString(viper, EnvironmentKey)));
    }

    /** Info level unless debugging; the console writer only for Local; Unix timestamps. */
    method SetLoggerOpts()
      modifies this`level, this`console, this`unixTime
      ensures level == (if config.debug then DebugLevel else InfoLevel)
      ensures console == (old(console) || config.environment == Local)
      ensures unixTime
    {
      level := InfoLevel;
      if config.debug {
        level := DebugLevel;
      }
      if config.environment == Local {
        console := true;
      }
      unixTime := true;
    }

    method SetServerConfig()
      modifies this`config
      ensures config == old(config).(server := ServerFrom(viper))
    {
      var s := config.server;
      s := s.(port := Viper.GetUint16(viper, PortKey));
      s := s.(hidden := Viper.GetBool(viper, HiddenKey));
      s := s.(security := Viper.GetBool(viper, SecurityKey));
      s := s.(heartbeat := s.heartbeat.(enabled := Viper.GetBool(viper, HeartbeatEnabledKey)));
      s := s.(heartbeat := s.heartbeat.(endpoint := Viper.GetString(viper, HeartbeatEndpointKey)));
      config := config.(server := s);
    }

    method SetStorageConfig()
      modifies this`config
      ensures config == old(config).(storage := StorageFrom(viper))
    {
      var c := StorageFrom(viper);
      config := config.(storage := config.storage.(enabled := c.enabled));
      config := config.(storage := config.storage.(dsn := c.dsn));
      config := config.(storage := config.storage.(storageType := c.storageType));
    }

    method SetCacheConfig()
      modifies this`config
      ensures config == old(config).(cache := CacheFrom(viper))
    {
      var c := CacheFrom(viper);
      config := config.(cache := config.cache.(enabled := c.enabled));
      config := config.(cache := config.cache.(cacheType := c.cacheType));
      config := config.(cache := config.cache.(dsn := c.dsn));
    }

    method SetR2Config()
      modifies this`config
      ensures config == old(config).(r2 := R2From(viper))
    {
      var r := config.r2;
      r := r.(enabled := Viper.GetBool(viper, R2EnabledKey));
      r := r.(accountId := Viper.GetString(viper, R2AccountIdKey));
      r := r.(accessKeyId := Viper.GetString(viper, R2AccessKeyIdKey));
      r := r.(accessKeySecret := Viper.GetString(viper, R2AccessKeySecretKey));
      config := config.(r2 := r);
    }

    /**
     * The setters in setup's order: debug, environment, logger, server,
     * storage, cache, r2.
     */
    method ApplySetters()
      modifies this`config, this`level, this`console, this`unixTime
      ensures config == Project(viper)
      ensures level == (if config.debug then DebugLevel else InfoLevel)
      ensures console == (old(console) || config.environment == Local)
      ensures unixTime
    {
      SetDebug();
      SetEnvironment();
      SetLoggerOpts();
      ghost var logged := config;
      SetServerConfig();
      SetStorageConfig();
      SetCacheConfig();
      SetR2Config();
      assert config.debug == logged.debug && config.environment == logged.environment;
      assert config == Config(
        ParseEnvironment(Viper.GetString(viper, EnvironmentKey)), Viper.GetBool(viper, DebugKey),
        ServerFrom(viper), StorageFrom(viper), CacheFrom(viper), R2From(viper));
    }

    /** Adopt a loaded registry and run the setters on it. */
    method Adopt(registry: Viper.Store)
      modifies this`viper, this`config, this`level, this`console, this`unixTime
      ensures viper == registry && config == Project(registry)
      ensures level == (if config.debug then DebugLevel else InfoLevel)
      ensures console == (old(console) || config.environment == Local)
      ensures unixTime
    {
      viper := registry;
      ApplySetters();
    }

    /**
     * setup: record the start time and load the files. A load error is
     * returned with configuration, registry and logger untouched.
     * Otherwise the setters run in the order debug, environment, logger,
     * server, storage, cache, r2: the configuration is the projection of
     * the registry, and the logger options follow its final Debug and
     * Environment.
     */
    method Setup(files: ConfigFiles, subst: Substitute, parse: ParseYaml, now: int) returns (err: Option<LoadError>)
      modifies this
      ensures startedAt == now
      ensures env == EnvAfterDotenv(old(env), files.dotenv)
      ensures storage == old(storage) && cache == old(cache) && chi == old(chi) && router == old(router)
      ensures LoadConfigFile(old(env), files, subst, parse).Err? ==>
                && err == Some(LoadConfigFile(old(env), files, subst, parse).error)
                && config == old(config) && viper == old(viper)
                && level == old(level) && console == old(console) && unixTime == old(unixTime)
      ensures LoadConfigFile(old(env), files, subst, parse).Ok? ==>
                && err == None
                && viper == LoadConfigFile(old(env), files, subst, parse).value
                && config == Project(viper)
                && level == (if config.debug then DebugLevel else InfoLevel)
                && console == (old(console) || config.environment == Local)
                && unixTime
    {
      startedAt := now;
      var loaded := LoadConfigFile(env, files, subst, parse);
      env := EnvAfterDotenv(env, files.dotenv);
      if loaded.Err? {
        return Some(loaded.error);
      }
      Adopt(loaded.value);
      err := None;
    }

    // ---- Cache and storage ------------------------------------------

    /**
     * initCache: nothing when disabled; otherwise a live Redis handle
     * connected to the configured DSN. NewRedis returns only once the server
     * answers its ping, so an enabled cache is initialised against a server
     * that is up.
     */
    method InitCache(server: Cache.Server)
      requires config.cache.enabled ==> server.up
      modifies this`cache
      ensures !config.cache.enabled ==> cache == old(cache)
      ensures config.cache.enabled ==>
                && cache != null && fresh(cache) && cache.Live()
                && cache.client != null && cache.client.dsn == config.cache.dsn && cache.client.server == server
    {
      if !config.cache.enabled {
        return;
      }
      if config.cache.cacheType == Redis {
        cache := new Cache.Redis.Connect(config.cache.dsn, server);
      }
    }

    /**
     * initStorage: nothing when disabled; Sqlite builds its database under
     * the home directory and ignores the DSN, Libsql and Postgres open the
     * configured DSN. Some(message) is the fatal exit of NewSqlite.
     */
    method InitStorage(home: string, fs: Storage.FileSystem) returns (exit: Option<string>)
      modifies this`storage, fs`dirs
      ensures !config.storage.enabled ==> storage == old(storage) && exit == None && fs.dirs == old(fs.dirs)
      ensures config.storage.enabled && config.storage.storageType == Sqlite && exit.None? ==>
                && storage != null && fresh(storage) && storage.db != null
                && storage.db.driver == Storage.Sqlite3Driver
                && storage.db.source == Storage.Join(Storage.JoinAll(home, Storage.SqliteFolder), Storage.DatabaseFile)
      ensures config.storage.enabled && config.storage.storageType == Sqlite && exit.Some? ==> storage == old(storage)
      ensures config.storage.enabled && config.storage.storageType == Sqlite ==>
                var folder := Storage.JoinAll(home, Storage.SqliteFolder);
                && (home == "" ==> exit == Some(Storage.NoHomeMessage) && fs.dirs == old(fs.dirs))
                && (home != "" && folder in fs.files && folder !in old(fs.dirs) ==>
                      exit == Some(Storage.MkdirMessage) && fs.dirs == old(fs.dirs))
                && (home != "" && !(folder in fs.files && folder !in old(fs.dirs)) ==>
                      && exit == None && folder in fs.dirs
                      && fs.dirs == (if folder in old(fs.dirs) then old(fs.dirs)
                                     else old(fs.dirs)[folder := Storage.DataFolderMode]))
      ensures config.storage.enabled && config.storage.storageType == Libsql ==>
                && exit == None && storage != null && fresh(storage) && storage.db != null
                && storage.db.driver == Storage.LibsqlDriver && storage.db.source == config.storage.dsn
      ensures config.storage.enabled && config.storage.storageType == Postgres ==>
                && exit == None && storage != null && fresh(storage) && storage.db != null
                && storage.db.driver == Storage.PostgresDriver && storage.db.source == config.storage.dsn
      ensures config.storage.storageType != Sqlite ==> fs.dirs == old(fs.dirs)
    {
      if !config.storage.enabled {
        return None;
      }
      exit := None;
      match config.storage.storageType
      case Sqlite =>
        var r := Storage.NewSqlite(home, fs, Storage.SqliteFolder);
        if r.Err? {
          return Some(r.error);
        }
        storage := r.value;
      case Libsql =>
        storage := Storage.NewLibsql(config.storage.dsn);
      case Postgres =>
        storage := Storage.NewPostgres(config.storage.dsn);
    }

    // ---- Middleware and router --------------------------------------

    /** Middleware: append one middleware to the chi stack. */
    method AddMiddleware(m: Middleware)
      requires chi != null
      modifies chi
      ensures chi.middlewares == old(chi.middlewares) + [m]
    {
      chi.Use(m);
    }

    /** The four middlewares every chain has: request id, real IP, logger, recoverer. */
    method AddCoreMiddlewares()
      requires chi != null
      modifies chi
      ensures chi.middlewares == old(chi.middlewares) + [RequestIdMiddleware, RealIP, Logger, Recoverer]
    {
      AddMiddleware(RequestIdMiddleware);
      AddMiddleware(RealIP);
      AddMiddleware(Logger);
      AddMiddleware(Recoverer);
    }

    /** EssentialMiddlewares: the essential chain for the server configuration, appended in order. */
    method EssentialMiddlewares()
      requires chi != null
      modifies chi
      ensures chi.middlewares == old(chi.middlewares) + EssentialChain(config.server)
    {
      ghost var before := chi.middlewares;
      ghost var s := config.server;
      ghost var banner := if s.hidden then [] else [Webserver];
      ghost var core := [RequestIdMiddleware, RealIP, Logger, Recoverer];
      ghost var heartbeat := if s.heartbeat.enabled then [Heartbeat(s.heartbeat.endpoint)] else [];
      ghost var security := if s.security then [Security(SecurityConfigOf([]))] else [];
      if !config.server.hidden {
        AddMiddleware(Webserver);
      }
      AddCoreMiddlewares();
      assert chi.middlewares == before + banner + core;
      if config.server.heartbeat.enabled {
        AddMiddleware(Heartbeat(config.server.heartbeat.endpoint));
      }
      assert chi.middlewares == before + banner + core + heartbeat;
      if config.server.security {
        AddMiddleware(Security(SecurityConfigOf([])));
      }
      assert chi.middlewares == before + banner + core + heartbeat + security;
      assert EssentialChain(s) == banner + core + heartbeat + security;
    }

    /** CreateRouter: a root router owned by this application. */
    method CreateRouter()
      modifies this`router
      ensures router != null && fresh(router) && fresh(router.echo)
      ensures router.parent == null && router.app == this && router.subrouters == map[]
      ensures router.group.prefix == "" && router.echo.hideBanner && router.echo.hidePort
      ensures router.echo.routes == map[] && router.Valid()
    {
      router := Router.CreateRoot(this);
    }
  }
  /**
   * New: a zero Draken in environment `env`, set up from the files. A setup
   * error is returned with no application. Otherwise storage is initialised
   * from the loaded configuration, and its fatal exit, if any, is returned
   * beside the application.
   */
  method New(env: map<string, string>, files: ConfigFiles, subst: Substitute, parse: ParseYaml, now: int,
             home: string, fs: Storage.FileSystem)
    returns (d: Draken?, err: Option<LoadError>, exit: Option<string>)
    modifies fs`dirs
    ensures LoadConfigFile(env, files, subst, parse).Err? ==>
              && d == null && err == Some(LoadConfigFile(env, files, subst, parse).error)
              && exit == None && fs.dirs == old(fs.dirs)
    ensures LoadConfigFile(env, files, subst, parse).Ok? ==>
              && d != null && fresh(d) && err == None
              && d.startedAt == now && d.env == EnvAfterDotenv(env, files.dotenv)
              && d.viper == LoadConfigFile(env, files, subst, parse).value
              && d.config == Project(d.viper)
              && d.level == (if d.config.debug then DebugLevel else InfoLevel)
              && d.console == (d.config.environment == Local) && d.unixTime
              && d.cache == null && d.chi == null && d.router == null
    ensures d != null && !d.config.storage.enabled ==> d.storage == null && exit == None && fs.dirs == old(fs.dirs)
    ensures d != null && d.config.storage.enabled && d.config.storage.storageType == Sqlite ==>
              var folder := Storage.JoinAll(home, Storage.SqliteFolder);
              && (home == "" ==> exit == Some(Storage.NoHomeMessage) && d.storage == null && fs.dirs == old(fs.dirs))
              && (home != "" && folder in fs.files && folder !in old(fs.dirs) ==>
                    exit == Some(Storage.MkdirMessage) && d.storage == null && fs.dirs == old(fs.dirs))
              && (home != "" && !(folder in fs.files && folder !in old(fs.dirs)) ==>
                    && exit == None && d.storage != null && d.storage.db != null
                    && d.storage.db.driver == Storage.Sqlite3Driver
                    && d.storage.db.source == Storage.Join(folder, Storage.DatabaseFile)
                    && folder in fs.dirs
                    && fs.dirs == (if folder in old(fs.dirs) then old(fs.dirs)
                                   else old(fs.dirs)[folder := Storage.DataFolderMode]))
    ensures d != null && d.config.storage.enabled && d.config.storage.storageType == Libsql ==>
              && exit == None && d.storage != null && d.storage.db != null
              && d.storage.db.driver == Storage.LibsqlDriver && d.storage.db.source == d.config.storage.dsn
              && fs.dirs == old(fs.dirs)
    ensures d != null && d.config.storage.enabled && d.config.storage.storageType == Postgres ==>
              && exit == None && d.storage != null && d.storage.db != null
              && d.storage.db.driver == Storage.PostgresDriver && d.storage.db.source == d.config.storage.dsn
              && fs.dirs == old(fs.dirs)
  {
    var app := new Draken(env);
    err := app.Setup(files, subst, parse, now);
    if err.Some? {
      return null, err, None;
    }
    exit := app.InitStorage(home, fs);
    d := app;
  }
}
