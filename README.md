# draken in Dafny

A Dafny model of the core of draken, a small Go web application framework.
draken reads its settings from a YAML file into viper, a configuration
registry. From those settings it:

- builds a typed `Config`;
- connects a Redis cache and a SQL store (sqlite, libsql or postgres);
- installs a fixed chain of HTTP middlewares on a chi mux;
- offers an echo-based router tree, a response builder and a typed
  request-context lookup for handlers.

The model keeps the source's own shapes:

- **Pure code** becomes functions and lemmas. This covers string→enum
  mapping, the typed getters, each middleware's effect on the exchange, and
  the context lookup.
- **Code that changes state** becomes classes with `modifies` frames. This
  covers the `Draken` setters, the Redis handle over a server's key space,
  the router tree, the response writer and builder, and the storage
  constructors.
- **Each method is proved against a pure specification function.** The
  properties the application relies on are proved about those functions.

Modules, one per file:

| file | module | what it holds |
|---|---|---|
| `wrappers.dfy` | `Wrappers` | `Option` and `Result` |
| `viper.dfy` | `Viper` | The registry as `map<string,string>`; `GetString`, `GetBool` and `GetUint16` |
| `config.dfy` | `Config` | Config types; the projection of the registry onto a `Config`; the error kinds of loading the files; a rendering of a `Config` back into registry entries, used by the round-trip lemma |
| `http.dfy` | `Http` | Header maps keyed by canonical MIME names |
| `request.dfy` | `Request` | Typed context keys and values; `GetRequest`, `CtxGetString`, `RequestId` |
| `middleware.dfy` | `Middleware` | Each middleware as a step on (request, response header); the essential chain and what it delivers to the handler; the mux |
| `context.dfy` | `Contexts` | A cancellable context |
| `cache.dfy` | `Cache` | Redis list/string commands as functions on the key space; the server, client and application handle as classes |
| `router.dfy` | `Router` | echo's route table and groups; the router tree |
| `response.dfy` | `Response` | net/http's response-writer protocol as transitions; the `Writer` and `Response` classes |
| `storage.dfy` | `Storage` | Path joining; the sqlite data-folder loop; the file system; the three database constructors |
| `draken.dfy` | `App` | The `Draken` object: setup and setters, initCache, initStorage, middleware registration, CreateRouter |

Inputs the code gets from outside are parameters of the model:

- the file system's `.env` and YAML contents (`Config.ConfigFiles`);
- envsubst (`Config.Substitute`) and the YAML reader (`Config.ParseYaml`);
- the JSON encoder, an `encode` function that may fail;
- the fresh request id (`id`);
- the home directory;
- the start time;
- the Redis server (`Cache.Server`) and the file system
  (`Storage.FileSystem`).

Where the documented behaviour and the code differ, the model follows the
code:

- `Len` on a list that has been drained returns −1, not 0. Redis deletes an
  emptied list, so the key is then missing.
- On a server that cannot be reached, `Pop` and `Len` return `("", nil)` and
  `(-1, nil)`. The reason is that `Exists` reads a failed command as false.
- Environment substitution runs whether or not `.env` was found.
- Storage `Stop` closes the client but does not cancel the context.
- `Init` adds one more query hook on every call.

## Model

| member | source | states |
|---|---|---|
| Viper.GetString | config.go:139 | A missing key reads as ""; a present key reads as its text |
| Viper.GetBool | config.go:155 | True exactly when the key is present and its text is one of strconv's six spellings of true |
| Viper.GetUint16 | config.go:200 | The text, with a trailing zero fraction cut off, is parsed as an int64 in the base its prefix selects. A value that is not negative is cut to its low 16 bits; a negative value, a parse error or a missing key reads as 0 |
| Viper.DigitValue | config.go:200 | Every character's digit value is at most 36, and it is below 10 exactly for '0'..'9', so no decimal, octal or binary digit is a letter |
| Viper.ParseInt | config.go:200 | A parsed value lies in the int64 range, and a negative one comes only from text that starts with '-' |
| Viper.GetUint16OfDecimal | config.go:200 | Any number up to the int64 maximum written in decimal reads back as its low 16 bits, so a port written in decimal reads back as the same port |
| Viper.GetUint16OfOctal | config.go:200 | A leading "0" makes the rest octal |
| Viper.GetUint16OfHex | config.go:200 | A "0x" prefix makes the rest hexadecimal |
| Viper.GetUint16OfPlus | config.go:200 | A leading '+' reads as the same port as the text without it |
| Viper.GetUint16OfMinus | config.go:200 | Any text that starts with '-' reads as 0 |
| Viper.GetUint16OfZeroFraction | config.go:200 | A '.' followed only by zeros is cut off before parsing |
| Viper.TrimWithoutDot | config.go:200 | The trim leaves text with no '.' unchanged |
| Viper.PrefixedPortSpellings | config.go:200 | "010" reads as 8 and "0x50" as 80 |
| Viper.SignedPortSpellings | config.go:200 | "+80" reads as 80 and "-80" as 0 |
| Viper.DecimalPortSpellings | config.go:200 | "8080.0" reads as 8080, and "70000" wraps around to 4464 |
| Config.ParseEnvironment | config.go:138-152 | "dev", "staging" and "prod" each map to their environment, both directions; every other string, "" included, maps to Local |
| Config.StorageFrom | config.go:158-178 | Enabled comes from its key. The type is Libsql exactly for "libsql" and Postgres exactly for "postgres", each with the DSN from its own key. Any other string gives Sqlite with DSN "" |
| Config.CacheFrom | config.go:180-197 | Enabled comes from its key. Whatever the type key says, the type is Redis and the DSN comes from the Redis DSN key |
| Config.ServerFrom | config.go:199-205 | Port (as uint16), hidden, security and both heartbeat fields are each copied from their own key |
| Config.R2From | config.go:207-212 | The four R2 fields are each copied from their own key |
| Config.EnvAfterDotenv | config.go:97-100 | A missing or unparsable .env leaves the environment as it is. Otherwise a variable only the .env file sets gets its .env value, and variables already set are not overridden |
| Config.LoadConfigFile | config.go:96-123 | DataUnavailable exactly when the YAML file cannot be read. RejectedOperation exactly when substitution or the YAML read fails. Ok carries the registry the reader produced. A .env problem is never an error |
| Config.ProjectIsProjectable | config.go:158-178 | A projected configuration never gives Sqlite a DSN |
| Config.ProjectRender | config.go:138-212 | Rendering any projectable configuration into registry entries and projecting it back gives the same configuration. So the setters lose no field |
| Config.ProjectIgnoresUnknownKeys | config.go:138-212 | A registry key the setters do not read never changes the configuration |
| App.Draken.constructor | draken.go:26 | The zero Draken: zero configuration, empty registry, no cache, storage, mux or router, and the logger at zerolog's default debug level |
| App.Draken.SetDebug | config.go:154-156 | Only Debug changes; it becomes the registry's boolean |
| App.Draken.SetEnvironment | config.go:138-152 | Only Environment changes; it becomes the parsed environment string |
| App.Draken.SetLoggerOpts | config.go:125-136 | The level is Debug if Debug is set and Info otherwise. The console writer is installed when the environment is Local and is kept if it was already installed. Times are Unix |
| App.Draken.SetServerConfig | config.go:199-205 | Only the server section changes; it becomes ServerFrom of the registry |
| App.Draken.SetStorageConfig | config.go:158-178 | Only the storage section changes; it becomes StorageFrom of the registry |
| App.Draken.SetCacheConfig | config.go:180-197 | Only the cache section changes; it becomes CacheFrom of the registry |
| App.Draken.SetR2Config | config.go:207-212 | Only the R2 section changes; it becomes R2From of the registry |
| App.Draken.ApplySetters | config.go:85-91 | Setters in setup's order. The configuration is the whole projection of the registry, and the logger options follow its final Debug and Environment |
| App.Draken.Setup | config.go:79-94 | The start time is recorded. A load error is returned, with configuration, registry and logger untouched. Otherwise no error, the loaded registry, configuration == Project(registry), and logger options from the final values. Cache, storage, mux and router are untouched |
| App.Draken.InitCache | cache.go:31-43 | Disabled: the cache is untouched. Enabled: a fresh, live Redis handle whose client reaches the configured DSN |
| App.Draken.InitStorage | storage.go:35-52 | Disabled: the storage and the file system are untouched. Sqlite: a sqlite3 database at home/draken/data/main.db, ignoring the DSN. Without a home, or when the folder is a file, the fatal exit with its message and no new directory; otherwise the folder exists, made with mode 0755 when it was missing. Libsql and Postgres: their driver with the configured DSN, and no directory made |
| App.New | draken.go:25-34 | A setup error is returned with no application and no directory made. Otherwise a fresh application with the loaded registry, its projection as configuration, the start time and the logger options setup gives; no cache, mux or router. Storage as initStorage leaves it: none when disabled; for Sqlite without a home or with a file in the folder's place, the fatal exit with its message, no storage and no new directory, and otherwise sqlite3 at folder/main.db with the folder present, made with mode 0755 when missing; for Libsql and Postgres their driver on the configured DSN and no directory made |
| App.Draken.AddMiddleware | middleware.go:18-20 | Appends exactly one middleware to the mux's stack |
| App.Draken.EssentialMiddlewares | middleware.go:22-39 | The stack grows by exactly EssentialChain of the server configuration |
| App.Draken.CreateRouter | router.go:16-31 | A fresh root router owned by this application: hidden banner and port, an empty route table, prefix "", no parent, no children, and the tree invariant |
| Middleware.DefaultSecurityMiddlewareConfig | middleware.go:52-62 | All seven fields of the baseline are non-empty |
| Middleware.SecurityConfigOf | middleware.go:64-68 | With no argument, the defaults. Otherwise the first argument replaces them wholesale |
| Middleware.ApplySecurity | middleware.go:69-93 | A header whose field is non-empty is set to that field. A header whose field is empty, and every other header, keeps its presence and value |
| Middleware.SecurityKeepsOthers | middleware.go:69-93 | The security middleware never alters the Server, X-Draken-Version or X-Draken-Request-Id headers |
| Middleware.DefaultSecuritySetsAll | middleware.go:52-92 | With the default configuration, all seven security headers are set to their exact default values |
| Middleware.ApplyWebserver | middleware.go:110-119 | Sets Server: draken and X-Draken-Version: v1, adds no other name, and keeps every other value |
| Middleware.ApplyRequestId | middleware.go:98-108 | The same id is stored under the context key and in X-Draken-Request-Id. The rest of the request and the other headers are unchanged |
| Middleware.HeaderMiddlewaresCallNext | middleware.go:93-116 | The three header-setting middlewares always call the next handler, and their headers are set by then |
| Middleware.HeartbeatAnswer | middleware.go:32-34 | The heartbeat's answer keeps every header already set and declares the body plain text |
| Middleware.HeartbeatStep | middleware.go:32-34 | The heartbeat answers exactly GET and HEAD requests whose path equals its endpoint up to letter case, with HeartbeatAnswer; any other request goes on unchanged |
| Middleware.EqualFoldIgnoresCase | middleware.go:32-34 | "/Health" matches an endpoint of "/health", and "/health" does not match "/healthz" |
| Middleware.LoggerRemoteAddr | middleware.go:131-135 | A non-empty X-Real-IP header gives the reported address; otherwise RemoteAddr is reported |
| Middleware.EssentialChainShape | middleware.go:22-39 | The banner is present iff not hidden, and comes first. Then request id, real IP, logger and recoverer. Heartbeat is present iff enabled; security is present iff on, with the defaults, and comes last. The length follows |
| Middleware.EssentialChainRun | middleware.go:22-39 | Running the chain: a heartbeat probe is answered after the banner, the request id and RealIP's address rewrite. Any other request goes on with banner, request id, real IP and security applied in that order |
| Middleware.PreparedExchange | middleware.go:23-28 | After banner, request id and RealIP, the request has the id in its context and the client address as RemoteAddr, and the response has the id and the banner unless hidden |
| Middleware.SecuredExchange | middleware.go:36-38 | The security step keeps the request, the banner and the request-id header, and when on sets every default security header |
| Middleware.EssentialChainAnswers | middleware.go:32-34 | The chain answers a request itself exactly when heartbeat is enabled and the request is a GET or HEAD on its endpoint, up to case. The answer carries the request id, the banner unless hidden, the plain-text type, and no security header the client's response did not already have |
| Middleware.EssentialChainHandlerSees | middleware.go:22-39 | For any other request the handler runs. Its request's RequestId is the id put in the response header, its RemoteAddr is the client address RealIP found (the peer address when there is none), and it is otherwise the client's request. The response has the banner unless hidden, and every default security header when security is on |
| Middleware.BeforeComma | middleware.go:28 | The first X-Forwarded-For entry: the longest prefix without a ',', ending just before the first ',' when there is one |
| Middleware.RealIpOf | middleware.go:28 | The address RealIP finds is empty or an IP address, and is taken from True-Client-IP, X-Real-IP or the first X-Forwarded-For entry |
| Middleware.ApplyRealIp | middleware.go:28 | RealIP sets RemoteAddr to the client address and changes nothing else |
| Middleware.RealIpPrecedence | middleware.go:28 | True-Client-IP wins over X-Real-IP, which wins over X-Forwarded-For; a chosen text that is not an IP keeps the peer address |
| Middleware.RealIpFromProxy | middleware.go:28 | A peer at 192.0.2.7:5000 with X-Real-IP 10.0.0.1 is seen as 10.0.0.1 |
| Middleware.Mux.Use | middleware.go:19 | chi's Use appends the middleware at the end of the stack |
| Http.CanonicalHeaderKeySpec | middleware.go:78 | Header names are stored canonically: canonicalising twice is canonicalising once, and spellings of a token name that differ only in ASCII case share one key |
| Request.GetRequest | request.go:9-11 | Wraps the request unchanged |
| Request.CtxGetString | request.go:13-20 | The stored text when the value under the application key is a string; "" when the key is missing or the value is of another type |
| Request.RequestId | request.go:22-24 | The string stored under "draken-request-id", or "" |
| Request.ForeignKeyInvisible | request.go:13-16 | A value under a key of another Go type with the same text does not affect the lookup |
| Cache.LPush | cache.go:143 | LPUSH: WRONGTYPE exactly on a string. Otherwise the value joins the end of the pop order, other keys are unchanged, and no empty list is ever stored |
| Cache.RPop | cache.go:158 | RPOP: redis.Nil on a missing key, WRONGTYPE on a string. Otherwise the oldest element is returned and removed, the key disappears when it was the last one, and other keys are unchanged |
| Cache.LLen | cache.go:180 | LLEN: 0 for a missing key, WRONGTYPE for a string, and the list length otherwise |
| Cache.GetText | cache.go:104-112 | GET: the string; redis.Nil for a missing key; WRONGTYPE for a list |
| Cache.FifoLaw | cache.go:131-168 | After pushing a then b onto a fresh key, pops return a, then b, and the key is then gone |
| Cache.PushPopQueue | cache.go:143-158 | A pop after a push returns the oldest queued element; that is the pushed value only when the queue was empty |
| Cache.Redis.Connect | cache.go:46-74 | NewRedis after its successful attempt, the one whose ping the server answered: a fresh open client for the DSN, a fresh live context with its cancel function, and a live handle |
| Cache.Redis.Stop | cache.go:88-99 | Cancels the context if there is a cancel function and closes the client if there is one; either may be missing. Afterwards no command reaches the server |
| Cache.Redis.Get | cache.go:101-113 | The string on success; the reply's error otherwise; Unavailable when the server cannot be reached |
| Cache.Redis.Set | cache.go:115-118 | Stores the string. A positive ttl sets the expiry, KeepTTL keeps it, and any other ttl clears it. Unavailable changes nothing |
| Cache.Redis.Exists | cache.go:120-123 | True exactly when the command reaches the server and the key is present; an error reads as false |
| Cache.Redis.Expire | cache.go:125-128 | A missing key: no effect. A ttl of 0 or less: the key is deleted. Otherwise the expiry is set. Unavailable changes nothing |
| Cache.Redis.Push | cache.go:131-144 | An encoding error comes first, and the store is unchanged. Then "redis client not initialized" without a client. Then Unavailable. Otherwise the LPush result |
| Cache.Redis.Pop | cache.go:149-168 | No client: "" and the not-initialized error. A missing key or an unreachable server: ("", nil) with the store unchanged. Otherwise RPop, with redis.Nil read as ("", nil). Expiries of deleted keys are dropped |
| Cache.Redis.Len | cache.go:171-190 | No client: −1 and the not-initialized error. A missing key: (−1, nil). Otherwise LLEN, or −1 with the reply's error |
| Cache.FifoScenario | cache.go:131-190 | Through the handle: Push a, Push b, Pop and Pop return a then b. Len then reports −1, and the key space is back to what it was |
| Router.Group.Add | router.go:50 | Adds exactly one route under prefix + path, replacing an earlier one for the same method and path |
| Router.Router.CreateSubrouter | router.go:33-46 | The child has this router as parent, the same echo and application, the prefix extended by the route, and no children. It replaces only the entry for its route, and the tree invariant holds for parent and child |
| Router.Router.Register | router.go:48-76 | Exactly one route on this router's group, with the middlewares in order |
| Router.Router.Get | router.go:48-52 | One GET route at the group prefix + route |
| Router.Router.Post | router.go:54-58 | One POST route at the group prefix + route |
| Router.Router.Put | router.go:60-64 | One PUT route at the group prefix + route |
| Router.Router.Patch | router.go:66-70 | One PATCH route at the group prefix + route |
| Router.Router.Delete | router.go:72-76 | One DELETE route at the group prefix + route |
| Router.CreateRoot | router.go:16-31 | A fresh echo with banner and port hidden, its "" group, and a root with no parent and no children |
| Router.ApiExample | cmd/example.go:19-20 | A GET on "" under the "/api/v1" sub-router is the one route, served at "/api/v1" |
| Response.Writer.Set | response.go:26 | Header().Set updates the canonical key and follows SetOn |
| Response.Writer.Del | response.go:40 | Header().Del removes the canonical key and follows DelOn |
| Response.Writer.WriteHeader | response.go:37 | Follows WriteHeaderOn: only the first final status counts, informational codes leave it pending, and the header is sent as it is then |
| Response.Utf8Length | response.go:49 | The byte length of a string in UTF-8: at least one and at most four bytes per character, and zero only for "" |
| Response.Utf8LengthOfAscii | response.go:49 | ASCII text has as many bytes as characters |
| Response.Writer.Write | response.go:49 | Follows WriteOn: an implicit 200 first. Empty data is written with no error whatever the status. Otherwise a refusal when the status allows no body, and the UTF-8 byte count when it does |
| Response.HttpError | response.go:40 | http.Error: drop Content-Length, plain-text type, nosniff, the status, then the message and a newline |
| Response.InitialWellformed | response.go:13-18 | A fresh writer satisfies the protocol: the status goes out once, before any body, and a body follows only a status that allows one |
| Response.HeaderEditsPreserve | response.go:25-33 | Header edits keep the protocol |
| Response.WriteHeaderPreserves | response.go:37 | WriteHeader keeps the protocol |
| Response.WritePreserves | response.go:49 | Write keeps the protocol, and afterwards the status has been sent |
| Response.ErrorPreserves | response.go:40-42 | http.Error keeps the protocol |
| Response.JsonPreserves | response.go:35-44 | Json keeps the protocol on every encoding outcome |
| Response.TextPreserves | response.go:46-50 | Text keeps the protocol |
| Response.JsonSends | response.go:35-44 | On a fresh response, the status goes out with Content-Type application/json already in its header, then the encoding and a newline |
| Response.TextSends | response.go:46-50 | The status goes out with the plain-text content type, then the text when it is not empty; its UTF-8 byte count is returned with no error |
| Response.TextWithoutBody | response.go:46-50 | For 204 and 304 only the status goes out. A non-empty text is refused; an empty one succeeds with 0 bytes |
| Response.JsonEncodeFailureKeepsStatus | response.go:35-44 | As written, an encoding failure sends the original status with the JSON content type, and the error text as the body; never a 500 |
| Response.JsonEncodeFirstFailure | response.go:39-41 | Encoding first, a failure on a fresh response gives a plain-text 500 with nosniff and the message |
| Response.JsonEncodeFirstAgrees | response.go:35-44 | Encoding first changes nothing when encoding succeeds |
| Response.Response.constructor | response.go:13-18 | GetResponse: the writer is wrapped, with status 200 |
| Response.Response.Status | response.go:20-23 | Sets the status and returns the same receiver |
| Response.Response.SetHeader | response.go:25-28 | Sets one header, keeps the status, and returns the receiver |
| Response.Response.SetContentType | response.go:30-33 | Sets Content-Type to t and returns the receiver |
| Response.Response.Json | response.go:35-44 | The writer ends in JsonOn of its old state: content type, then status, then body, with http.Error(500) on failure |
| Response.Response.JsonEncodeFirst | response.go:35-44 | The corrected Json: the writer ends in JsonEncodeFirstOn of its old state, so an encoding failure is answered with http.Error(500) before any status goes out |
| Response.Response.Text | response.go:46-50 | The writer ends in TextOn of its old state, and the write's result (byte count and error) is returned |
| Storage.Join | storage.go:67 | path.Join of two clean elements: an empty one is dropped, and otherwise they are joined with one "/" |
| Storage.JoinAllSlashed | storage.go:63-68 | Under a non-empty home, non-empty segments each add "/" and the segment, in argument order |
| Storage.DataFolder | storage.go:63-68 | The loop leaves the folder equal to the home joined with every segment in order |
| Storage.SqlitePath | storage.go:44 | The application's database file is home + "/draken/data/main.db" |
| Storage.FileSystem.MkdirAll | storage.go:69-72 | An existing directory is a no-op. A plain file at the path is an error. Otherwise the directory is made with the given mode |
| Storage.SqlDatabase.Open | storage.go:81-90 | A pool for the driver and source, a bun client over it with the dialect, and a live context with its cancel |
| Storage.SqlDatabase.Init | storage.go:151-157 | Adds one query hook, enabled and verbose exactly when debug is on |
| Storage.SqlDatabase.Stop | storage.go:159-161 | Closes the bun client |
| Storage.SqlDatabase.Bun | storage.go:163-165 | Returns the stored client unchanged |
| Storage.SqlDatabase.Ctx | storage.go:167-169 | Returns the stored context unchanged |
| Storage.NewSqlite | storage.go:54-94 | No home directory: fatal. The folder is a file: fatal. Otherwise a sqlite3 database at folder/main.db, sqlite dialect, and the folder exists with mode 0755 |
| Storage.NewLibsql | storage.go:125-149 | The DSN opened with the libsql driver and the sqlite dialect |
| Storage.NewPostgres | storage.go:97-122 | The DSN given to the pg driver with the postgres dialect |

## Left out

- Reconnect loops: the `goto ConnectionStart` retries with a 10-second sleep in NewRedis, NewSqlite, NewPostgres and NewLibsql are not modelled. They are unbounded I/O retries; each constructor is its successful attempt.
- Logging: all log output, and zerolog's global state beyond level, console writer and time format.
- Viper internals: case-insensitive keys, nested YAML maps and type coercion are not modelled. The registry is a flat map of scalar texts, and keys are matched exactly.
- Viper.GetUint16: `strconv`'s underscore digit separators (as in "8_080") are not modelled; the model reads an underscore as a syntax error, so such text reads as 0.
- Cache.Redis.Connect: it requires a server that is up, because NewRedis returns only after a ping succeeds; the retries before that are the reconnect loop.
- The libraries behind loading: godotenv, envsubst and the YAML reader are parameters, seen only through their success or failure. The same holds for `json.Marshal` and `json.Encoder`, modelled as an encode function that may fail.
- The `Cache` and `Storage` interfaces are not modelled: this model has no traits. The concrete `Redis` and `SqlDatabase` types are modelled.
- Cache.Redis.Init: it only logs, so it has no body worth modelling.
- Cache.Redis.Push, Pop, Len: a nil `*Redis` receiver is not modelled (Dafny has no method calls on null). The nil client inside a handle is modelled.
- Cache.Redis.Get, Set, Exists, Expire: they require a client. The source dereferences `r.Client` without a check and would panic.
- Cache.Redis.Set, Expire: expiry over time and sub-second rounding are not modelled. The model records the last expiry given.
- Every Redis value is a string, so `Set` of a non-string Go value is modelled with its text.
- Middlewares: header changes in place on a `ResponseWriter` are modelled as functions on the header map, step by step in chain order.
- Middleware.Step: chi's Recoverer is modelled as pass-through, because it only turns a panic into a 500 and the model has no panics. For Heartbeat, the 200 status and the "." body of its answer are not modelled; the answer's headers are.
- Middleware.EssentialChainHandlerSees: whether a header value is an IP address (net.ParseIP) is the parameter `isIp`, not a model of IP syntax; the client address the handler sees is stated in terms of it.
- Middleware.EqualFold: chi compares the path with `strings.EqualFold`, which folds all of Unicode. The model folds ASCII letters only.
- The logger's timing, status and byte counts are not modelled; the remote-address choice is.
- xid generation is not modelled: the request id is a parameter.
- Router: echo's route matching, path normalisation and its internal route list are not modelled. The route table is a map keyed by method and full path.
- `draken.go` defines a second `CreateRouter`, on a chi mux, plus chi route helpers. It is not modelled, because the echo-based router tree is.
- `cmd/example.go:17` calls `EssentialMiddlewares` on the router, which has no such method. It is modelled on `Draken`, where it is defined.
- `Serve`, `ServeTLS` and `DrakenHandler` are not modelled: signals, goroutines and the network.
- App.New: `errorx.Decorate`'s "setup failed" wrapping is not modelled; the setup error is returned as it is.
- `draken.go:30` calls `d.InitStorage()`, but the storage code defines only `initStorage` (storage.go:35), so the source as it stands does not build. The model reads the call as `initStorage`.
- The Draken struct in `draken.go` lacks the `Cache` and `Router` fields that `cache.go` and `router.go` assign. The model gives `Draken` both.
- `r2.go` is not modelled: AWS SDK set-up and a rate limiter nothing uses.
- Response.Response.Json, Text: they require a status in 100..999, because outside that range net/http's WriteHeader panics.
- Response.Writer.Write: net/http's ErrContentLength, for a body longer than a declared Content-Length, is not modelled.
- HEAD requests, hijacked connections and the implicit Content-Type and Content-Length net/http adds at the first write are not modelled. The header is recorded as the handler set it.
- Storage.Join: path.Join's cleaning of "." and ".." and of repeated slashes is not modelled. Segments are taken to be clean.
- Storage.FileSystem.MkdirAll: missing ancestors and permission errors are not modelled. It creates only the target directory.
- Storage.NewSqlite: a failed home-directory lookup is the empty home. Both fatal exits are returned as `Err` with their message, not as process exit.
- Storage.SqlDatabase.Init: the query hook's writer is not modelled.
- Http.CanonicalHeaderKey: it follows textproto's canonical form for token names. The pre-Go 1.21 handling of names with spaces is not modelled.

## Findings

| source | as written | input that shows it | evidently intended | confidence | as-written member | corrected member |
|---|---|---|---|---|---|---|
| response.go:35-44 | `Json` writes the status before encoding. On an encoding failure, `http.Error`'s header changes and its WriteHeader(500) come after the status has gone out, so they have no effect. | Status 200, and a value whose encoding fails (a channel, say). The client gets 200 with `application/json` and the error text as the body. | The client gets a plain-text 500 with the error message, as the `http.Error` call intends. | high, not executed | Response.JsonEncodeFailureKeepsStatus | Response.JsonEncodeFirstFailure |
