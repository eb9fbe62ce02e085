/**
 * The per-request context and the typed lookup handlers use on it.
 */
module Request {
  import opened Http

  /**
   * Context keys carry their Go type: the application's own key type, or any
   * other type. Keys of different types never match, even with equal text.
   */
  datatype CtxKey = ContextKey(name: string) | ForeignKey(typeName: string, name: string)

  /** A context value is either a string or a value of some other type. */
  datatype CtxValue = StringValue(s: string) | OtherValue(typeName: string)

  type Context = map<CtxKey, CtxValue>

  /** The context key the request-id middleware stores its id under. */
  const RequestIdKey: string := "draken-request-id"

  datatype HttpRequest = HttpRequest(verb: string, path: string, header: Header, remoteAddr: string, ctx: Context)

  /** The handler-facing wrapper around a request. */
  datatype Request = Request(http: HttpRequest)

  /** Wrapping keeps the request as it is. */
  function GetRequest(r: HttpRequest): (req: Request)
    ensures req.http == r
  {
    Request(r)
  }

  /** The string stored under the application key `key`; "" when it is missing or not a string. */
  function CtxGetString(req: Request, key: string): (s: string)
    ensures ContextKey(key) in req.http.ctx && req.http.ctx[ContextKey(key)].StringValue? ==>
              s == req.http.ctx[ContextKey(key)].s
    ensures ContextKey(key) !in req.http.ctx ==> s == ""
    ensures ContextKey(key) in req.http.ctx && req.http.ctx[ContextKey(key)].OtherValue? ==> s == ""
  {
    var ctx := req.http.ctx;
    if ContextKey(key) in ctx && ctx[ContextKey(key)].StringValue? then ctx[ContextKey(key)].s else ""
  }

  /** The request id, as stored by the request-id middleware; "" when none is stored. */
  function RequestId(req: Request): (id: string)
    ensures ContextKey(RequestIdKey) in req.http.ctx && req.http.ctx[ContextKey(RequestIdKey)].StringValue? ==>
              id == req.http.ctx[ContextKey(RequestIdKey)].s
    ensures !(ContextKey(RequestIdKey) in req.http.ctx && req.http.ctx[ContextKey(RequestIdKey)].StringValue?) ==>
              id == ""
  {
    CtxGetString(req, RequestIdKey)
  }

  /** A value stored under a key of another type is invisible to the typed lookup. */
  lemma ForeignKeyInvisible(req: Request, typeName: string, key: string, v: CtxValue)
    ensures CtxGetString(Request(req.http.(ctx := req.http.ctx[ForeignKey(typeName, key) := v])), key)
              == CtxGetString(req, key)
  {
  }
}
