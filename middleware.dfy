/**
 * The built-in middlewares, each as the change it makes to the exchange
 * before handing it to the next handler, the chain the application builds
 * from them, and the mux that collects the chain.
 */
module Middleware {
  import opened Http
  import opened Request
  import Config

  // Canonical MIME forms of the header names the middlewares write or read.
  const ServerHeader := "Server"
  const VersionHeader := "X-Draken-Version"
  const RequestIdHeader := "X-Draken-Request-Id"
  const RealIpHeader := "X-Real-Ip"
  const TrueClientIpHeader := "True-Client-Ip"
  const ForwardedForHeader := "X-Forwarded-For"
  const ContentTypeOptionsHeader := "X-Content-Type-Options"
  const FrameOptionsHeader := "X-Frame-Options"
  const XssProtectionHeader := "X-Xss-Protection"
  const ReferrerPolicyHeader := "Referrer-Policy"
  const ContentSecurityPolicyHeader := "Content-Security-Policy"
  const CacheControlHeader := "Cache-Control"
  const StrictTransportSecurityHeader := "Strict-Transport-Security"
  const ContentTypeHeader := "Content-Type"

  datatype SecurityMiddlewareConfig = SecurityMiddlewareConfig(
    xContentTypeOptions: string,
    xFrameOptions: string,
    xXssProtection: string,
    referrerPolicy: string,
    contentSecurityPolicy: string,
    cacheControl: string,
    strictTransportSecurity: string)

  /** The built-in middlewares, in the forms the application attaches them. */
  datatype Middleware =
    | Webserver
    | RequestIdMiddleware
    | RealIP
    | Logger
    | Recoverer
    | Heartbeat(endpoint: string)
    | Security(config: SecurityMiddlewareConfig)

  /** What a middleware sees and passes on: the request and the response headers written so far. */
  datatype Exchange = Exchange(req: HttpRequest, resp: Header)

  /**
   * How a middleware, or a chain of them, lets go of an exchange: it hands
   * it on to the next handler, or it answers the request itself with the
   * response headers as they then stand.
   */
  datatype Outcome = Next(ex: Exchange) | Answered(ex: Exchange)

  /** The secure baseline: every one of the seven fields is set. */
  function DefaultSecurityMiddlewareConfig(): (c: SecurityMiddlewareConfig)
    ensures c.xContentTypeOptions != "" && c.xFrameOptions != "" && c.xXssProtection != ""
    ensures c.referrerPolicy != "" && c.contentSecurityPolicy != "" && c.cacheControl != ""
    ensures c.strictTransportSecurity != ""
  {
    SecurityMiddlewareConfig(
      "nosniff",
      "DENY",
      "1; mode=block",
      "no-referrer",
      "default-src 'self'",
      "no-store",
      "max-age=63072000; includeSubDomains; preload")
  }

  /** A caller-supplied configuration replaces the defaults wholesale; only the first one counts. */
  function SecurityConfigOf(config: seq<SecurityMiddlewareConfig>): (c: SecurityMiddlewareConfig)
    ensures |config| == 0 ==> c == DefaultSecurityMiddlewareConfig()
    ensures |config| > 0 ==> c == config[0]
  {
    if |config| != 0 then config[0] else DefaultSecurityMiddlewareConfig()
  }

  /** The seven security headers, in the order the middleware sets them. */
  datatype SecurityHeader =
    | ContentTypeOptions | FrameOptions | XssProtection | ReferrerPolicy
    | ContentSecurityPolicy | CacheControl | StrictTransportSecurity

  const SecurityOrder: seq<SecurityHeader> := [
    ContentTypeOptions, FrameOptions, XssProtection, ReferrerPolicy,
    ContentSecurityPolicy, CacheControl, StrictTransportSecurity]

  function HeaderName(sh: SecurityHeader): string {
    match sh
    case ContentTypeOptions => ContentTypeOptionsHeader
    case FrameOptions => FrameOptionsHeader
    case XssProtection => XssProtectionHeader
    case ReferrerPolicy => ReferrerPolicyHeader
    case ContentSecurityPolicy => ContentSecurityPolicyHeader
    case CacheControl => CacheControlHeader
    case StrictTransportSecurity => StrictTransportSecurityHeader
  }

  /** The configuration field that feeds a header. */
  function Field(c: SecurityMiddlewareConfig, sh: SecurityHeader): string {
    match sh
    case ContentTypeOptions => c.xContentTypeOptions
    case FrameOptions => c.xFrameOptions
    case XssProtection => c.xXssProtection
    case ReferrerPolicy => c.referrerPolicy
    case ContentSecurityPolicy => c.contentSecurityPolicy
    case CacheControl => c.cacheControl
    case StrictTransportSecurity => c.strictTransportSecurity
  }

  /** The seven header names are pairwise distinct (they differ in length or first letter). */
  lemma HeaderNameInjective(a: SecurityHeader, b: SecurityHeader)
    ensures HeaderName(a) == HeaderName(b) ==> a == b
  {
    assert |ContentTypeOptionsHeader| == 22 && ContentTypeOptionsHeader[0] == 'X';
    assert |FrameOptionsHeader| == 15 && FrameOptionsHeader[0] == 'X';
    assert |XssProtectionHeader| == 16 && XssProtectionHeader[0] == 'X';
    assert |ReferrerPolicyHeader| == 15 && ReferrerPolicyHeader[0] == 'R';
    assert |ContentSecurityPolicyHeader| == 23 && ContentSecurityPolicyHeader[0] == 'C';
    assert |CacheControlHeader| == 13 && CacheControlHeader[0] == 'C';
    assert |StrictTransportSecurityHeader| == 25 && StrictTransportSecurityHeader[0] == 'S';
  }

  function SetIfNonEmpty(h: Header, name: string, value: string): Header {
    if value != "" then h[name := value] else h
  }

  /** The names of the headers among `hs` whose fields are non-empty. */
  function Touched(c: SecurityMiddlewareConfig, hs: seq<SecurityHeader>): set<string> {
    set sh | sh in hs && Field(c, sh) != "" :: HeaderName(sh)
  }

  /** Setting the headers of `hs` one after another, each only when its field is non-empty. */
  function SetEach(c: SecurityMiddlewareConfig, h: Header, hs: seq<SecurityHeader>): Header
    decreases |hs|
  {
    if hs == [] then h else SetEach(c, SetIfNonEmpty(h, HeaderName(hs[0]), Field(c, hs[0])), hs[1..])
  }

  lemma {:induction false} SetEachSpec(c: SecurityMiddlewareConfig, h: Header, hs: seq<SecurityHeader>)
    requires forall i, j :: 0 <= i < j < |hs| ==> hs[i] != hs[j]
    ensures forall sh :: sh in hs && Field(c, sh) != "" ==>
              HeaderName(sh) in SetEach(c, h, hs) && SetEach(c, h, hs)[HeaderName(sh)] == Field(c, sh)
    ensures forall name :: name !in Touched(c, hs) ==> (name in SetEach(c, h, hs) <==> name in h)
    ensures forall name :: name !in Touched(c, hs) && name in h ==> SetEach(c, h, hs)[name] == h[name]
    decreases |hs|
  {
    if hs != [] {
      var h' := SetIfNonEmpty(h, HeaderName(hs[0]), Field(c, hs[0]));
      var rest := hs[1..];
      SetEachSpec(c, h', rest);
      forall sh | sh in rest
        ensures HeaderName(sh) != HeaderName(hs[0])
      {
        HeaderNameInjective(sh, hs[0]);
      }
      assert Touched(c, hs) == Touched(c, rest) + (if Field(c, hs[0]) != "" then {HeaderName(hs[0])} else {});
    }
  }

  /** Every header is in the order, and a header with an empty field is not touched. */
  lemma OrderCoversAll(c: SecurityMiddlewareConfig)
    ensures forall sh :: sh in SecurityOrder
    ensures forall sh :: Field(c, sh) == "" ==> HeaderName(sh) !in Touched(c, SecurityOrder)
  {
    forall sh ensures sh in SecurityOrder {
      match sh
      case ContentTypeOptions => assert SecurityOrder[0] == sh;
      case FrameOptions => assert SecurityOrder[1] == sh;
      case XssProtection => assert SecurityOrder[2] == sh;
      case ReferrerPolicy => assert SecurityOrder[3] == sh;
      case ContentSecurityPolicy => assert SecurityOrder[4] == sh;
      case CacheControl => assert SecurityOrder[5] == sh;
      case StrictTransportSecurity => assert SecurityOrder[6] == sh;
    }
    forall sh | Field(c, sh) == "" ensures HeaderName(sh) !in Touched(c, SecurityOrder) {
      forall sh' | sh' in SecurityOrder ensures HeaderName(sh') == HeaderName(sh) ==> sh' == sh {
        HeaderNameInjective(sh', sh);
      }
    }
  }

  /**
   * Each security header is set to its field exactly when the field is
   * non-empty; every other header, and every header of an empty field, is
   * left as it was.
   */
  function ApplySecurity(c: SecurityMiddlewareConfig, h: Header): (r: Header)
    ensures forall sh :: Field(c, sh) != "" ==> HeaderName(sh) in r && r[HeaderName(sh)] == Field(c, sh)
    ensures forall sh :: Field(c, sh) == "" ==> (HeaderName(sh) in r <==> HeaderName(sh) in h)
    ensures forall sh :: Field(c, sh) == "" && HeaderName(sh) in h ==> r[HeaderName(sh)] == h[HeaderName(sh)]
    ensures forall name :: name !in Touched(c, SecurityOrder) ==> (name in r <==> name in h)
    ensures forall name :: name !in Touched(c, SecurityOrder) && name in h ==> r[name] == h[name]
  {
    SetEachSpec(c, h, SecurityOrder);
    OrderCoversAll(c);
    SetEach(c, h, SecurityOrder)
  }

  /** The banner headers, with every other header left as it was. */
  function ApplyWebserver(h: Header): (r: Header)
    ensures ServerHeader in r && r[ServerHeader] == "draken"
    ensures VersionHeader in r && r[VersionHeader] == "v1"
    ensures r.Keys == h.Keys + {ServerHeader, VersionHeader}
    ensures forall name :: name in h && name != ServerHeader && name != VersionHeader ==> r[name] == h[name]
  {
    h[ServerHeader := "draken"][VersionHeader := "v1"]
  }

  /**
   * The id goes both into the context under the application's request-id
   * key and into the response header; nothing else changes.
   */
  function ApplyRequestId(x: Exchange, id: string): (r: Exchange)
    ensures r.req.ctx == x.req.ctx[ContextKey(RequestIdKey) := StringValue(id)]
    ensures RequestIdHeader in r.resp && r.resp[RequestIdHeader] == id
    ensures r.resp.Keys == x.resp.Keys + {RequestIdHeader}
    ensures forall name :: name in x.resp && name != RequestIdHeader ==> r.resp[name] == x.resp[name]
    ensures r.req == x.req.(ctx := r.req.ctx)
  {
    Exchange(x.req.(ctx := x.req.ctx[ContextKey(RequestIdKey) := StringValue(id)]), x.resp[RequestIdHeader := id])
  }

  /** Case-insensitive equality of two strings, folding ASCII letters. */
  predicate EqualFold(a: string, b: string) {
    |a| == |b| && forall i | 0 <= i < |a| :: ToLower(a[i]) == ToLower(b[i])
  }

  /** Header.Get on a canonical name: the value, or "" when the header is absent. */
  function HeaderGet(h: Header, name: string): (v: string)
    ensures name in h ==> v == h[name]
    ensures name !in h ==> v == ""
  {
    if name in h then h[name] else ""
  }

  /** The text before the first ',', or all of it when there is none. */
  function BeforeComma(s: string): (r: string)
    ensures |r| <= |s| && r == s[..|r|]
    ensures ',' !in r
    ensures |r| < |s| ==> s[|r|] == ','
    decreases |s|
  {
    if s == [] || s[0] == ',' then [] else [s[0]] + BeforeComma(s[1..])
  }

  /**
   * The client address chi's RealIP finds in the headers: True-Client-IP,
   * else X-Real-IP, else the first entry of X-Forwarded-For; "" when the
   * chosen text is empty or is not an IP address. `isIp` stands for
   * net.ParseIP succeeding.
   */
  function RealIpOf(r: HttpRequest, isIp: string -> bool): (ip: string)
    ensures ip != "" ==> isIp(ip)
    ensures ip == "" || ip == HeaderGet(r.header, TrueClientIpHeader) || ip == HeaderGet(r.header, RealIpHeader)
            || ip == BeforeComma(HeaderGet(r.header, ForwardedForHeader))
  {
    var tcip := HeaderGet(r.header, TrueClientIpHeader);
    var xrip := HeaderGet(r.header, RealIpHeader);
    var ip := if tcip != "" then tcip else if xrip != "" then xrip
              else BeforeComma(HeaderGet(r.header, ForwardedForHeader));
    if ip == "" || !isIp(ip) then "" else ip
  }

  /** The address the rest of the chain sees: the real IP when there is one, the peer address otherwise. */
  function ClientAddr(r: HttpRequest, isIp: string -> bool): string {
    if RealIpOf(r, isIp) != "" then RealIpOf(r, isIp) else r.remoteAddr
  }

  /** RealIP: the request's RemoteAddr becomes the client address; nothing else changes. */
  function ApplyRealIp(x: Exchange, isIp: string -> bool): (r: Exchange)
    ensures r.resp == x.resp
    ensures r.req == x.req.(remoteAddr := ClientAddr(x.req, isIp))
  {
    x.(req := x.req.(remoteAddr := ClientAddr(x.req, isIp)))
  }

  /**
   * True-Client-IP takes precedence over X-Real-IP, which takes precedence
   * over X-Forwarded-For; a chosen text that is not an IP address leaves the
   * peer address in place, without falling back to a later header.
   */
  lemma RealIpPrecedence(r: HttpRequest, isIp: string -> bool)
    ensures var tcip := HeaderGet(r.header, TrueClientIpHeader);
            tcip != "" ==> ClientAddr(r, isIp) == (if isIp(tcip) then tcip else r.remoteAddr)
    ensures var tcip := HeaderGet(r.header, TrueClientIpHeader);
            var xrip := HeaderGet(r.header, RealIpHeader);
            tcip == "" && xrip != "" ==> ClientAddr(r, isIp) == (if isIp(xrip) then xrip else r.remoteAddr)
    ensures var tcip := HeaderGet(r.header, TrueClientIpHeader);
            var xrip := HeaderGet(r.header, RealIpHeader);
            var first := BeforeComma(HeaderGet(r.header, ForwardedForHeader));
            tcip == "" && xrip == "" ==>
              ClientAddr(r, isIp) == (if first != "" && isIp(first) then first else r.remoteAddr)
  {
  }

  /** A peer at 192.0.2.7:5000 behind a proxy that sets X-Real-IP: 10.0.0.1 is seen as 10.0.0.1. */
  lemma RealIpFromProxy(r: HttpRequest, isIp: string -> bool)
    requires r.remoteAddr == "192.0.2.7:5000" && r.header == map[RealIpHeader := "10.0.0.1"]
    requires isIp("10.0.0.1")
    ensures ClientAddr(r, isIp) == "10.0.0.1"
  {
    assert |TrueClientIpHeader| != |RealIpHeader|;
  }

  /** Whether the heartbeat middleware answers the request itself. */
  predicate IsHeartbeatRequest(endpoint: string, r: HttpRequest) {
    (r.verb == "GET" || r.verb == "HEAD") && EqualFold(r.path, endpoint)
  }

  /** The response to a heartbeat probe: the headers so far, declared plain text. */
  function HeartbeatAnswer(x: Exchange): (r: Exchange)
    ensures r.req == x.req
    ensures ContentTypeHeader in r.resp && r.resp[ContentTypeHeader] == "text/plain"
    ensures r.resp.Keys == x.resp.Keys + {ContentTypeHeader}
    ensures forall name :: name in x.resp && name != ContentTypeHeader ==> r.resp[name] == x.resp[name]
  {
    x.(resp := x.resp[ContentTypeHeader := "text/plain"])
  }

  /**
   * One middleware's effect before the downstream handler runs: Next(y) when
   * it calls the next handler exactly once, with y; Answered(y) when it
   * answers the request itself with y's headers. `id` is the fresh id the
   * request-id middleware draws.
   */
  function Step(m: Middleware, x: Exchange, id: string, isIp: string -> bool): Outcome {
    match m
    case Webserver => Next(x.(resp := ApplyWebserver(x.resp)))
    case RequestIdMiddleware => Next(ApplyRequestId(x, id))
    case RealIP => Next(ApplyRealIp(x, isIp))
    case Logger => Next(x)
    case Recoverer => Next(x)
    case Heartbeat(endpoint) => if IsHeartbeatRequest(endpoint, x.req) then Answered(HeartbeatAnswer(x)) else Next(x)
    case Security(c) => Next(x.(resp := ApplySecurity(c, x.resp)))
  }

  /** Header-setting middlewares always call the next handler, with their headers already set. */
  lemma HeaderMiddlewaresCallNext(m: Middleware, x: Exchange, id: string, isIp: string -> bool)
    requires m.Webserver? || m.RequestIdMiddleware? || m.Security?
    ensures Step(m, x, id, isIp).Next?
    ensures m.Webserver? ==> Step(m, x, id, isIp).ex.resp[ServerHeader] == "draken"
    ensures m.RequestIdMiddleware? ==> Step(m, x, id, isIp).ex.resp[RequestIdHeader] == id
    ensures m.Security? ==> Step(m, x, id, isIp).ex.resp == ApplySecurity(m.config, x.resp)
  {
  }

  /**
   * The heartbeat answers GET and HEAD requests for its endpoint, whatever
   * the letter case of the path, and passes every other request on as it is.
   */
  lemma HeartbeatStep(endpoint: string, x: Exchange, id: string, isIp: string -> bool)
    ensures Step(Heartbeat(endpoint), x, id, isIp).Answered? <==>
              (x.req.verb == "GET" || x.req.verb == "HEAD") && EqualFold(x.req.path, endpoint)
    ensures Step(Heartbeat(endpoint), x, id, isIp).Next? ==> Step(Heartbeat(endpoint), x, id, isIp).ex == x
    ensures Step(Heartbeat(endpoint), x, id, isIp).Answered? ==>
              Step(Heartbeat(endpoint), x, id, isIp).ex == HeartbeatAnswer(x)
  {
  }

  /** Folding makes "/Health" match an endpoint of "/health". */
  lemma EqualFoldIgnoresCase()
    ensures EqualFold("/Health", "/health")
    ensures !EqualFold("/health", "/healthz")
  {
    assert ToLower('H') == 'h';
  }

  /** What the chain does with an exchange: the exchange reaching the final handler, or the answer some middleware gave. */
  function RunChain(chain: seq<Middleware>, x: Exchange, id: string, isIp: string -> bool): Outcome
    decreases |chain|
  {
    if chain == [] then Next(x)
    else match Step(chain[0], x, id, isIp)
      case Answered(y) => Answered(y)
      case Next(y) => RunChain(chain[1..], y, id, isIp)
  }

  /** Running two chains one after the other is running their concatenation. */
  lemma {:induction false} RunChainAppend(a: seq<Middleware>, b: seq<Middleware>, x: Exchange, id: string, isIp: string -> bool)
    ensures RunChain(a + b, x, id, isIp) ==
              match RunChain(a, x, id, isIp)
              case Answered(y) => Answered(y)
              case Next(y) => RunChain(b, y, id, isIp)
    decreases |a|
  {
    if a == [] {
      assert a + b == b;
    } else {
      assert (a + b)[0] == a[0];
      assert (a + b)[1..] == a[1..] + b;
      match Step(a[0], x, id, isIp)
      case Answered(_) =>
      case Next(y) => RunChainAppend(a[1..], b, y, id, isIp);
    }
  }

  /**
   * The logger reports the X-Real-IP header when it is present and
   * non-empty, and the socket peer address otherwise.
   */
  function LoggerRemoteAddr(r: HttpRequest): (addr: string)
    ensures RealIpHeader in r.header && r.header[RealIpHeader] != "" ==> addr == r.header[RealIpHeader]
    ensures !(RealIpHeader in r.header && r.header[RealIpHeader] != "") ==> addr == r.remoteAddr
  {
    var realIp := if RealIpHeader in r.header then r.header[RealIpHeader] else "";
    if realIp != "" then realIp else r.remoteAddr
  }

  /**
   * The essential chain, in order: the banner unless hidden, request id,
   * real IP, logger, recoverer, then heartbeat and security when enabled.
   */
  function EssentialChain(s: Config.ServerConfig): seq<Middleware> {
    (if s.hidden then [] else [Webserver])
      + [RequestIdMiddleware, RealIP, Logger, Recoverer]
      + (if s.heartbeat.enabled then [Heartbeat(s.heartbeat.endpoint)] else [])
      + (if s.security then [Security(SecurityConfigOf([]))] else [])
  }

  /** The banner and request-id headers are not among the security headers. */
  lemma SecurityHeadersAreOthers(sh: SecurityHeader)
    ensures HeaderName(sh) != ServerHeader
    ensures HeaderName(sh) != VersionHeader
    ensures HeaderName(sh) != RequestIdHeader
  {
    assert |ServerHeader| == 6 && |RequestIdHeader| == 19;
    assert |VersionHeader| == 16 && VersionHeader[2] == 'D';
    match sh
    case ContentTypeOptions => assert |HeaderName(sh)| == 22;
    case FrameOptions => assert |HeaderName(sh)| == 15;
    case XssProtection => assert |HeaderName(sh)| == 16 && HeaderName(sh)[2] == 'X';
    case ReferrerPolicy => assert |HeaderName(sh)| == 15;
    case ContentSecurityPolicy => assert |HeaderName(sh)| == 23;
    case CacheControl => assert |HeaderName(sh)| == 13;
    case StrictTransportSecurity => assert |HeaderName(sh)| == 25;
  }

  /** The essential chain up to (not including) heartbeat and security. */
  lemma {:induction false} EssentialPrefixRun(s: Config.ServerConfig, x: Exchange, id: string, isIp: string -> bool)
    ensures var pre := (if s.hidden then [] else [Webserver]) + [RequestIdMiddleware, RealIP, Logger, Recoverer];
            var w := if s.hidden then x else x.(resp := ApplyWebserver(x.resp));
            RunChain(pre, x, id, isIp) == Next(ApplyRealIp(ApplyRequestId(w, id), isIp))
  {
    var core := [RequestIdMiddleware, RealIP, Logger, Recoverer];
    var w := if s.hidden then x else x.(resp := ApplyWebserver(x.resp));
    var y0 := ApplyRequestId(w, id);
    var y := ApplyRealIp(y0, isIp);
    assert RunChain(core[3..], y, id, isIp) == Next(y) by { assert core[3..][1..] == []; }
    assert RunChain(core[2..], y, id, isIp) == Next(y) by { assert core[2..][1..] == core[3..]; }
    assert RunChain(core[1..], y0, id, isIp) == Next(y) by { assert core[1..][1..] == core[2..]; }
    assert RunChain(core, w, id, isIp) == Next(y);
    if !s.hidden {
      RunChainAppend([Webserver], core, x, id, isIp);
      assert RunChain([Webserver], x, id, isIp) == Next(w) by { assert [Webserver][1..] == []; }
    } else {
      assert [] + core == core;
    }
  }

  /** The exchange after the banner middleware, when the chain has it. */
  function Bannered(s: Config.ServerConfig, x: Exchange): Exchange {
    if s.hidden then x else x.(resp := ApplyWebserver(x.resp))
  }

  /** The exchange after the banner, request-id and real-IP middlewares. */
  function Prepared(s: Config.ServerConfig, x: Exchange, id: string, isIp: string -> bool): Exchange {
    ApplyRealIp(ApplyRequestId(Bannered(s, x), id), isIp)
  }

  /** The exchange after the security middleware, when the chain has it. */
  function Secured(s: Config.ServerConfig, z: Exchange): Exchange {
    if s.security then z.(resp := ApplySecurity(DefaultSecurityMiddlewareConfig(), z.resp)) else z
  }

  /** Whether the chain's heartbeat answers this request. */
  predicate IsProbe(s: Config.ServerConfig, r: HttpRequest) {
    s.heartbeat.enabled && IsHeartbeatRequest(s.heartbeat.endpoint, r)
  }

  /** The heartbeat part of the chain answers a probe and passes anything else on unchanged. */
  lemma HeartbeatPartRun(s: Config.ServerConfig, z: Exchange, id: string, isIp: string -> bool)
    ensures var hb := if s.heartbeat.enabled then [Heartbeat(s.heartbeat.endpoint)] else [];
            RunChain(hb, z, id, isIp) == if IsProbe(s, z.req) then Answered(HeartbeatAnswer(z)) else Next(z)
  {
    if s.heartbeat.enabled {
      assert [Heartbeat(s.heartbeat.endpoint)][1..] == [];
    }
  }

  /** The security part of the chain sets the default security headers. */
  lemma SecurityPartRun(s: Config.ServerConfig, z: Exchange, id: string, isIp: string -> bool)
    ensures var sec := if s.security then [Security(SecurityConfigOf([]))] else [];
            RunChain(sec, z, id, isIp) == Next(Secured(s, z))
  {
    if s.security {
      var c := SecurityConfigOf([]);
      assert c == DefaultSecurityMiddlewareConfig();
      assert [Security(c)][1..] == [];
      assert Step(Security(c), z, id, isIp) == Next(z.(resp := ApplySecurity(c, z.resp)));
    }
  }

  /** The essential chain, run step by step. */
  lemma {:induction false} EssentialChainRun(s: Config.ServerConfig, x: Exchange, id: string, isIp: string -> bool)
    ensures RunChain(EssentialChain(s), x, id, isIp) ==
              if IsProbe(s, x.req) then Answered(HeartbeatAnswer(Prepared(s, x, id, isIp)))
              else Next(Secured(s, Prepared(s, x, id, isIp)))
  {
    var pre := (if s.hidden then [] else [Webserver]) + [RequestIdMiddleware, RealIP, Logger, Recoverer];
    var hb := if s.heartbeat.enabled then [Heartbeat(s.heartbeat.endpoint)] else [];
    var sec := if s.security then [Security(SecurityConfigOf([]))] else [];
    assert EssentialChain(s) == pre + hb + sec;
    var z := Prepared(s, x, id, isIp);
    assert z.req.path == x.req.path && z.req.verb == x.req.verb;
    EssentialPrefixRun(s, x, id, isIp);
    HeartbeatPartRun(s, z, id, isIp);
    SecurityPartRun(s, z, id, isIp);
    RunChainAppend(pre, hb, x, id, isIp);
    RunChainAppend(pre + hb, sec, x, id, isIp);
  }

  /** The security middleware leaves the banner and request-id headers alone. */
  lemma SecurityKeepsOthers(c: SecurityMiddlewareConfig, h: Header, name: string)
    requires name == ServerHeader || name == VersionHeader || name == RequestIdHeader
    ensures name in ApplySecurity(c, h) <==> name in h
    ensures name in h ==> ApplySecurity(c, h)[name] == h[name]
  {
    forall sh | sh in SecurityOrder ensures HeaderName(sh) != name {
      SecurityHeadersAreOthers(sh);
    }
    assert name !in Touched(c, SecurityOrder);
  }

  /** With the default configuration every security header is set to its default. */
  lemma DefaultSecuritySetsAll(h: Header)
    ensures forall sh :: HeaderName(sh) in ApplySecurity(DefaultSecurityMiddlewareConfig(), h)
              && ApplySecurity(DefaultSecurityMiddlewareConfig(), h)[HeaderName(sh)]
                 == Field(DefaultSecurityMiddlewareConfig(), sh)
  {
    var c := DefaultSecurityMiddlewareConfig();
    forall sh ensures Field(c, sh) != "" {
      match sh
      case ContentTypeOptions =>
      case FrameOptions =>
      case XssProtection =>
      case ReferrerPolicy =>
      case ContentSecurityPolicy =>
      case CacheControl =>
      case StrictTransportSecurity =>
    }
  }

  /**
   * The essential chain answers a request itself exactly when it is a
   * heartbeat probe; the answer carries the request id and the banner unless
   * hidden, is declared plain text, and has no security header added, since
   * the security middleware comes after the heartbeat.
   */
  lemma EssentialChainAnswers(s: Config.ServerConfig, x: Exchange, id: string, isIp: string -> bool)
    ensures RunChain(EssentialChain(s), x, id, isIp).Answered? <==>
              s.heartbeat.enabled && IsHeartbeatRequest(s.heartbeat.endpoint, x.req)
    ensures var o := RunChain(EssentialChain(s), x, id, isIp);
            o.Answered? ==>
              && RequestIdHeader in o.ex.resp && o.ex.resp[RequestIdHeader] == id
              && ContentTypeHeader in o.ex.resp && o.ex.resp[ContentTypeHeader] == "text/plain"
              && (!s.hidden ==> ServerHeader in o.ex.resp && o.ex.resp[ServerHeader] == "draken"
                                && VersionHeader in o.ex.resp && o.ex.resp[VersionHeader] == "v1")
              && (forall sh :: HeaderName(sh) in o.ex.resp <==> HeaderName(sh) in x.resp)
  {
    EssentialChainRun(s, x, id, isIp);
    forall sh ensures HeaderName(sh) != ContentTypeHeader {
      assert |ContentTypeHeader| == 12;
      SecurityHeadersAreOthers(sh);
      match sh
      case ContentTypeOptions => assert |HeaderName(sh)| == 22;
      case FrameOptions => assert |HeaderName(sh)| == 15;
      case XssProtection => assert |HeaderName(sh)| == 16;
      case ReferrerPolicy => assert |HeaderName(sh)| == 15;
      case ContentSecurityPolicy => assert |HeaderName(sh)| == 23;
      case CacheControl => assert |HeaderName(sh)| == 13;
      case StrictTransportSecurity => assert |HeaderName(sh)| == 25;
    }
  }

  /**
   * After the banner, request-id and real-IP steps, the request carries the
   * id in its context and the client address, and the response the id and
   * the banner unless hidden.
   */
  lemma PreparedExchange(s: Config.ServerConfig, x: Exchange, id: string, isIp: string -> bool)
    ensures var z := Prepared(s, x, id, isIp);
            && z.req == x.req.(ctx := x.req.ctx[ContextKey(RequestIdKey) := StringValue(id)],
                               remoteAddr := ClientAddr(x.req, isIp))
            && RequestIdHeader in z.resp && z.resp[RequestIdHeader] == id
            && (!s.hidden ==> ServerHeader in z.resp && z.resp[ServerHeader] == "draken"
                              && VersionHeader in z.resp && z.resp[VersionHeader] == "v1")
            && (s.hidden ==> (ServerHeader in z.resp <==> ServerHeader in x.resp))
  {
    var w := ApplyRequestId(Bannered(s, x), id);
    assert w.req.header == x.req.header && w.req.remoteAddr == x.req.remoteAddr;
    assert RealIpOf(w.req, isIp) == RealIpOf(x.req, isIp);
  }

  /**
   * The security step keeps the request, the banner and the request-id
   * header, and when security is on sets every default security header.
   */
  lemma SecuredExchange(s: Config.ServerConfig, z: Exchange)
    ensures Secured(s, z).req == z.req
    ensures ServerHeader in Secured(s, z).resp <==> ServerHeader in z.resp
    ensures ServerHeader in z.resp ==> Secured(s, z).resp[ServerHeader] == z.resp[ServerHeader]
    ensures VersionHeader in z.resp ==>
              VersionHeader in Secured(s, z).resp && Secured(s, z).resp[VersionHeader] == z.resp[VersionHeader]
    ensures RequestIdHeader in z.resp ==>
              RequestIdHeader in Secured(s, z).resp && Secured(s, z).resp[RequestIdHeader] == z.resp[RequestIdHeader]
    ensures s.security ==>
              forall sh :: HeaderName(sh) in Secured(s, z).resp
                && Secured(s, z).resp[HeaderName(sh)] == Field(DefaultSecurityMiddlewareConfig(), sh)
  {
    if s.security {
      var c := DefaultSecurityMiddlewareConfig();
      SecurityKeepsOthers(c, z.resp, ServerHeader);
      SecurityKeepsOthers(c, z.resp, VersionHeader);
      SecurityKeepsOthers(c, z.resp, RequestIdHeader);
      DefaultSecuritySetsAll(z.resp);
    }
  }

  /**
   * What reaches the handler when the chain does not answer: the request
   * carries a fresh id in its context and the client address RealIP found,
   * and is otherwise the client's; the response carries that id, the banner
   * unless hidden, and every default security header when security is on.
   */
  lemma EssentialChainHandlerSees(s: Config.ServerConfig, x: Exchange, id: string, isIp: string -> bool)
    requires !(s.heartbeat.enabled && IsHeartbeatRequest(s.heartbeat.endpoint, x.req))
    ensures RunChain(EssentialChain(s), x, id, isIp).Next?
    ensures var y := RunChain(EssentialChain(s), x, id, isIp).ex;
            && RequestId(Request(y.req)) == id
            && y.req == x.req.(ctx := x.req.ctx[ContextKey(RequestIdKey) := StringValue(id)],
                               remoteAddr := ClientAddr(x.req, isIp))
            && RequestIdHeader in y.resp && y.resp[RequestIdHeader] == id
            && (!s.hidden ==> ServerHeader in y.resp && y.resp[ServerHeader] == "draken"
                              && VersionHeader in y.resp && y.resp[VersionHeader] == "v1")
            && (s.hidden ==> (ServerHeader in y.resp <==> ServerHeader in x.resp))
            && (s.security ==> forall sh :: HeaderName(sh) in y.resp
                                 && y.resp[HeaderName(sh)] == Field(DefaultSecurityMiddlewareConfig(), sh))
  {
    EssentialChainRun(s, x, id, isIp);
    var z := Prepared(s, x, id, isIp);
    PreparedExchange(s, x, id, isIp);
    SecuredExchange(s, z);
    var y := RunChain(EssentialChain(s), x, id, isIp).ex;
    assert y == Secured(s, z);
    assert y.req == z.req;
  }


  /** The chain has exactly the middlewares the configuration switches on, in their fixed order. */
  lemma EssentialChainShape(s: Config.ServerConfig)
    ensures Webserver in EssentialChain(s) <==> !s.hidden
    ensures (Heartbeat(s.heartbeat.endpoint) in EssentialChain(s)) <==> s.heartbeat.enabled
    ensures Security(DefaultSecurityMiddlewareConfig()) in EssentialChain(s) <==> s.security
    ensures |EssentialChain(s)| == 4 + (if s.hidden then 0 else 1) + (if s.heartbeat.enabled then 1 else 0) + (if s.security then 1 else 0)
    ensures !s.hidden ==> EssentialChain(s)[0] == Webserver
    ensures EssentialChain(s)[if s.hidden then 0 else 1..][..4] == [RequestIdMiddleware, RealIP, Logger, Recoverer]
    ensures s.security ==> EssentialChain(s)[|EssentialChain(s)| - 1] == Security(DefaultSecurityMiddlewareConfig())
    ensures s.heartbeat.enabled ==>
              EssentialChain(s)[|EssentialChain(s)| - 1 - (if s.security then 1 else 0)] == Heartbeat(s.heartbeat.endpoint)
  {
    var chain := EssentialChain(s);
    var banner := if s.hidden then [] else [Webserver];
    var core := [RequestIdMiddleware, RealIP, Logger, Recoverer];
    var hb := if s.heartbeat.enabled then [Heartbeat(s.heartbeat.endpoint)] else [];
    var sec := if s.security then [Security(SecurityConfigOf([]))] else [];
    assert chain == banner + core + hb + sec;
    assert chain[|banner|..][..4] == core;
    assert SecurityConfigOf([]) == DefaultSecurityMiddlewareConfig();
    assert Webserver !in core && Webserver !in hb && Webserver !in sec;
    assert Heartbeat(s.heartbeat.endpoint) !in banner + core + sec;
    assert Security(DefaultSecurityMiddlewareConfig()) !in banner + core + hb;
  }

  /** The chi mux, as far as the application uses it: its ordered middleware stack. */
  class Mux {
    var middlewares: seq<Middleware>

    constructor ()
      ensures middlewares == []
    {
      middlewares := [];
    }

    method Use(m: Middleware)
      modifies this
      ensures middlewares == old(middlewares) + [m]
    {
      middlewares := middlewares + [m];
    }
  }
}
