/**
 * The CORS middleware: writes the `Access-Control-*` response headers and
 * answers `OPTIONS` preflight requests itself with 204.
 *
 * The `origin` and `headers` settings may be callbacks. A callback is
 * called on the first request that needs it, and its result replaces the
 * setting on the middleware instance, so every later request sees that
 * cached result.
 */
module Cors {
  import opened Js
  import opened Http

  /** A setting that is either a value or a callback on the request's
      header value. */
  datatype Setting = Fixed(value: Value) | Callback(f: Value -> Value)

  const DefaultMethods: Value := Arr([Str("GET"), Str("POST"), Str("PUT")])

  /** `Config.get('cors.<name>', default)` for a setting that may be a
      function: functions in the configuration are given in `callbacks`,
      by full key. */
  function SettingFrom(config: Value, callbacks: map<string, Value -> Value>, key: string, default: Value): Setting {
    if key in callbacks then Callback(callbacks[key]) else Fixed(Get(config, key, default))
  }

  /** The value a setting holds after it was resolved for one request. */
  function Resolved(s: Setting, requestValue: Value): Value {
    match s
    case Fixed(v) => v
    case Callback(f) => f(requestValue)
  }

  /** `setting === true ? requestValue : setting` */
  function Echo(setting: Value, requestValue: Value): Value {
    if setting == Bool(true) then requestValue else setting
  }

  /** The parts of a request the CORS decision looks at. */
  datatype CorsRequest = CorsRequest(verb: string, origin: Value, requestHeaders: Value)

  /** The response headers the middleware writes. */
  datatype CorsHeader =
    | AllowOrigin | AllowCredentials | ExposeHeaders | AllowMethods | AllowHeaders | AllowMaxAge

  /** The header's name on the wire; max-age goes out as
      `Access-Control-Allow-Max-Age`, not the standard `Access-Control-Max-Age`. */
  function Name(h: CorsHeader): string {
    match h
    case AllowOrigin => "Access-Control-Allow-Origin"
    case AllowCredentials => "Access-Control-Allow-Credentials"
    case ExposeHeaders => "Access-Control-Expose-Headers"
    case AllowMethods => "Access-Control-Allow-Methods"
    case AllowHeaders => "Access-Control-Allow-Headers"
    case AllowMaxAge => "Access-Control-Allow-Max-Age"
  }

  /** What `handle` does to the response: the header writes in order, the
      status sent (if any), and whether the next middleware runs. */
  datatype CorsReply = CorsReply(writes: seq<(CorsHeader, Value)>, status: Option<nat>, callsNext: bool)

  /** The reply writes header `h`, with some value. */
  ghost predicate Sets(writes: seq<(CorsHeader, Value)>, h: CorsHeader) {
    exists v :: (h, v) in writes
  }

  /** The writes as `response.header(name, value)` calls. */
  function Rendered(writes: seq<(CorsHeader, Value)>): seq<(string, Value)> {
    seq(|writes|, i requires 0 <= i < |writes| => (Name(writes[i].0), writes[i].1))
  }

  /** A single write when `cond` holds, none otherwise. */
  function WriteIf(cond: bool, h: CorsHeader, v: Value): seq<(CorsHeader, Value)> {
    if cond then [(h, v)] else []
  }

  /** The writes every request gets. */
  function Common(allowOrigin: Value, credentials: Value, exposeHeaders: Value): seq<(CorsHeader, Value)> {
    [(AllowOrigin, allowOrigin), (AllowCredentials, credentials)]
      + WriteIf(Truthy(exposeHeaders), ExposeHeaders, exposeHeaders)
  }

  /** The writes only a preflight gets. */
  function Preflight(methods: Value, allowHeaders: Value, maxAge: Value): seq<(CorsHeader, Value)> {
    [(AllowMethods, methods)]
      + WriteIf(Truthy(allowHeaders), AllowHeaders, allowHeaders)
      + WriteIf(Truthy(maxAge), AllowMaxAge, maxAge)
  }

  /** The header decision of `handle` for settings `origin`, `methods`,
      `headers`, `credentials`, `exposeHeaders` and `maxAge`. */
  function Respond(origin: Setting, methods: Value, headers: Setting, credentials: Value,
                   exposeHeaders: Value, maxAge: Value, req: CorsRequest): (r: CorsReply)
    // a request that is not a preflight goes on; a preflight is answered with 204
    ensures r.callsNext <==> req.verb != "OPTIONS"
    ensures r.status == if req.verb == "OPTIONS" then Some(204) else None
    // every reply starts with Allow-Origin and Allow-Credentials
    ensures |r.writes| >= 2
    ensures r.writes[0] == (AllowOrigin, Echo(Resolved(origin, req.origin), req.origin))
    ensures r.writes[1] == (AllowCredentials, credentials)
  {
    var common := Common(Echo(Resolved(origin, req.origin), req.origin), credentials, exposeHeaders);
    if req.verb != "OPTIONS" then
      CorsReply(common, None, true)
    else
      var allowHeaders := Echo(Resolved(headers, req.requestHeaders), req.requestHeaders);
      CorsReply(common + Preflight(methods, allowHeaders, maxAge), Some(204), false)
  }

  /** What the reply of `Respond` holds, header by header. */
  lemma RespondHeaders(origin: Setting, methods: Value, headers: Setting, credentials: Value,
                       exposeHeaders: Value, maxAge: Value, req: CorsRequest)
    ensures var r := Respond(origin, methods, headers, credentials, exposeHeaders, maxAge, req);
      var allowHeaders := Echo(Resolved(headers, req.requestHeaders), req.requestHeaders);
      // Expose-Headers only when configured
      && (Sets(r.writes, ExposeHeaders) <==> Truthy(exposeHeaders))
      && (Truthy(exposeHeaders) ==> (ExposeHeaders, exposeHeaders) in r.writes)
      // the preflight headers, only on a preflight
      && (Sets(r.writes, AllowMethods) <==> req.verb == "OPTIONS")
      && (req.verb == "OPTIONS" ==> (AllowMethods, methods) in r.writes)
      && (Sets(r.writes, AllowHeaders) <==> req.verb == "OPTIONS" && Truthy(allowHeaders))
      && (req.verb == "OPTIONS" && Truthy(allowHeaders) ==> (AllowHeaders, allowHeaders) in r.writes)
      && (Sets(r.writes, AllowMaxAge) <==> req.verb == "OPTIONS" && Truthy(maxAge))
      && (req.verb == "OPTIONS" && Truthy(maxAge) ==> (AllowMaxAge, maxAge) in r.writes)
  {
  }

  class Cors {
    var origin: Setting
    const methods: Value
    var headers: Setting
    const credentials: Value
    const exposeHeaders: Value
    const maxAge: Value

    /** Reads the six settings; an unconfigured one is `false`, except
        `methods`, which defaults to GET, POST and PUT. */
    constructor (config: Value, callbacks: map<string, Value -> Value>)
      ensures origin == SettingFrom(config, callbacks, "cors.origin", Bool(false))
      ensures methods == Get(config, "cors.methods", DefaultMethods)
      ensures headers == SettingFrom(config, callbacks, "cors.headers", Bool(false))
      ensures credentials == Get(config, "cors.credentials", Bool(false))
      ensures exposeHeaders == Get(config, "cors.exposeHeaders", Bool(false))
      ensures maxAge == Get(config, "cors.maxAge", Bool(false))
    {
      origin := SettingFrom(config, callbacks, "cors.origin", Bool(false));
      methods := Get(config, "cors.methods", DefaultMethods);
      headers := SettingFrom(config, callbacks, "cors.headers", Bool(false));
      credentials := Get(config, "cors.credentials", Bool(false));
      exposeHeaders := Get(config, "cors.exposeHeaders", Bool(false));
      maxAge := Get(config, "cors.maxAge", Bool(false));
    }

    /** `_getOrigin`: a callback is replaced by its result before use. */
    method GetOrigin(requestOrigin: Value) returns (allowed: Value)
      modifies this`origin
      ensures origin == Fixed(Resolved(old(origin), requestOrigin))
      ensures allowed == Echo(Resolved(old(origin), requestOrigin), requestOrigin)
    {
      if origin.Callback? {
        origin := Fixed(origin.f(requestOrigin));
      }
      allowed := if origin.value == Bool(true) then requestOrigin else origin.value;
    }

    /** `_getHeaders`: a callback is replaced by its result before use. */
    method GetHeaders(requestHeaders: Value) returns (allowed: Value)
      modifies this`headers
      ensures headers == Fixed(Resolved(old(headers), requestHeaders))
      ensures allowed == Echo(Resolved(old(headers), requestHeaders), requestHeaders)
    {
      if headers.Callback? {
        headers := Fixed(headers.f(requestHeaders));
      }
      allowed := if headers.value == Bool(true) then requestHeaders else headers.value;
    }

    /** `handle`: the writes and status of `Respond`; the origin setting is
        resolved on every request, the headers setting on preflights only. */
    method Handle(request: Request, response: Response) returns (outcome: Outcome)
      modifies this`origin, this`headers, response`headers, response`status
      ensures var req := CorsRequest(request.verb, request.Header("origin"), request.Header("access-control-request-headers"));
        var r := Respond(old(origin), methods, old(headers), credentials, exposeHeaders, maxAge, req);
        && response.headers == old(response.headers) + Rendered(r.writes)
        && response.status == (if r.status.Some? then r.status else old(response.status))
        && outcome == (if r.callsNext then Next else Responded)
      ensures origin == Fixed(Resolved(old(origin), request.Header("origin")))
      ensures request.verb == "OPTIONS" ==> headers == Fixed(Resolved(old(headers), request.Header("access-control-request-headers")))
      ensures request.verb != "OPTIONS" ==> headers == old(headers)
    {
      ghost var before := response.headers;
      ghost var written: seq<(CorsHeader, Value)> := [];
      var allowOrigin := GetOrigin(request.Header("origin"));
      written := Write(response, AllowOrigin, allowOrigin, before, written);
      written := Write(response, AllowCredentials, credentials, before, written);
      if Truthy(exposeHeaders) {
        written := Write(response, ExposeHeaders, exposeHeaders, before, written);
      }
      assert written == Common(allowOrigin, credentials, exposeHeaders);
      if request.verb != "OPTIONS" {
        return Next;
      }
      ghost var common := written;
      written := Write(response, AllowMethods, methods, before, written);
      var corsHeaders := GetHeaders(request.Header("access-control-request-headers"));
      if Truthy(corsHeaders) {
        written := Write(response, AllowHeaders, corsHeaders, before, written);
      }
      if Truthy(maxAge) {
        written := Write(response, AllowMaxAge, maxAge, before, written);
      }
      assert written == common + Preflight(methods, corsHeaders, maxAge);
      response.Send(204);
      outcome := Responded;
    }
  }

  /** `response.header(name, value)` for one CORS header: the response
      holds the writes made so far, `written`, and then this one. */
  method Write(response: Response, h: CorsHeader, v: Value,
               ghost before: seq<(string, Value)>, ghost written: seq<(CorsHeader, Value)>)
      returns (ghost written': seq<(CorsHeader, Value)>)
    requires response.headers == before + Rendered(written)
    modifies response`headers
    ensures written' == written + [(h, v)]
    ensures response.headers == before + Rendered(written')
  {
    response.Header(Name(h), v);
    written' := written + [(h, v)];
    RenderedSnoc(written, (h, v));
  }

  lemma {:induction false} RenderedSnoc(w: seq<(CorsHeader, Value)>, x: (CorsHeader, Value))
    ensures Rendered(w + [x]) == Rendered(w) + [(Name(x.0), x.1)]
  {
  }

  /** One middleware instance serving two requests: a callback `origin` is
      called for the first request only, and the second request is answered
      from its cached result. */
  method OriginCachedAcrossRequests(callback: Value -> Value, first: string, second: string)
      returns (firstAllowed: Value, secondAllowed: Value)
    ensures firstAllowed == Echo(callback(Str(first)), Str(first))
    ensures secondAllowed == Echo(callback(Str(first)), Str(second))
  {
    var cors := new Cors(EmptyObject, map["cors.origin" := callback]);
    var request1 := new Request("GET", map["origin" := first], "", false, map[], Undefined, map[]);
    var request2 := new Request("GET", map["origin" := second], "", false, map[], Undefined, map[]);
    var response1 := new Response();
    var response2 := new Response();
    var _ := cors.Handle(request1, response1);
    firstAllowed := response1.headers[0].1;
    var _ := cors.Handle(request2, response2);
    secondAllowed := response2.headers[0].1;
  }
}
