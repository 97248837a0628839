/**
 * The Shield middleware: Content-Security-Policy headers and meta tags with a
 * per-instance nonce, and CSRF protection with a secret kept in the session
 * and a token handed to the response cookie, the request and the views.
 *
 * The libraries it calls are parameters: the CSRF library (`secret`,
 * `create`, `verify`), `url.parse(...).hostname`, `request.match`, and the
 * CSP builder's result for this request.
 */
module Shield {
  import opened Js
  import opened Http

  /** The session key under which the CSRF secret is stored. */
  const SessionKey := "csrf-secret"
  /** The code every CSRF rejection carries. */
  const CsrfCode := "EBADCSRFTOKEN"
  /** The form field (and input key) the token is posted back in. */
  const CsrfFieldName := "_csrf"

  /** A CSRF rejection: status 403, code `EBADCSRFTOKEN`. */
  function CsrfError(message: string): (e: HttpError)
    ensures e.status == Some(403) && e.code == Some(CsrfCode) && e.message == message
  {
    HttpError("Error", message, Some(403), Some(CsrfCode))
  }

  /** The `shield.csrf` configuration section. */
  datatype CsrfConfig = CsrfConfig(enable: Value, methods: seq<string>, filterUris: seq<string>,
                                   compareHostAndOrigin: Value)

  /** The CSRF library: the secret `secret()` yields, `create(secret)` and
      `verify(secret, token)`. */
  datatype CsrfLib = CsrfLib(newSecret: string, create: Value -> string, verify: (Value, Value) -> bool)

  /** What the middleware learns from code outside this model, per request:
      `url.parse(u).hostname`, `request.match(uris)` and `csp.build(...)`,
      the latter as header name and value pairs in key order. */
  datatype Env = Env(csrf: CsrfLib, hostnameOf: string -> Value, matches: seq<string> -> bool,
                     cspValues: seq<(string, string)>)

  /** `_isFiltered`: an empty list filters nothing; otherwise the request's
      URL is matched against the list. */
  function IsFiltered(filterUris: seq<string>, matches: seq<string> -> bool): (r: bool)
    ensures |filterUris| == 0 ==> !r
    ensures r ==> matches(filterUris)
    ensures |filterUris| > 0 && matches(filterUris) ==> r
  {
    if |filterUris| > 0 then matches(filterUris) else false
  }

  /** Whether `handle` validates the request: its method is one of the
      protected methods and its URL is not filtered out. */
  function MustValidate(config: CsrfConfig, verb: string, matches: seq<string> -> bool): (r: bool)
    ensures r ==> verb in config.methods
    ensures |config.filterUris| == 0 ==> (r <==> verb in config.methods)
    ensures |config.filterUris| > 0 ==> (r <==> verb in config.methods && !matches(config.filterUris))
  {
    verb in config.methods && !IsFiltered(config.filterUris, matches)
  }

  /** The token a request submits: the posted `_csrf` input, else the
      `csrf-token`, `x-csrf-token` or `x-xsrf-token` header, first truthy wins. */
  function SubmittedToken(request: Request): (t: Value)
    ensures Truthy(request.Input(CsrfFieldName)) ==> t == request.Input(CsrfFieldName)
    ensures !Truthy(request.Input(CsrfFieldName)) && Truthy(request.Header("csrf-token"))
      ==> t == request.Header("csrf-token")
    ensures (!Truthy(request.Input(CsrfFieldName)) && !Truthy(request.Header("csrf-token"))
             && Truthy(request.Header("x-csrf-token"))) ==> t == request.Header("x-csrf-token")
    ensures (!Truthy(request.Input(CsrfFieldName)) && !Truthy(request.Header("csrf-token"))
             && !Truthy(request.Header("x-csrf-token"))) ==> t == request.Header("x-xsrf-token")
  {
    Or(Or(Or(request.Input(CsrfFieldName), request.Header("csrf-token")),
          request.Header("x-csrf-token")), request.Header("x-xsrf-token"))
  }

  /** The host name of the `origin` header, else of the `referer` header;
      `null` when neither is set. */
  function OriginHost(request: Request, hostnameOf: string -> Value): (h: Value)
    ensures !Truthy(request.Header("origin")) && !Truthy(request.Header("referer")) ==> h == Null
    // `origin` wins over `referer`
    ensures request.Header("origin").Str? && Truthy(request.Header("origin"))
      ==> h == hostnameOf(request.Header("origin").s)
    ensures !Truthy(request.Header("origin")) && request.Header("referer").Str? && Truthy(request.Header("referer"))
      ==> h == hostnameOf(request.Header("referer").s)
  {
    match Or(request.Header("origin"), request.Header("referer"))
    case Str(u) => if u != "" then hostnameOf(u) else Null
    case _ => Null
  }

  /** The origin check passes: the origin (or referer) host is set and is
      the request's host. */
  function SameOrigin(request: Request, hostnameOf: string -> Value): (r: bool)
    ensures r ==> Truthy(OriginHost(request, hostnameOf)) && request.hostname == OriginHost(request, hostnameOf)
    // no `origin` and no `referer`: never the same origin
    ensures !Truthy(request.Header("origin")) && !Truthy(request.Header("referer")) ==> !r
    ensures request.Header("origin").Str? && Truthy(request.Header("origin"))
      ==> (r <==> Truthy(hostnameOf(request.Header("origin").s))
                  && request.hostname == hostnameOf(request.Header("origin").s))
  {
    var originHost := OriginHost(request, hostnameOf);
    Truthy(originHost) && request.hostname == originHost
  }

  /** `_validateCsrf`: the error it throws, if any. */
  function ValidateCsrf(request: Request, secret: Value, compareHostAndOrigin: Value, env: Env): (r: Option<HttpError>)
    ensures r.Some? ==> r.value.status == Some(403) && r.value.code == Some(CsrfCode)
    // the checks, in order
    ensures !Truthy(secret) ==> r == Some(CsrfError("csrf secret missing"))
    ensures Truthy(secret) && Truthy(compareHostAndOrigin) && !SameOrigin(request, env.hostnameOf)
      ==> r == Some(CsrfError("host and origin mis-match"))
    ensures (Truthy(secret) && (Truthy(compareHostAndOrigin) ==> SameOrigin(request, env.hostnameOf))
             && !env.csrf.verify(secret, SubmittedToken(request))) ==> r == Some(CsrfError("csrf token mismatch"))
    // a request passes exactly when every check does
    ensures r == None <==> (Truthy(secret) && (Truthy(compareHostAndOrigin) ==> SameOrigin(request, env.hostnameOf))
                            && env.csrf.verify(secret, SubmittedToken(request)))
  {
    if !Truthy(secret) then Some(CsrfError("csrf secret missing"))
    else if Truthy(compareHostAndOrigin) && !SameOrigin(request, env.hostnameOf) then
      Some(CsrfError("host and origin mis-match"))
    else if !env.csrf.verify(secret, SubmittedToken(request)) then Some(CsrfError("csrf token mismatch"))
    else None
  }

  /** With the origin check on, a request with neither `origin` nor
      `referer` is refused, whatever token it carries. */
  lemma MissingOriginRefused(request: Request, secret: Value, compareHostAndOrigin: Value, env: Env)
    requires Truthy(secret) && Truthy(compareHostAndOrigin)
    requires "origin" !in request.headers && "referer" !in request.headers
    ensures ValidateCsrf(request, secret, compareHostAndOrigin, env) == Some(CsrfError("host and origin mis-match"))
  {
    assert OriginHost(request, env.hostnameOf) == Null;
  }

  /** The hidden form field that posts the token back. */
  const FieldHead := "<input type=\"hidden\" name=\"" + CsrfFieldName + "\" value=\""
  const FieldTail := "\">"

  function CsrfField(token: string): string {
    FieldHead + token + FieldTail
  }

  /** The field carries the whole token: different tokens give different
      fields, and the token is read back from between head and tail. */
  lemma CsrfFieldCarriesToken(token: string)
    ensures |CsrfField(token)| == |FieldHead| + |token| + |FieldTail|
    ensures CsrfField(token)[..|FieldHead|] == FieldHead
    ensures CsrfField(token)[|FieldHead|..|FieldHead| + |token|] == token
    ensures forall other: string :: CsrfField(other) == CsrfField(token) ==> other == token
  {
    forall other: string | CsrfField(other) == CsrfField(token)
      ensures other == token
    {
      var f := CsrfField(token);
      assert |other| == |token|;
      assert other == CsrfField(other)[|FieldHead|..|FieldHead| + |other|];
      assert token == f[|FieldHead|..|FieldHead| + |token|];
    }
  }

  /** A form that posts back the token the previous response handed out
      passes validation, when the library verifies its own tokens and the
      origin check is off or the request comes from the same host. */
  lemma PostedTokenAccepted(request: Request, secret: Value, compareHostAndOrigin: Value, env: Env)
    requires Truthy(secret)
    requires Truthy(compareHostAndOrigin) ==> SameOrigin(request, env.hostnameOf)
    requires env.csrf.create(secret) != ""
    requires env.csrf.verify(secret, Str(env.csrf.create(secret)))
    requires request.Input(CsrfFieldName) == Str(env.csrf.create(secret))
    ensures ValidateCsrf(request, secret, compareHostAndOrigin, env) == None
  {
    assert SubmittedToken(request) == Str(env.csrf.create(secret));
  }

  /** One `<meta>` tag per CSP header. */
  const MetaHead := "<meta http-equiv=\""
  const MetaTail := "\">"

  function MetaTag(key: string, value: string): (tag: string)
    ensures |MetaHead| + |MetaTail| <= |tag|
    ensures tag[..|MetaHead|] == MetaHead && tag[|tag| - |MetaTail|..] == MetaTail
    // a header name and value without line breaks give a one-line tag
    ensures '\n' !in key && '\n' !in value ==> '\n' !in tag
  {
    MetaHead + key + "\" content=\"" + value + MetaTail
  }

  function MetaTags(cspValues: seq<(string, string)>): (tags: seq<string>)
    ensures |tags| == |cspValues|
  {
    seq(|cspValues|, i requires 0 <= i < |cspValues| => MetaTag(cspValues[i].0, cspValues[i].1))
  }

  /** The `cspMeta` view global: the tags, one per line. */
  function CspMeta(cspValues: seq<(string, string)>): (meta: string)
    ensures |cspValues| == 0 ==> meta == ""
    // the first header's tag comes first
    ensures |cspValues| > 0 ==> var first := MetaTag(cspValues[0].0, cspValues[0].1);
      |first| <= |meta| && meta[..|first|] == first
  {
    Join(MetaTags(cspValues), '\n')
  }

  /** The CSP headers as `response.header(key, value)` calls. */
  function CspHeaders(cspValues: seq<(string, string)>): (calls: seq<(string, Value)>)
    ensures |calls| == |cspValues|
  {
    seq(|cspValues|, i requires 0 <= i < |cspValues| => (cspValues[i].0, Str(cspValues[i].1)))
  }

  /** When no header name or value holds a line break, `cspMeta` has one
      line per CSP header, that header's tag. */
  lemma {:induction false} CspMetaLines(cspValues: seq<(string, string)>)
    requires |cspValues| > 0
    requires forall i | 0 <= i < |cspValues| :: '\n' !in cspValues[i].0 && '\n' !in cspValues[i].1
    ensures Split(CspMeta(cspValues), '\n') == MetaTags(cspValues)
  {
    var tags := MetaTags(cspValues);
    forall i | 0 <= i < |tags|
      ensures '\n' !in tags[i]
    {
      assert tags[i] == MetaTag(cspValues[i].0, cspValues[i].1);
    }
    SplitJoin(tags, '\n');
  }

  /** The `shield` configuration section this model reads. */
  datatype ShieldConfig = ShieldConfig(csrf: CsrfConfig)

  class Shield {
    const view: View
    const config: ShieldConfig
    /** the CSP nonce, drawn once when the middleware is built */
    const nonce: string

    constructor (config: ShieldConfig, view: View, nonce: string)
      ensures this.config == config && this.view == view && this.nonce == nonce
    {
      this.config, this.view, this.nonce := config, view, nonce;
    }

    /** `_setupCsp`: one header and one meta tag per CSP entry; the tags go
        to the `cspMeta` view global, the nonce to `request.nonce()` and the
        `cspNonce` view global. */
    method SetupCsp(request: Request, response: Response, cspValues: seq<(string, string)>)
      modifies request`nonce, response`headers, view
      ensures request.nonce == Some(nonce)
      ensures response.headers == old(response.headers) + CspHeaders(cspValues)
      ensures view.globals == old(view.globals)["cspMeta" := SafeHtml(CspMeta(cspValues))]
                                               ["cspNonce" := Plain(Str(nonce))]
    {
      var metaTags: seq<string> := [];
      request.nonce := Some(nonce);
      for i := 0 to |cspValues|
        invariant response.headers == old(response.headers) + CspHeaders(cspValues[..i])
        invariant metaTags == MetaTags(cspValues[..i])
        invariant request.nonce == Some(nonce) && view.globals == old(view.globals)
      {
        var (key, value) := cspValues[i];
        response.Header(key, Str(value));
        metaTags := metaTags + [MetaTag(key, value)];
        assert CspHeaders(cspValues[..i + 1]) == CspHeaders(cspValues[..i]) + [(key, Str(value))];
        assert MetaTags(cspValues[..i + 1]) == MetaTags(cspValues[..i]) + [MetaTag(key, value)];
      }
      assert cspValues[..|cspValues|] == cspValues;
      view.SetGlobal("cspMeta", SafeHtml(Join(metaTags, '\n')));
      view.SetGlobal("cspNonce", Plain(Str(nonce)));
    }

    /** `_setupCsrf`: keeps the secret (drawing a new one when there is
        none), and hands one token made from it to the `XSRF-TOKEN` cookie,
        `request.csrfToken()` and the `csrfToken` and `csrfField` view globals. */
    method SetupCsrf(request: Request, response: Response, session: Session, secret: Value, csrf: CsrfLib)
      modifies request`csrfToken, response`cookies, view, session
      ensures var kept := Or(secret, Str(csrf.newSecret));
        var token := csrf.create(kept);
        && session.store == old(session.store)[SessionKey := kept]
        && response.cookies == old(response.cookies)["XSRF-TOKEN" := token]
        && request.csrfToken == Some(token)
        && view.globals == old(view.globals)["csrfToken" := Plain(Str(token))]
                                            ["csrfField" := SafeHtml(CsrfField(token))]
    {
      var csrfSecret := secret;
      if !Truthy(csrfSecret) {
        csrfSecret := Str(csrf.newSecret);
      }
      session.Put(SessionKey, csrfSecret);
      var csrfToken := csrf.create(csrfSecret);
      response.Cookie("XSRF-TOKEN", csrfToken);
      request.csrfToken := Some(csrfToken);
      view.SetGlobal("csrfToken", Plain(Str(csrfToken)));
      view.SetGlobal("csrfField", SafeHtml(CsrfField(csrfToken)));
    }

    /** `handle`: CSP always; with CSRF enabled, requests that must be
        validated are refused on a failed check, and every request that
        goes on gets a token. */
    method Handle(request: Request, response: Response, session: Session, env: Env) returns (outcome: Outcome)
      modifies request`nonce, request`csrfToken, response`headers, response`cookies, view, session
      ensures request.nonce == Some(nonce)
      ensures response.headers == old(response.headers) + CspHeaders(env.cspValues)
      // CSRF switched off: the session, cookies and token are not touched;
      // the views get the CSP globals only
      ensures !Truthy(config.csrf.enable) ==>
        && outcome == Next && session.store == old(session.store)
        && request.csrfToken == old(request.csrfToken) && response.cookies == old(response.cookies)
        && view.globals == old(view.globals)["cspMeta" := SafeHtml(CspMeta(env.cspValues))]
                                            ["cspNonce" := Plain(Str(nonce))]
      // CSRF switched on
      ensures Truthy(config.csrf.enable) ==>
        var secret := old(session.Get(SessionKey));
        var verdict := if MustValidate(config.csrf, request.verb, env.matches)
                       then ValidateCsrf(request, secret, config.csrf.compareHostAndOrigin, env) else None;
        var cspGlobals := old(view.globals)["cspMeta" := SafeHtml(CspMeta(env.cspValues))]
                                           ["cspNonce" := Plain(Str(nonce))];
        var kept := Or(secret, Str(env.csrf.newSecret));
        var token := env.csrf.create(kept);
        && (verdict.Some? ==> outcome == Thrown(verdict.value) && session.store == old(session.store)
                              && request.csrfToken == old(request.csrfToken)
                              && response.cookies == old(response.cookies) && view.globals == cspGlobals)
        && (verdict.None? ==> (outcome == Next
              && session.store == old(session.store)[SessionKey := kept]
              && request.csrfToken == Some(token)
              && response.cookies == old(response.cookies)["XSRF-TOKEN" := token]
              && view.globals == cspGlobals["csrfToken" := Plain(Str(token))]
                                           ["csrfField" := SafeHtml(CsrfField(token))]))
    {
      SetupCsp(request, response, env.cspValues);
      if !Truthy(config.csrf.enable) {
        return Next;
      }
      var csrfSecret := session.Get(SessionKey);
      if request.verb in config.csrf.methods && !IsFiltered(config.csrf.filterUris, env.matches) {
        var error := ValidateCsrf(request, csrfSecret, config.csrf.compareHostAndOrigin, env);
        if error.Some? {
          return Thrown(error.value);
        }
      }
      SetupCsrf(request, response, session, csrfSecret, env.csrf);
      outcome := Next;
    }
  }
}
