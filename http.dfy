/**
 * The framework objects every middleware receives: the request it decorates,
 * the response it writes headers to, the session store and the view's
 * globals. What the framework reports about the incoming request is fixed
 * at construction (`const`); what the middlewares attach is mutable (`var`).
 */
module Http {
  import opened Js

  /** What a middleware's `handle` ends with: it yields to the next
      middleware, it answers the request itself, or it throws. */
  datatype Outcome = Next | Responded | Thrown(error: HttpError)

  class Request {
    /** `request.method()` */
    const verb: string
    /** the request headers, under lower-case names */
    const headers: map<string, string>
    /** the declared media type, parameters stripped (what `request.is` matches) */
    const mediaType: string
    /** `request.hasBody()` */
    const hasBody: bool
    /** `request.all()`: query string and body inputs merged */
    const inputs: map<string, Value>
    /** `request.hostname()` */
    const hostname: Value

    /** `request.body`, as TrimStrings rewrites it */
    var body: map<string, Value>
    /** `request._body`, `request._files`, `request._raw`, set by BodyParser */
    var parsedBody: Value
    var files: Value
    var raw: Value
    /** `request._flashMessages.putValues` and `.getValues` */
    var putValues: Value
    var getValues: Value
    /** the flash helpers installed on the request: property name to the
        `FlashMethods` function stored there */
    var helpers: map<string, string>
    /** what `request.csrfToken()` and `request.nonce()` return, once installed */
    var csrfToken: Option<string>
    var nonce: Option<string>

    constructor (verb: string, headers: map<string, string>, mediaType: string, hasBody: bool,
                 inputs: map<string, Value>, hostname: Value, body: map<string, Value>)
      ensures this.verb == verb && this.headers == headers && this.mediaType == mediaType
      ensures this.hasBody == hasBody && this.inputs == inputs && this.hostname == hostname
      ensures this.body == body
      ensures parsedBody == Undefined && files == Undefined && raw == Undefined
      ensures putValues == Undefined && getValues == Undefined && helpers == map[]
      ensures csrfToken == None && nonce == None
    {
      this.verb, this.headers, this.mediaType, this.hasBody := verb, headers, mediaType, hasBody;
      this.inputs, this.hostname, this.body := inputs, hostname, body;
      parsedBody, files, raw := Undefined, Undefined, Undefined;
      putValues, getValues, helpers := Undefined, Undefined, map[];
      csrfToken, nonce := None, None;
    }

    /** `request.header(name)` for a lower-case name */
    function Header(name: string): Value {
      if name in headers then Str(headers[name]) else Undefined
    }

    /** `request.input(key)` */
    function Input(key: string): Value {
      if key in inputs then inputs[key] else Undefined
    }

    /** `request.all()` */
    function All(): Value {
      Obj(inputs)
    }

    /** `request.only(keys)`: the inputs under the given keys */
    function Only(keys: seq<string>): Value {
      Obj(map k | k in inputs && k in keys :: inputs[k])
    }

    /** `request.except(keys)`: the inputs under every other key */
    function Except(keys: seq<string>): Value {
      Obj(map k | k in inputs && k !in keys :: inputs[k])
    }
  }

  class Response {
    /** every `response.header(name, value)` call, in order */
    var headers: seq<(string, Value)>
    /** `response.cookie(name, value)` calls, last one per name */
    var cookies: map<string, string>
    /** the status of `response.status(code).send()`, once sent */
    var status: Option<nat>

    constructor ()
      ensures headers == [] && cookies == map[] && status == None
    {
      headers, cookies, status := [], map[], None;
    }

    method Header(name: string, value: Value)
      modifies this`headers
      ensures headers == old(headers) + [(name, value)]
    {
      headers := headers + [(name, value)];
    }

    method Cookie(name: string, value: string)
      modifies this`cookies
      ensures cookies == old(cookies)[name := value]
    {
      cookies := cookies[name := value];
    }

    method Send(code: nat)
      modifies this`status
      ensures status == Some(code)
    {
      status := Some(code);
    }
  }

  class Session {
    var store: map<string, Value>

    constructor (store: map<string, Value>)
      ensures this.store == store
    {
      this.store := store;
    }

    /** `session.get(key)` */
    function Get(key: string): Value
      reads this
    {
      if key in store then store[key] else Undefined
    }

    /** `session.put(key, value)` */
    method Put(key: string, value: Value)
      modifies this
      ensures store == old(store)[key := value]
    {
      store := store[key := value];
    }

    /** `session.pull(key)`: reads the value and removes it */
    method Pull(key: string) returns (value: Value)
      modifies this
      ensures value == old(Get(key))
      ensures store == old(store) - {key}
    {
      value := Get(key);
      store := store - {key};
    }
  }

  /** A view global: a plain value, an HTML string marked safe, or the
      helper that forwards `old(key, defaultValue)` to the current request. */
  datatype Global = Plain(value: Value) | SafeHtml(html: string) | OldDelegate

  class View {
    var globals: map<string, Global>

    constructor ()
      ensures globals == map[]
    {
      globals := map[];
    }

    /** `view.global(name, value)` */
    method SetGlobal(name: string, value: Global)
      modifies this
      ensures globals == old(globals)[name := value]
    {
      globals := globals[name := value];
    }
  }
}
