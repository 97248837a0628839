# adonis-middleware, modelled in Dafny

This project models the request middlewares of adonis-middleware and proves
what each one decides. The middlewares are:

- **BodyParser** picks a decoder from the request's media type. It reads its
  options from the `bodyParser.` section of the configuration. It guards
  multipart uploads with a size limit while they stream in. It attaches
  `{fields, files, raw}` to the request.
- **Cors** writes the `Access-Control-*` response headers. A preflight
  (`OPTIONS`) request is answered with 204. A configured origin or headers
  callback is called once, and its result replaces the setting for later
  requests. The max-age header is written under the name the code uses,
  `Access-Control-Allow-Max-Age`.
- **Shield** sets Content-Security-Policy headers and `<meta http-equiv>`
  tags with a nonce fixed when the middleware is built. It refuses
  state-changing requests whose CSRF token does not verify against the secret
  in the session, with status 403 and code `EBADCSRFTOKEN`. It then hands one
  token to the `XSRF-TOKEN` cookie, the request and the views. The session key
  is `csrf-secret`.
- **Flash** pulls the previous request's flashed values out of the session.
  It installs the flash helpers (`FlashMethods`) that choose, extend, store and
  read back values.
- **TrimStrings** replaces every value of a non-empty body by its
  ECMAScript-trimmed form.
- **FormFields** is the bracket-key field builder (`name[]`, `user[email]`,
  `user[0][email]`). It is test-derived: its implementation file,
  src/BodyParser/FormFields, is not part of this model. The module is built
  from the six cases of test/form-fields.spec.js and reproduces each of them.

Shared modules:

- `Js` models the JavaScript values the middlewares handle. It covers
  truthiness and `||`, a dotted-path `_.get`, and string split and join.
- `Http` models the request, response, session and view objects the
  middlewares update, as classes with the fields they write.

Each middleware is a class whose `Handle` method changes those objects. Its
contract states the whole new state in terms of pure functions, and lemmas
prove the source's promises about those functions.

Foreign code becomes parameters:

- the JSON, form, text and multipart decoders: their results for the request (`BodyParser.Decoders`);
- `bytes`;
- the CSRF library's `secret`, `create` and `verify`;
- `url.parse(...).hostname`;
- `request.match`;
- the result of `csp.build`;
- the CSP nonce drawn by `uuid.v4`;
- the CORS callbacks.

`RequestEntityTooLarge` carries a message and status 413 and no code
(src/BodyParser/index.js:17,99), so `BodyParser.EntityTooLarge` has none.

## Model

| member | source | states |
|---|---|---|
| ContentTypes.ListsDisjoint | src/BodyParser/contentTypes.js:3-13 | no media type is on two of the json, form, text and multipart lists |
| ContentTypes.FirstMatch | src/BodyParser/index.js:129-137 | the strategy picked is one that was tried and whose list holds the type; no strategy only when no tried list holds it |
| ContentTypes.OrderIrrelevant | src/BodyParser/contentTypes.js:3-13 | because the lists are disjoint, the order the lists are tried in does not change the strategy picked |
| BodyParser.Classify | src/BodyParser/index.js:129-137 | json, form, text and multipart are each chosen exactly for the types on their own list; a type on no list (application/octet-stream, say) is unrecognised |
| BodyParser.ConfigGet | src/BodyParser/index.js:38-41 | `_get(key, default)` is the value at `key` inside the `bodyParser` section, or the default when nothing is there |
| BodyParser.ConfigReadsOnlyItsSection | src/BodyParser/index.js:38-41 | every option is read under `bodyParser.`: configurations with the same `bodyParser` section give the same options |
| BodyParser.ConfigDefault | src/BodyParser/index.js:38-41 | a key with nothing at its path under `bodyParser`, because the section is absent or lacks that key, reads as the default passed to `_get` |
| BodyParser.UploadDefaults | src/BodyParser/index.js:72-78 | without configuration the upload options are maxSize '4mb', hash false, multiples true, maxFields 1000 |
| BodyParser.UploadOptionsFrom | src/BodyParser/index.js:72-78 | each upload option is the section's value at its own key, and falls back to its own default ('4mb', false, true, 1000) when the section lacks that key |
| BodyParser.Upload | src/BodyParser/index.js:90-110 | a multipart parse ends completed, aborted or failed, and a completed one resolves to the parser's fields and files with raw null |
| BodyParser.RunEnds | src/BodyParser/index.js:97-107 | while events arrive the parse is streaming, aborted or failed, never back to idle or completed |
| BodyParser.Step | src/BodyParser/index.js:97-102 | while streaming: progress with received or expected above maxFieldsSize aborts with RequestEntityTooLarge (413), a parser error fails with that error, anything else keeps streaming; a stopped parse ignores events |
| BodyParser.Run | src/BodyParser/index.js:97-107 | the events in turn; once aborted or failed, later events change nothing |
| BodyParser.RunToFirstStop | src/BodyParser/index.js:97-107 | the first oversize progress event or parser error decides the outcome |
| BodyParser.RunWithoutStop | src/BodyParser/index.js:97-102 | progress within the limit keeps the parse streaming |
| BodyParser.FirstStop | src/BodyParser/index.js:97-107 | when some event stops the parse, there is a first one, with no stopping event before it |
| BodyParser.MultipartParse | src/BodyParser/index.js:104-109 | a successful multipart parse gives exactly the parser's fields and files with raw null |
| BodyParser.AbortsAtFirstOversize | src/BodyParser/index.js:98-99 | when the first stopping event is progress with received or expected above maxFieldsSize, the parse fails with RequestEntityTooLarge, status 413 |
| BodyParser.FailsAtFirstParserError | src/BodyParser/index.js:104-106 | when the first stopping event is a parser error, the parse rejects with that error and no fields or files |
| BodyParser.SucceedsIffNoStop | src/BodyParser/index.js:98-109 | a multipart parse succeeds exactly when no progress event exceeds the limit and the parser reports no error |
| BodyParser.LimitItselfPasses | src/BodyParser/index.js:98 | received and expected equal to the limit pass; one byte more is refused with 413 |
| BodyParser.Parse | src/BodyParser/index.js:123-139 | json and form fill only fields, text fills only raw, multipart is the upload result, an unrecognised type gives `{fields: {}, files: {}, raw: null}`; decoder errors propagate |
| BodyParser.OnlyChosenDecoderMatters | src/BodyParser/index.js:129-137 | only the decoder of the chosen strategy affects the parse result |
| BodyParser.BodyParser.constructor | src/BodyParser/index.js:21-26 | qs, form options and upload options are read once from the configuration, with the defaults of `_setQueryStringOptions`, `_setFormOptions` and `_setUploadOptions` |
| BodyParser.BodyParser.Handle | src/BodyParser/index.js:152-165 | no body gives fields {}, files {}, raw null without parsing; otherwise the three request fields are exactly the parse result, and a parse error propagates with them untouched |
| Cors.Cors.constructor | src/Cors/index.js:11-18 | origin, headers, credentials, exposeHeaders and maxAge default to false, methods to ['GET', 'POST', 'PUT'] |
| Cors.Cors.GetOrigin | src/Cors/index.js:28-36 | a callback is replaced by its result for the request origin; `true` echoes the request origin, any other value is returned as is |
| Cors.Cors.GetHeaders | src/Cors/index.js:46-54 | the same for the requested headers |
| Cors.Respond | src/Cors/index.js:66-106 | a request that is not OPTIONS calls next with no status; OPTIONS is answered with 204 and no next; every reply begins with Allow-Origin, the resolved origin, then Allow-Credentials |
| Cors.RespondHeaders | src/Cors/index.js:66-106 | Expose-Headers exactly when exposeHeaders is truthy; Allow-Methods exactly on OPTIONS; Allow-Headers exactly on OPTIONS with truthy resolved headers; Allow-Max-Age exactly on OPTIONS with a truthy maxAge |
| Cors.Cors.Handle | src/Cors/index.js:66-106 | the response headers are the old ones followed by exactly the writes of `Respond`, with its status and outcome; origin is cached, headers only on OPTIONS |
| Cors.OriginCachedAcrossRequests | src/Cors/index.js:29-31 | a second request is answered with the callback's result for the first request's origin |
| Shield.CsrfError | src/Shield/index.js:161-165 | every CSRF rejection has status 403 and code EBADCSRFTOKEN |
| Shield.IsFiltered | src/Shield/index.js:213-218 | an empty filter list never filters; a non-empty one filters exactly when the request matches it |
| Shield.MustValidate | src/Shield/index.js:247 | only a request of a protected method is validated; with no filterUris every such request is, otherwise only one whose URL does not match them |
| Shield.SubmittedToken | src/Shield/index.js:188-191 | the token is the first truthy of input `_csrf`, header csrf-token, x-csrf-token, and otherwise x-xsrf-token |
| Shield.OriginHost | src/Shield/index.js:173-175 | the host of the `origin` header when it is set, else of the `referer` header; none when neither is set |
| Shield.SameOrigin | src/Shield/index.js:172-181 | the origin check passes only when there is an origin host and it is the request's host; a request with neither header never passes; with an `origin` header, its host decides |
| Shield.ValidateCsrf | src/Shield/index.js:157-202 | in order: a missing secret gives 'csrf secret missing', an origin mismatch (when compared) 'host and origin mis-match', a failed verification 'csrf token mismatch'; the request passes exactly when all three checks do |
| Shield.MissingOriginRefused | src/Shield/index.js:172-182 | with the origin check on, a request with neither origin nor referer is refused whatever token it carries |
| Shield.PostedTokenAccepted | src/Shield/index.js:172-201 | a form that posts back the token made from the session secret passes when the origin check is off or the request comes from its own host, given a library that verifies its own tokens |
| Shield.CsrfFieldCarriesToken | src/Shield/index.js:145 | the `csrfField` input holds the whole token between a fixed head and tail, so different tokens give different fields |
| Shield.MetaTag | src/Shield/index.js:62 | each tag begins `<meta http-equiv="` and ends `">`, and is one line when the header name and value have no line break |
| Shield.CspMeta | src/Shield/index.js:69 | no CSP headers give an empty `cspMeta`; otherwise it begins with the first header's tag |
| Shield.CspMetaLines | src/Shield/index.js:60-69 | `cspMeta` splits at line breaks into exactly one `<meta http-equiv>` tag per CSP header, in order |
| Shield.Shield.constructor | src/Shield/index.js:17-22 | the configuration, view and nonce are fixed when the middleware is built |
| Shield.Shield.SetupCsp | src/Shield/index.js:42-75 | one header per CSP entry in key order; `cspMeta` is their tags joined by line breaks; `request.nonce()` and `cspNonce` give the one nonce |
| Shield.Shield.SetupCsrf | src/Shield/index.js:103-146 | a missing secret is replaced by a new one and stored under `csrf-secret`; the cookie, `request.csrfToken()`, `csrfToken` and `csrfField` all carry the one token made from it |
| Shield.Shield.Handle | src/Shield/index.js:230-252 | CSP is always set up; with CSRF off, or on a refused request, the session, cookies and token are untouched and the views get only `cspMeta` and `cspNonce`; with it on, a request of a protected method that is not filtered is refused with the validation error, and every other request gets the kept secret in the session, and the one token in the `XSRF-TOKEN` cookie, `request.csrfToken()` and the `csrfToken` and `csrfField` view globals |
| FlashMethods.With | src/Flash/methods.js:79-82 | the chosen values are replaced wholesale, and the request is returned for chaining |
| FlashMethods.WithAll | src/Flash/methods.js:27-30 | every input is chosen |
| FlashMethods.WithOnly | src/Flash/methods.js:45-48 | the inputs under the given keys are chosen |
| FlashMethods.Without | src/Flash/methods.js:63-66 | every input but those under the given keys is chosen |
| FlashMethods.OnlyExceptPartition | src/Flash/methods.js:45-66 | `withOnly(keys)` and `without(keys)` split the inputs: every input is chosen by exactly one of them |
| FlashMethods.Merge | src/Flash/methods.js:100 | merging keeps every old key and adds the new ones; a new value that is not a container wins; an undefined one keeps the old value; arrays merge to the longer length |
| FlashMethods.MergeIntoNothing | src/Flash/methods.js:100 | merging into nothing copies the source |
| FlashMethods.MergeIdempotent | src/Flash/methods.js:100 | merging the same values twice is merging them once |
| FlashMethods.MergeTop | src/Flash/methods.js:100 | merging an object into the chosen values keeps every earlier key the object does not set, with its value, and adds the object's keys; a value that is neither object nor array leaves them as they are |
| FlashMethods.AndWith | src/Flash/methods.js:96-102 | without chosen values it throws 'Cannot call andWith directly, use with' and changes nothing; otherwise the new values are merged in |
| FlashMethods.Flash | src/Flash/methods.js:112-117 | without chosen values it throws 'Cannot flash an empty object' and leaves the session alone; otherwise they are stored under 'flash_messages' |
| FlashMethods.FlashEmptyObject | src/Flash/methods.js:113-116 | the guards test truthiness, not emptiness: `with({})` followed by `flash` stores `{}` |
| FlashMethods.OldOf | src/Flash/methods.js:133-137 | the value at the dotted key when it is neither null nor undefined, else the default, else null; never undefined |
| FlashMethods.Old | src/Flash/methods.js:133-137 | `request.old` never gives undefined, and with nothing pulled from the previous request gives the default, or null |
| FlashMethods.OldOfNothing | src/Flash/methods.js:133-137 | with nothing flashed every key gives the default, or null |
| FlashMethods.OldNested | src/Flash/methods.js:135 | the dotted key `name.rest` looks up `rest` inside the flashed `name` |
| Flash.Flash.constructor | src/Flash/index.js:16-18 | the view is kept |
| Flash.Flash.Handle | src/Flash/index.js:20-53 | nothing chosen carries over; the pulled values, or {} when there are none, are this request's and are gone from the session; the eight helpers are installed with `withOut` the same as `without`; the `old` view global delegates to `request.old` and `flashMessages` is the pulled values; next follows |
| Flash.FlashLastsOneRequest | src/Flash/index.js:21-27 | values flashed by one request are read back by the next one and are gone for the one after |
| TrimStrings.TrimStart | src/TrimStrings/index.js:15 | only leading white space is cut, and what is left does not start with white space |
| TrimStrings.TrimEnd | src/TrimStrings/index.js:15 | only trailing white space is cut, and what is left does not end with white space |
| TrimStrings.Trim | src/TrimStrings/index.js:15 | the result neither begins nor ends with white space, and is the value with only white space cut from its ends |
| TrimStrings.TrimUnique | src/TrimStrings/index.js:15 | white space around a trimmed middle trims to that middle: the result is fixed by the two properties above |
| TrimStrings.StartSkipsWhite | src/TrimStrings/index.js:15 | leading white space does not change where the trimmed start begins |
| TrimStrings.EndSkipsWhite | src/TrimStrings/index.js:15 | trailing white space after a trimmed string is cut away exactly |
| TrimStrings.TrimIdempotent | src/TrimStrings/index.js:15 | trimming twice is trimming once |
| TrimStrings.TrimPaddedBar | test/trim-strings.js:33-54 | '   bar      ' trims to 'bar' |
| TrimStrings.TrimAll | src/TrimStrings/index.js:13-17 | the keys are kept and every value is trimmed; a value that is not a string raises the TypeError |
| TrimStrings.TrimAllIdempotent | src/TrimStrings/index.js:13-17 | trimming a body twice is trimming it once |
| TrimStrings.TrimStrings.Handle | src/TrimStrings/index.js:4-20 | an empty body is left as is; otherwise the body becomes the trimmed one, or the TypeError escapes with the body unchanged |
| FormFields.Scan | test/form-fields.spec.js:16-55 | a key splits into non-empty names and appends (test-derived) |
| FormFields.ParseKey | test/form-fields.spec.js:16-55 | every name a key gives is non-empty and holds no bracket (test-derived) |
| FormFields.ParseOne | test/form-fields.spec.js:18 | a plain key names one field (test-derived) |
| FormFields.ParseAppend | test/form-fields.spec.js:24 | `a[]` appends to the array `a` (test-derived) |
| FormFields.ParseTwo | test/form-fields.spec.js:37-38 | `a[b]` names the field `b` of `a` (test-derived) |
| FormFields.ParseTwoAppend | test/form-fields.spec.js:44-45 | `a[b[]]` appends to the array `b` inside `a` (test-derived) |
| FormFields.ParseThree | test/form-fields.spec.js:52-53 | `a[b][c]` names the field `c` of the field `b` of `a` (test-derived) |
| FormFields.Insert | test/form-fields.spec.js:16-55 | filing under a non-empty key leaves an object or an array at the top, an array when the key starts with `[]` (test-derived) |
| FormFields.LookupInsert | test/form-fields.spec.js:16-55 | what is filed under a key is found under it (test-derived) |
| FormFields.InsertAppends | test/form-fields.spec.js:22-33 | an append step adds one element after the existing ones (test-derived) |
| FormFields.InsertNames | test/form-fields.spec.js:35-48 | a name step into an object changes that one property only (test-derived) |
| FormFields.InsertIndexes | test/form-fields.spec.js:50-55 | an index step changes that one element only, filling the gap with empty slots (test-derived) |
| FormFields.AppendInOrder | test/form-fields.spec.js:28-33 | two appends under `name[]` keep arrival order (test-derived) |
| FormFields.Build | test/form-fields.spec.js:16-55 | the value added last is found under its key (test-derived) |
| FormFields.FormFields.constructor | test/form-fields.spec.js:17 | the builder starts empty, with no pairs added (test-derived) |
| FormFields.FormFields.Add | test/form-fields.spec.js:18 | `add` files the value under its key and records the pair, so the fields stay what the pairs added so far build (test-derived) |
| FormFields.FormFields.Get | test/form-fields.spec.js:19 | `get()` is what every pair added so far builds, in order (test-derived) |
| FormFields.PlainKey | test/form-fields.spec.js:16-20 | `add('name', 'foo')` gives `{name: 'foo'}` |
| FormFields.ArrayKey | test/form-fields.spec.js:22-26 | `add('name[]', 'foo')` gives `{name: ['foo']}` |
| FormFields.ArrayKeyTwice | test/form-fields.spec.js:28-33 | adding 'foo' then 'bar' under `name[]` gives `{name: ['foo', 'bar']}` |
| FormFields.AppendsInArrivalOrder | test/form-fields.spec.js:28-33 | the same for any two values |
| FormFields.NestedKeys | test/form-fields.spec.js:35-40 | `user[email]` then `user[age]` give `{user: {email, age}}` |
| FormFields.DeepNestedKeys | test/form-fields.spec.js:42-48 | two `user[email[]]` then `user[age]` give `{user: {email: [both], age}}` |
| FormFields.IndexedKeys | test/form-fields.spec.js:50-55 | `user[0][email]` then `user[1][age]` give `{user: [{email}, {age}]}` |
| Js.SplitJoin | src/Shield/index.js:69 | lines joined with line breaks split back into the same lines |
| Js.JoinSplit | src/Shield/index.js:69 | splitting at line breaks and joining again gives the text back |
| Js.GetUnderPrefix | src/Flash/methods.js:135 | a dotted path looks up its tail inside the value under its first name |

## Left out

- `_setupGuard` (frame options, XSS filter, no-sniff, no-open) is left out: it only calls node-guard, which is not part of this model.
- Decoding itself (co-body's JSON, URL-encoded and text readers, formidable's multipart reader, file storage, hashing) is left out. Their results for a request are given as `BodyParser.Decoders`, and the multipart reader is given as a sequence of progress and error events.
- `bytes` is a parameter of the constructor, so the size '4mb' stays unparsed.
- `request.is` with media-type parameters and wildcards is not modelled. A request carries one plain media type that is matched against the lists exactly.
- `uuid.v4`, the CSRF library, `url.parse`, `csp.build` and `request.match` are parameters.
- Shield.Shield.constructor: the source writes the nonce into the shared `shield` configuration object (src/Shield/index.js:21), where every other reader of that configuration sees it. The model keeps the nonce in a field of the middleware.
- The generator, `co` and Promise plumbing is left out, and so is `yield next`. A middleware's `Handle` returns `Next`, `Responded` or `Thrown(error)` instead.
- JavaScript numbers are modelled as unbounded integers. Nothing in the core does arithmetic on body values.
- A CORS callback that returns another function is not modelled. A callback's result is a plain value.
- FlashMethods.Merge: when an array is merged into an object, or a string into an object, lodash's special cases are not modelled. The source side is taken as a plain JSON-like value.
- FlashMethods.AndWith: the model returns the merged value. It does not model that lodash mutates the old object in place, which other references to it would see.
- FlashMethods.With, WithAll, WithOnly, Without, AndWith, Flash: `this._flashMessages` is assumed to exist. The Flash middleware always creates it before these helpers run.
- `Js.Get` follows dotted paths through objects only. lodash's bracket paths (`a[0]`) and array indexes are not modelled.
- FlashMethods.OldOf: lodash's `_.get` first tries the whole key as a literal property of the root object. The model always splits the key at dots. So for flashed values `{"profile.name": "x"}`, `old('profile.name', 'd')` gives `"x"` in the source and `"d"` in the model. The same holds for `Js.Get` under `BodyParser.ConfigGet`.
- FlashMethods.Merge: `_.merge` of an object into an array keeps the array and sets the object's keys on it. The model replaces the array with the object.
- TrimStrings.NotAString: the message of the TypeError that `.trim()` on a non-string raises depends on the JavaScript engine; the model fixes one.
- The FormFields implementation file is not part of this model. FormFields is derived from its tests, and keys outside the six tested shapes follow the model's own reading of brackets.
- The view objects' template engine (`viewsEnv.filters.safe`) is modelled only as a tag (`SafeHtml`) on the view global.
