/**
 * The body-parser middleware: reads its options from the `bodyParser.`
 * section of the configuration, picks a decoder from the request's media
 * type, guards multipart uploads against an oversized body while they
 * stream in, and attaches `{fields, files, raw}` to the request.
 *
 * The decoders themselves (JSON, URL-encoded form, text, multipart) are
 * foreign: their results for the current request are given as `Decoders`.
 */
module BodyParser {
  import opened Js
  import opened Http
  import opened ContentTypes

  /** `_parse` tries json, then form, then text, then multipart. */
  const ParseOrder: seq<Strategy> := [Json, Form, Text, Multipart]

  /** The strategy `_parse` picks for a media type: each strategy is chosen
      exactly for the types on its own list, whatever the order of trial. */
  function Classify(mediaType: string): (s: Strategy)
    ensures s == Json <==> mediaType in JsonTypes
    ensures s == Form <==> mediaType in FormTypes
    ensures s == Text <==> mediaType in TextTypes
    ensures s == Multipart <==> mediaType in MultipartTypes
    ensures s == Unrecognized <==> mediaType !in JsonTypes + FormTypes + TextTypes + MultipartTypes
  {
    var s := FirstMatch(ParseOrder, mediaType);
    assert forall t | mediaType in TypesOf(t) :: s == t by {
      forall t | mediaType in TypesOf(t) ensures s == t {
        assert t in ParseOrder;
        ListsDisjoint(mediaType, s, t);
      }
    }
    s
  }

  /** `formOptions`, handed to the JSON, form and text decoders. */
  datatype FormOptions = FormOptions(limit: Value, strict: Value)

  /** `uploadOptions`, handed to the multipart decoder. */
  datatype UploadOptions = UploadOptions(maxFieldsSize: int, hash: Value, multiples: Value, maxFields: Value)

  /** `_get(key, default)`: the configuration value under `bodyParser.<key>`,
      which is the value at `key` inside the `bodyParser` section. */
  function ConfigGet(config: Value, key: string, default: Value): (r: Value)
    ensures r == Get(Section(config), key, default)
  {
    assert "bodyParser." + key == "bodyParser" + "." + key;
    GetUnderPrefix(config, "bodyParser", key, default);
    Get(config, "bodyParser." + key, default)
  }

  /** The `bodyParser` section of a configuration. */
  function Section(config: Value): Value {
    if config.Obj? && "bodyParser" in config.props then config.props["bodyParser"] else Undefined
  }

  /** Every key `_get` reads lies under `bodyParser.`: two configurations
      with the same `bodyParser` section give the same options. */
  lemma ConfigReadsOnlyItsSection(c1: Value, c2: Value, key: string, default: Value)
    requires Section(c1) == Section(c2)
    ensures ConfigGet(c1, key, default) == ConfigGet(c2, key, default)
  {
  }

  /** A key missing from the configuration, because the `bodyParser`
      section is absent or has nothing at that path, reads as its default. */
  lemma ConfigDefault(config: Value, key: string, default: Value)
    requires GetPath(Section(config), Split(key, '.')) == Undefined
    ensures ConfigGet(config, key, default) == default
  {
  }

  /** `_setUploadOptions`; `bytes` is the foreign size-string parser. */
  function UploadOptionsFrom(config: Value, bytes: Value -> int): (r: UploadOptions)
    // each option falls back to its own default when the section lacks it
    ensures GetPath(Section(config), Split("uploads.maxSize", '.')) == Undefined ==> r.maxFieldsSize == bytes(Str("4mb"))
    ensures GetPath(Section(config), Split("uploads.hash", '.')) == Undefined ==> r.hash == Bool(false)
    ensures GetPath(Section(config), Split("uploads.multiple", '.')) == Undefined ==> r.multiples == Bool(true)
    ensures GetPath(Section(config), Split("qs.parameterLimit", '.')) == Undefined ==> r.maxFields == Num(1000)
    // and is what the section holds otherwise
    ensures var found := GetPath(Section(config), Split("uploads.maxSize", '.')); !found.Undefined? ==> r.maxFieldsSize == bytes(found)
    ensures var found := GetPath(Section(config), Split("uploads.hash", '.')); !found.Undefined? ==> r.hash == found
    ensures var found := GetPath(Section(config), Split("uploads.multiple", '.')); !found.Undefined? ==> r.multiples == found
    ensures var found := GetPath(Section(config), Split("qs.parameterLimit", '.')); !found.Undefined? ==> r.maxFields == found
  {
    UploadOptions(
      bytes(ConfigGet(config, "uploads.maxSize", Str("4mb"))),
      ConfigGet(config, "uploads.hash", Bool(false)),
      ConfigGet(config, "uploads.multiple", Bool(true)),
      ConfigGet(config, "qs.parameterLimit", Num(1000)))
  }

  /** With no `bodyParser` section the upload options are the defaults:
      '4mb', no hashing, multiple files, 1000 fields. */
  lemma UploadDefaults(config: Value, bytes: Value -> int)
    requires Section(config) == Undefined
    ensures UploadOptionsFrom(config, bytes) == UploadOptions(bytes(Str("4mb")), Bool(false), Bool(true), Num(1000))
  {
    forall key: string
      ensures GetPath(Undefined, Split(key, '.')) == Undefined
    {
    }
  }

  /** The `{fields, files, raw}` record `_parse` resolves to. */
  datatype ParsedBody = ParsedBody(fields: Value, files: Value, raw: Value)

  const EmptyBody := ParsedBody(EmptyObject, EmptyObject, Null)

  /** The error the progress guard raises: a `RequestEntityTooLarge` with status 413. */
  const EntityTooLarge := HttpError("RequestEntityTooLarge", "Uploaded files size is too large", Some(413), None)

  /** What the multipart parser reports while it reads the body: a progress
      event with the bytes received so far and the bytes announced, or a
      parse error of its own. */
  datatype UploadEvent = Progress(received: int, expected: int) | ParserError(error: HttpError)

  /** The life of one multipart parse. */
  datatype UploadState =
    | Idle
    | Streaming
    | Completed(body: ParsedBody)
    | Aborted(error: HttpError)
    | Failed(error: HttpError)

  /** The progress guard: either count above `maxFieldsSize` aborts. */
  predicate TooLarge(received: int, expected: int, maxFieldsSize: int) {
    received > maxFieldsSize || expected > maxFieldsSize
  }

  /** An event that ends the stream early. */
  predicate Stops(e: UploadEvent, maxFieldsSize: int) {
    e.ParserError? || TooLarge(e.received, e.expected, maxFieldsSize)
  }

  /** `form.parse` starts reading. */
  function Start(st: UploadState): UploadState {
    if st.Idle? then Streaming else st
  }

  /** One event while streaming; the other states ignore events. */
  function Step(st: UploadState, e: UploadEvent, maxFieldsSize: int): (r: UploadState)
    ensures !st.Streaming? ==> r == st
    ensures st.Streaming? && !Stops(e, maxFieldsSize) ==> r == Streaming
    // a count above the limit aborts with 413; a parser error fails with that error
    ensures st.Streaming? && e.Progress? && TooLarge(e.received, e.expected, maxFieldsSize) ==> r == Aborted(EntityTooLarge)
    ensures st.Streaming? && e.ParserError? ==> r == Failed(e.error)
  {
    if !st.Streaming? then st
    else match e
      case Progress(received, expected) =>
        if TooLarge(received, expected, maxFieldsSize) then Aborted(EntityTooLarge) else Streaming
      case ParserError(error) => Failed(error)
  }

  /** The events in turn; a stopped stream stays stopped. */
  function Run(st: UploadState, events: seq<UploadEvent>, maxFieldsSize: int): (r: UploadState)
    ensures !st.Streaming? ==> r == st
    decreases |events|
  {
    if |events| == 0 then st else Run(Step(st, events[0], maxFieldsSize), events[1..], maxFieldsSize)
  }

  /** The parse callback at the end of a stream that was not stopped. */
  function Finish(st: UploadState, fields: Value, files: Value): UploadState {
    if st.Streaming? then Completed(ParsedBody(fields, files, Null)) else st
  }

  /** A whole multipart parse, from `Idle` to its final state. */
  function Upload(events: seq<UploadEvent>, fields: Value, files: Value, maxFieldsSize: int): (st: UploadState)
    ensures st.Completed? || st.Aborted? || st.Failed?
    ensures st.Completed? ==> st.body == ParsedBody(fields, files, Null)
  {
    RunEnds(Start(Idle), events, maxFieldsSize);
    Finish(Run(Start(Idle), events, maxFieldsSize), fields, files)
  }

  /** Once started, a stream is streaming, aborted or failed until the
      parse callback completes it. */
  lemma {:induction false} RunEnds(st: UploadState, events: seq<UploadEvent>, maxFieldsSize: int)
    requires st.Streaming? || st.Aborted? || st.Failed?
    ensures var end := Run(st, events, maxFieldsSize); end.Streaming? || end.Aborted? || end.Failed?
    decreases |events|
  {
    if |events| > 0 {
      RunEnds(Step(st, events[0], maxFieldsSize), events[1..], maxFieldsSize);
    }
  }

  /** `_multipart`: resolves with the parser's fields and files and a null
      `raw`, or rejects with the error that stopped the stream. */
  function MultipartParse(events: seq<UploadEvent>, fields: Value, files: Value, maxFieldsSize: int): (r: Result<ParsedBody, HttpError>)
    ensures r.Success? ==> r.value == ParsedBody(fields, files, Null)
  {
    var st := Upload(events, fields, files, maxFieldsSize);
    if st.Completed? then Success(st.body) else Failure(st.error)
  }

  /** The first stopping event decides the end of the stream; nothing after
      it is looked at. */
  lemma {:induction false} RunToFirstStop(events: seq<UploadEvent>, k: nat, maxFieldsSize: int)
    requires k < |events| && Stops(events[k], maxFieldsSize)
    requires forall j | 0 <= j < k :: !Stops(events[j], maxFieldsSize)
    ensures Run(Streaming, events, maxFieldsSize) == Step(Streaming, events[k], maxFieldsSize)
    decreases k
  {
    if k > 0 {
      assert !Stops(events[0], maxFieldsSize);
      RunToFirstStop(events[1..], k - 1, maxFieldsSize);
    }
  }

  /** A stream with no stopping event is still streaming at its end. */
  lemma {:induction false} RunWithoutStop(events: seq<UploadEvent>, maxFieldsSize: int)
    requires forall j | 0 <= j < |events| :: !Stops(events[j], maxFieldsSize)
    ensures Run(Streaming, events, maxFieldsSize) == Streaming
    decreases |events|
  {
    if |events| > 0 {
      assert !Stops(events[0], maxFieldsSize);
      RunWithoutStop(events[1..], maxFieldsSize);
    }
  }

  /** The index of the first stopping event of a stream that has one. */
  lemma FirstStop(events: seq<UploadEvent>, maxFieldsSize: int) returns (k: nat)
    requires exists j | 0 <= j < |events| :: Stops(events[j], maxFieldsSize)
    ensures k < |events| && Stops(events[k], maxFieldsSize)
    ensures forall j | 0 <= j < k :: !Stops(events[j], maxFieldsSize)
  {
    var last :| 0 <= last < |events| && Stops(events[last], maxFieldsSize);
    k := 0;
    while !Stops(events[k], maxFieldsSize)
      invariant k <= last
      invariant forall j | 0 <= j < k :: !Stops(events[j], maxFieldsSize)
      decreases last - k
    {
      k := k + 1;
    }
  }

  /** The guard aborts with 413 at the first progress event over the limit,
      whatever the rest of the stream holds. */
  lemma AbortsAtFirstOversize(events: seq<UploadEvent>, k: nat, fields: Value, files: Value, maxFieldsSize: int)
    requires k < |events| && events[k].Progress?
    requires TooLarge(events[k].received, events[k].expected, maxFieldsSize)
    requires forall j | 0 <= j < k :: !Stops(events[j], maxFieldsSize)
    ensures MultipartParse(events, fields, files, maxFieldsSize) == Failure(EntityTooLarge)
    ensures EntityTooLarge.status == Some(413)
  {
    RunToFirstStop(events, k, maxFieldsSize);
  }

  /** A parser error rejects with that error and no partial fields or files. */
  lemma FailsAtFirstParserError(events: seq<UploadEvent>, k: nat, fields: Value, files: Value, maxFieldsSize: int)
    requires k < |events| && events[k].ParserError?
    requires forall j | 0 <= j < k :: !Stops(events[j], maxFieldsSize)
    ensures MultipartParse(events, fields, files, maxFieldsSize) == Failure(events[k].error)
  {
    RunToFirstStop(events, k, maxFieldsSize);
  }

  /** The parse succeeds exactly when no event stops it, and then carries the
      parser's fields and files and a null `raw`. */
  lemma SucceedsIffNoStop(events: seq<UploadEvent>, fields: Value, files: Value, maxFieldsSize: int)
    ensures MultipartParse(events, fields, files, maxFieldsSize).Success?
        <==> forall j | 0 <= j < |events| :: !Stops(events[j], maxFieldsSize)
    ensures MultipartParse(events, fields, files, maxFieldsSize).Success? ==>
        MultipartParse(events, fields, files, maxFieldsSize).value == ParsedBody(fields, files, Null)
  {
    if forall j | 0 <= j < |events| :: !Stops(events[j], maxFieldsSize) {
      RunWithoutStop(events, maxFieldsSize);
    } else {
      var k := FirstStop(events, maxFieldsSize);
      RunToFirstStop(events, k, maxFieldsSize);
    }
  }

  /** Counts exactly at the limit do not trip the guard. */
  lemma LimitItselfPasses(maxFieldsSize: int, fields: Value, files: Value)
    ensures MultipartParse([Progress(maxFieldsSize, maxFieldsSize)], fields, files, maxFieldsSize)
         == Success(ParsedBody(fields, files, Null))
    ensures MultipartParse([Progress(maxFieldsSize + 1, 0)], fields, files, maxFieldsSize) == Failure(EntityTooLarge)
  {
    SucceedsIffNoStop([Progress(maxFieldsSize, maxFieldsSize)], fields, files, maxFieldsSize);
    AbortsAtFirstOversize([Progress(maxFieldsSize + 1, 0)], 0, fields, files, maxFieldsSize);
  }

  /** What the foreign decoders produce for the current request: the JSON,
      form and text decoders' results, and the multipart parser's events
      and fields and files. */
  datatype Decoders = Decoders(
    json: Result<Value, HttpError>,
    form: Result<Value, HttpError>,
    text: Result<Value, HttpError>,
    upload: seq<UploadEvent>,
    uploadFields: Value,
    uploadFiles: Value)

  /** The decoder results that matter for a strategy agree in two `Decoders`. */
  predicate SameDecoder(s: Strategy, d1: Decoders, d2: Decoders) {
    match s
    case Json => d1.json == d2.json
    case Form => d1.form == d2.form
    case Text => d1.text == d2.text
    case Multipart => d1.upload == d2.upload && d1.uploadFields == d2.uploadFields && d1.uploadFiles == d2.uploadFiles
    case Unrecognized => true
  }

  /** `_parse`: the record the chosen decoder fills, starting from an empty one. */
  function Parse(mediaType: string, d: Decoders, options: UploadOptions): (r: Result<ParsedBody, HttpError>)
    ensures Classify(mediaType) == Unrecognized ==> r == Success(EmptyBody)
    ensures r.Success? && Classify(mediaType) != Multipart ==> r.value.files == EmptyObject
    ensures r.Success? && Classify(mediaType) != Text ==> r.value.raw == Null
    ensures r.Success? && (Classify(mediaType) == Text || Classify(mediaType) == Unrecognized) ==> r.value.fields == EmptyObject
    ensures r.Success? && Classify(mediaType) == Json ==> d.json == Success(r.value.fields)
    ensures r.Success? && Classify(mediaType) == Form ==> d.form == Success(r.value.fields)
    ensures r.Success? && Classify(mediaType) == Text ==> d.text == Success(r.value.raw)
    ensures r.Failure? && Classify(mediaType) == Json ==> d.json == Failure(r.error)
    ensures r.Failure? && Classify(mediaType) == Form ==> d.form == Failure(r.error)
    ensures r.Failure? && Classify(mediaType) == Text ==> d.text == Failure(r.error)
    ensures Classify(mediaType) == Multipart ==> r == MultipartParse(d.upload, d.uploadFields, d.uploadFiles, options.maxFieldsSize)
  {
    match Classify(mediaType)
    case Json => (match d.json case Success(v) => Success(EmptyBody.(fields := v)) case Failure(e) => Failure(e))
    case Form => (match d.form case Success(v) => Success(EmptyBody.(fields := v)) case Failure(e) => Failure(e))
    case Text => (match d.text case Success(v) => Success(EmptyBody.(raw := v)) case Failure(e) => Failure(e))
    case Multipart => MultipartParse(d.upload, d.uploadFields, d.uploadFiles, options.maxFieldsSize)
    case Unrecognized => Success(EmptyBody)
  }

  /** Only the decoder of the chosen strategy affects the result. */
  lemma OnlyChosenDecoderMatters(mediaType: string, d1: Decoders, d2: Decoders, options: UploadOptions)
    requires SameDecoder(Classify(mediaType), d1, d2)
    ensures Parse(mediaType, d1, options) == Parse(mediaType, d2, options)
  {
  }

  class BodyParser {
    const config: Value
    const qs: Value
    const formOptions: FormOptions
    const uploadOptions: UploadOptions

    /** Reads `qs`, the form options and the upload options once, from the
        `bodyParser` section; `bytes` parses a size such as '4mb'. */
    constructor (config: Value, bytes: Value -> int)
      ensures this.config == config
      ensures qs == ConfigGet(config, "qs", EmptyObject)
      ensures formOptions == FormOptions(ConfigGet(config, "limit", Undefined), ConfigGet(config, "strict", Undefined))
      ensures uploadOptions == UploadOptionsFrom(config, bytes)
    {
      this.config := config;
      qs := ConfigGet(config, "qs", EmptyObject);
      formOptions := FormOptions(ConfigGet(config, "limit", Undefined), ConfigGet(config, "strict", Undefined));
      uploadOptions := UploadOptionsFrom(config, bytes);
    }

    /** `handle`: a request without a body gets the empty record; otherwise
        the three request fields are exactly the parse result, and a parse
        error propagates with the fields untouched. */
    method Handle(request: Request, d: Decoders) returns (outcome: Outcome)
      modifies request`parsedBody, request`files, request`raw
      ensures !request.hasBody ==>
        (outcome == Next && request.parsedBody == EmptyObject && request.files == EmptyObject && request.raw == Null)
      ensures request.hasBody && Parse(request.mediaType, d, uploadOptions).Success? ==>
        (var b := Parse(request.mediaType, d, uploadOptions).value;
         outcome == Next && request.parsedBody == b.fields && request.files == b.files && request.raw == b.raw)
      ensures request.hasBody && Parse(request.mediaType, d, uploadOptions).Failure? ==>
        (outcome == Thrown(Parse(request.mediaType, d, uploadOptions).error)
         && request.parsedBody == old(request.parsedBody) && request.files == old(request.files)
         && request.raw == old(request.raw))
    {
      var formFields := EmptyBody;
      if request.hasBody {
        var parsed := Parse(request.mediaType, d, uploadOptions);
        if parsed.Failure? {
          return Thrown(parsed.error);
        }
        formFields := parsed.value;
      }
      request.parsedBody := formFields.fields;
      request.files := formFields.files;
      request.raw := formFields.raw;
      outcome := Next;
    }
  }
}
