/**
 * The flash helpers the Flash middleware installs on every request: choose
 * the values to flash (`with`, `withAll`, `withOnly`, `without`), extend
 * them (`andWith`, a lodash deep merge), store them in the session for the
 * next request (`flash`), and read the previous request's values back
 * (`old`, along a dotted path).
 */
module FlashMethods {
  import opened Js
  import opened Http

  /** The session key flash messages are kept under between two requests. */
  const FlashKey := "flash_messages"

  const AndWithWithoutWith := HttpError("Error", "Cannot call andWith directly, use with", None, None)
  const NothingToFlash := HttpError("Error", "Cannot flash an empty object", None, None)

  /** `with(values)`: flash exactly these values. */
  method With(request: Request, values: Value) returns (self: Request)
    modifies request`putValues
    ensures self == request && request.putValues == values
  {
    request.putValues := values;
    self := request;
  }

  /** `withAll()`: flash every input of the request. */
  method WithAll(request: Request) returns (self: Request)
    modifies request`putValues
    ensures self == request && request.putValues == request.All()
  {
    request.putValues := request.All();
    self := request;
  }

  /** `withOnly(keys)`: flash the inputs under the given keys. */
  method WithOnly(request: Request, keys: seq<string>) returns (self: Request)
    modifies request`putValues
    ensures self == request && request.putValues == request.Only(keys)
  {
    request.putValues := request.Only(keys);
    self := request;
  }

  /** `without(keys)` (also installed as `withOut`): flash every input
      except those under the given keys. */
  method Without(request: Request, keys: seq<string>) returns (self: Request)
    modifies request`putValues
    ensures self == request && request.putValues == request.Except(keys)
  {
    request.putValues := request.Except(keys);
    self := request;
  }

  /** `withOnly(keys)` and `without(keys)` split the inputs between them:
      every input is in exactly one of the two. */
  lemma OnlyExceptPartition(request: Request, keys: seq<string>)
    ensures request.Only(keys).props.Keys !! request.Except(keys).props.Keys
    ensures request.Only(keys).props + request.Except(keys).props == request.inputs
    ensures forall k | k in keys && k in request.inputs :: request.Only(keys).props[k] == request.inputs[k]
  {
    var only, except := request.Only(keys).props, request.Except(keys).props;
    assert (only + except).Keys == request.inputs.Keys;
  }

  /** lodash's `_.merge` of `src` into a property whose current value is
      `dst` (`undefined` when absent): objects merge key by key and arrays
      index by index, the source winning; an `undefined` source keeps what
      is there; any other source value replaces it. */
  function Merge(dst: Value, src: Value): (r: Value)
    ensures src.Obj? ==> r.Obj? && r.props.Keys == (if dst.Obj? then dst.props.Keys else {}) + src.props.Keys
    ensures src.Arr? ==> r.Arr? && |r.items| == if dst.Arr? && |dst.items| > |src.items| then |dst.items| else |src.items|
    ensures src.Undefined? ==> r == dst
    ensures !src.Obj? && !src.Arr? && !src.Undefined? ==> r == src
    // merging objects: a key only the old object has keeps its value, and a
    // new value that is not a container comes in as given
    ensures src.Obj? && dst.Obj? ==> forall k | k in dst.props && k !in src.props :: r.props[k] == dst.props[k]
    ensures src.Obj? ==> forall k | k in src.props && !src.props[k].Obj? && !src.props[k].Arr? && !src.props[k].Undefined?
                           :: r.props[k] == src.props[k]
    decreases src
  {
    match src
    case Obj(props) =>
      var base := if dst.Obj? then dst.props else map[];
      Obj(map k | k in base.Keys + props.Keys ::
            if k in props then Merge(if k in base then base[k] else Undefined, props[k]) else base[k])
    case Arr(items) =>
      var base := if dst.Arr? then dst.items else [];
      var n := if |base| > |items| then |base| else |items|;
      Arr(seq(n, i requires 0 <= i < n =>
            if i < |items| then Merge(if i < |base| then base[i] else Undefined, items[i]) else base[i]))
    case Undefined => dst
    case _ => src
  }

  /** Merging into nothing copies the source. */
  lemma {:induction false} MergeIntoNothing(src: Value)
    ensures Merge(Undefined, src) == src
    decreases src
  {
    match src
    case Obj(props) =>
      var r := Merge(Undefined, src);
      forall k | k in props
        ensures r.props[k] == props[k]
      {
        MergeIntoNothing(props[k]);
      }
      assert r.props == props;
    case Arr(items) =>
      var r := Merge(Undefined, src);
      forall i | 0 <= i < |items|
        ensures r.items[i] == items[i]
      {
        MergeIntoNothing(items[i]);
      }
      assert r.items == items;
    case _ =>
  }

  /** Merging the same values in twice is merging them in once. */
  lemma {:induction false} MergeIdempotent(dst: Value, src: Value)
    ensures Merge(Merge(dst, src), src) == Merge(dst, src)
    decreases src
  {
    var once := Merge(dst, src);
    match src
    case Obj(props) =>
      var base := if dst.Obj? then dst.props else map[];
      var twice := Merge(once, src);
      forall k | k in props
        ensures twice.props[k] == once.props[k]
      {
        MergeIdempotent(if k in base then base[k] else Undefined, props[k]);
      }
      assert twice.props == once.props;
    case Arr(items) =>
      var base := if dst.Arr? then dst.items else [];
      var twice := Merge(once, src);
      forall i | 0 <= i < |items|
        ensures twice.items[i] == once.items[i]
      {
        MergeIdempotent(if i < |base| then base[i] else Undefined, items[i]);
      }
      assert twice.items == once.items;
    case _ =>
  }

  /** `_.merge(target, source)` at the top: a source with no properties of
      its own leaves the target as it is. */
  function MergeTop(target: Value, source: Value): (r: Value)
    ensures !source.Obj? && !source.Arr? ==> r == target
    // an object merged in keeps every key chosen before and adds its own
    ensures source.Obj? ==> r.Obj? && r.props.Keys == (if target.Obj? then target.props.Keys else {}) + source.props.Keys
    ensures source.Obj? && target.Obj? ==> forall k | k in target.props && k !in source.props :: r.props[k] == target.props[k]
  {
    if source.Obj? || source.Arr? then Merge(target, source) else target
  }

  /** `andWith(values)`: merges into the values chosen so far, and refuses
      when nothing (nothing truthy) was chosen yet. */
  method AndWith(request: Request, values: Value) returns (r: Result<Request, HttpError>)
    modifies request`putValues
    ensures !Truthy(old(request.putValues)) ==> r == Failure(AndWithWithoutWith) && request.putValues == old(request.putValues)
    ensures Truthy(old(request.putValues)) ==> r == Success(request) && request.putValues == MergeTop(old(request.putValues), values)
  {
    if !Truthy(request.putValues) {
      return Failure(AndWithWithoutWith);
    }
    request.putValues := MergeTop(request.putValues, values);
    r := Success(request);
  }

  /** `flash()`: stores the chosen values in the session, and refuses when
      nothing (nothing truthy) was chosen. */
  method Flash(request: Request, session: Session) returns (error: Option<HttpError>)
    modifies session
    ensures !Truthy(request.putValues) ==> error == Some(NothingToFlash) && session.store == old(session.store)
    ensures Truthy(request.putValues) ==> error == None && session.store == old(session.store)[FlashKey := request.putValues]
  {
    if !Truthy(request.putValues) {
      return Some(NothingToFlash);
    }
    session.Put(FlashKey, request.putValues);
    error := None;
  }

  /** The guards test truthiness, not emptiness, and `{}` is truthy: an
      empty object chosen with `with` is flashed. */
  method FlashEmptyObject() returns (error: Option<HttpError>, stored: Value)
    ensures error == None && stored == EmptyObject
  {
    var session := new Session(map[]);
    var request := new Request("POST", map[], "", false, map[], Undefined, map[]);
    var _ := With(request, EmptyObject);
    error := Flash(request, session);
    stored := session.Get(FlashKey);
  }

  /** `old(key, defaultValue)` on the flashed values `values`: the value at
      the dotted `key`, else the default, else `null`. */
  function OldOf(values: Value, key: string, default: Value): (r: Value)
    ensures !r.Undefined?
    ensures !Nullish(Get(values, key, Undefined)) ==> r == Get(values, key, Undefined)
    ensures Nullish(Get(values, key, Undefined)) && !Nullish(default) ==> r == default
    ensures Nullish(Get(values, key, Undefined)) && Nullish(default) ==> r == Null
  {
    var defaultValue := if !Nullish(default) then default else Null;
    var value := Get(values, key, Undefined);
    if !Nullish(value) then value else defaultValue
  }

  /** `request.old(key, defaultValue)`: reads the values pulled from the
      previous request. */
  function Old(request: Request, key: string, default: Value): (r: Value)
    reads request
    ensures !r.Undefined?
    // nothing pulled from the previous request: the default, or `null`
    ensures request.getValues == EmptyObject ==> r == if Nullish(default) then Null else default
  {
    OldOfNothing(key, default);
    OldOf(request.getValues, key, default)
  }

  /** Nothing flashed: every key gives the default, or `null`. */
  lemma OldOfNothing(key: string, default: Value)
    ensures OldOf(EmptyObject, key, default) == if Nullish(default) then Null else default
  {
    assert GetPath(EmptyObject, Split(key, '.')) == Undefined;
  }

  /** A dotted key `name.rest` looks up `rest` inside the flashed `name`. */
  lemma OldNested(values: map<string, Value>, name: string, rest: string, default: Value)
    requires '.' !in name
    ensures OldOf(Obj(values), name + "." + rest, default)
         == OldOf(if name in values then values[name] else Undefined, rest, default)
  {
    GetUnderPrefix(Obj(values), name, rest, Undefined);
  }
}
