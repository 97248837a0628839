/**
 * The JavaScript values the middlewares pass around, with the language's
 * truthiness, the `||` operator, `String.prototype.split`/`Array.prototype.join`
 * on one separator character, and lodash's `_.get` on a dotted path.
 */
module Js {

  datatype Option<+T> = None | Some(value: T)

  datatype Result<+T, +E> = Success(value: T) | Failure(error: E)

  /** A JSON-like JavaScript value (numbers are integers in this model). */
  datatype Value =
    | Undefined
    | Null
    | Bool(b: bool)
    | Num(n: int)
    | Str(s: string)
    | Arr(items: seq<Value>)
    | Obj(props: map<string, Value>)

  const EmptyObject: Value := Obj(map[])

  /** An error object as thrown or rejected: its class name, message, and the
      `status` and `code` properties some errors carry. */
  datatype HttpError = HttpError(name: string, message: string, status: Option<nat>, code: Option<string>)

  /** JavaScript's ToBoolean, i.e. `!!v`. */
  predicate Truthy(v: Value) {
    match v
    case Undefined => false
    case Null => false
    case Bool(b) => b
    case Num(n) => n != 0
    case Str(s) => s != ""
    case _ => true
  }

  /** `v === null || v === undefined` */
  predicate Nullish(v: Value) {
    v.Undefined? || v.Null?
  }

  /** `a || b` */
  function Or(a: Value, b: Value): Value {
    if Truthy(a) then a else b
  }

  /** `s.split(sep)` for a one-character separator: never empty. */
  function Split(s: string, sep: char): (parts: seq<string>)
    ensures |parts| > 0
    ensures forall i | 0 <= i < |parts| :: sep !in parts[i]
    decreases |s|
  {
    if |s| == 0 then [""]
    else
      var rest := Split(s[1..], sep);
      if s[0] == sep then [""] + rest else [[s[0]] + rest[0]] + rest[1..]
  }

  /** `parts.join([sep])` */
  function Join(parts: seq<string>, sep: char): string
    decreases |parts|
  {
    if |parts| == 0 then ""
    else if |parts| == 1 then parts[0]
    else parts[0] + [sep] + Join(parts[1..], sep)
  }

  /** Splitting a string with no separator in front of a separator splits
      there and nowhere else. */
  lemma {:induction false} SplitAppend(head: string, tail: string, sep: char)
    requires sep !in head
    ensures Split(head + [sep] + tail, sep) == [head] + Split(tail, sep)
    decreases |head|
  {
    if |head| == 0 {
      assert head + [sep] + tail == [sep] + tail;
      assert ([sep] + tail)[1..] == tail;
    } else {
      SplitAppend(head[1..], tail, sep);
      assert (head + [sep] + tail)[1..] == head[1..] + [sep] + tail;
      assert [head[0]] + head[1..] == head;
    }
  }

  /** A string with no separator splits into itself alone. */
  lemma {:induction false} SplitNoSep(s: string, sep: char)
    requires sep !in s
    ensures Split(s, sep) == [s]
    decreases |s|
  {
    if |s| > 0 {
      SplitNoSep(s[1..], sep);
      assert [s[0]] + s[1..] == s;
    }
  }

  /** Joining parts that hold no separator and splitting again gives the
      parts back. */
  lemma {:induction false} SplitJoin(parts: seq<string>, sep: char)
    requires |parts| > 0
    requires forall i | 0 <= i < |parts| :: sep !in parts[i]
    ensures Split(Join(parts, sep), sep) == parts
    decreases |parts|
  {
    if |parts| == 1 {
      SplitNoSep(parts[0], sep);
    } else {
      SplitJoin(parts[1..], sep);
      SplitAppend(parts[0], Join(parts[1..], sep), sep);
      assert [parts[0]] + parts[1..] == parts;
    }
  }

  /** Splitting and joining again gives the string back. */
  lemma {:induction false} JoinSplit(s: string, sep: char)
    ensures Join(Split(s, sep), sep) == s
    decreases |s|
  {
    if |s| > 0 {
      var rest := Split(s[1..], sep);
      JoinSplit(s[1..], sep);
      if s[0] == sep {
        assert ([""] + rest)[1..] == rest;
        assert [s[0]] + s[1..] == s;
      } else {
        var parts := [[s[0]] + rest[0]] + rest[1..];
        assert parts[1..] == rest[1..];
        if |rest| == 1 {
          assert Join(rest, sep) == rest[0];
        } else {
          assert Join(rest, sep) == rest[0] + [sep] + Join(rest[1..], sep);
        }
        assert [s[0]] + s[1..] == s;
      }
    }
  }

  /** lodash's `_.get(v, path)` along a path already split at dots; a
      missing property, or a step into a non-object, gives `undefined`. */
  function GetPath(v: Value, path: seq<string>): Value
    decreases |path|
  {
    if |path| == 0 then v
    else match v
      case Obj(props) => if path[0] in props then GetPath(props[path[0]], path[1..]) else Undefined
      case _ => Undefined
  }

  /** lodash's `_.get(v, key, defaultValue)`: the value at the dotted `key`,
      or the default when that value is `undefined`. */
  function Get(v: Value, key: string, default: Value): Value
  {
    var found := GetPath(v, Split(key, '.'));
    if found.Undefined? then default else found
  }

  /** A dotted key `prefix.rest` reads only the `prefix` property of the root. */
  lemma GetUnderPrefix(v: Value, prefix: string, key: string, default: Value)
    requires '.' !in prefix
    ensures Get(v, prefix + "." + key, default)
         == Get(if v.Obj? && prefix in v.props then v.props[prefix] else Undefined, key, default)
  {
    SplitAppend(prefix, key, '.');
    var parts := Split(key, '.');
    assert ([prefix] + parts)[1..] == parts;
    if !(v.Obj? && prefix in v.props) {
      assert GetPath(Undefined, parts) == Undefined;
    }
  }
}
