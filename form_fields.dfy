/**
 * The bracket-key form-field builder used by the multipart parser: each
 * `add(key, value)` files the value under a key such as `name[]`,
 * `user[email]` or `user[0][email]` in a growing nested object.
 *
 * Its implementation file is not part of this model; this module is derived
 * from the builder's six test cases and reproduces each of them.
 */
module FormFields {
  import opened Js

  /** One step of a bracket key: a name (or index) or `[]`, "append". */
  datatype Segment = Name(t: string) | Append

  predicate IsDigit(c: char) {
    '0' <= c <= '9'
  }

  /** A name made of digits only, read as an array index where the
      container is (or becomes) an array. */
  predicate IsIndex(t: string) {
    |t| > 0 && forall i | 0 <= i < |t| :: IsDigit(t[i])
  }

  function DigitsValue(t: string): nat
    requires forall i | 0 <= i < |t| :: IsDigit(t[i])
    decreases |t|
  {
    if |t| == 0 then 0
    else
      var last := t[|t| - 1];
      assert IsDigit(last);
      DigitsValue(t[..|t| - 1]) * 10 + (last as int - '0' as int)
  }

  function Flush(cur: string): seq<Segment> {
    if cur == "" then [] else [Name(cur)]
  }

  /** Splits a key at its brackets, `[]` giving `Append`; `cur` is the name
      read so far. */
  function Scan(s: string, cur: string): (segs: seq<Segment>)
    ensures forall i | 0 <= i < |segs| :: segs[i].Name? ==> segs[i].t != ""
    ensures NoBrackets(cur) ==> forall i | 0 <= i < |segs| :: segs[i].Name? ==> NoBrackets(segs[i].t)
    decreases |s|
  {
    if |s| == 0 then Flush(cur)
    else if |s| >= 2 && s[0] == '[' && s[1] == ']' then Flush(cur) + [Append] + Scan(s[2..], "")
    else if s[0] == '[' || s[0] == ']' then Flush(cur) + Scan(s[1..], "")
    else Scan(s[1..], cur + [s[0]])
  }

  /** The steps of a key: every name is non-empty and holds no bracket. */
  function ParseKey(key: string): (segs: seq<Segment>)
    ensures forall i | 0 <= i < |segs| :: segs[i].Name? ==> segs[i].t != "" && NoBrackets(segs[i].t)
  {
    Scan(key, "")
  }

  /** Whether a `Name` step goes into an array: the container is an array,
      or there is no container yet, and the name is an index. */
  predicate IntoArray(c: Value, t: string) {
    IsIndex(t) && (c.Arr? || !c.Obj?)
  }

  /** The elements of an array container; none for anything else. */
  function ItemsOf(c: Value): seq<Value> {
    if c.Arr? then c.items else []
  }

  /** The properties of an object container; none for anything else. */
  function PropsOf(c: Value): map<string, Value> {
    if c.Obj? then c.props else map[]
  }

  function PropOf(c: Value, t: string): Value {
    if t in PropsOf(c) then PropsOf(c)[t] else Undefined
  }

  /** `k` empty slots of a sparse array. */
  function Holes(k: nat): (h: seq<Value>)
    ensures |h| == k
    decreases k
  {
    if k == 0 then [] else Holes(k - 1) + [Undefined]
  }

  /** The elements extended with empty slots up to index `n`. */
  function PadTo(items: seq<Value>, n: nat): (p: seq<Value>)
    ensures |items| <= |p| && n < |p| && p[..|items|] == items
  {
    if n < |items| then items else items + Holes(n + 1 - |items|)
  }

  /** Files `v` under `path` in the container `c` (`undefined` when there
      is none yet), creating the objects and arrays the path passes through. */
  function Insert(c: Value, path: seq<Segment>, v: Value): (r: Value)
    // a non-empty path always leaves a container: an array when it starts
    // with `[]`, else an object or an array
    ensures |path| > 0 ==> r.Obj? || r.Arr?
    ensures |path| > 0 && path[0] == Append ==> r.Arr?
    decreases |path|
  {
    if |path| == 0 then v
    else match path[0]
      case Append =>
        Arr(ItemsOf(c) + [Insert(Undefined, path[1..], v)])
      case Name(t) =>
        if IntoArray(c, t) then
          var n := DigitsValue(t);
          var padded := PadTo(ItemsOf(c), n);
          Arr(padded[n := Insert(padded[n], path[1..], v)])
        else
          Obj(PropsOf(c)[t := Insert(PropOf(c, t), path[1..], v)])
  }

  /** An append step adds one element after the existing ones. */
  lemma InsertAppends(c: Value, rest: seq<Segment>, v: Value)
    ensures var r := Insert(c, [Append] + rest, v);
      r.Arr? && |r.items| == |ItemsOf(c)| + 1 && r.items[..|ItemsOf(c)|] == ItemsOf(c)
      && r.items[|ItemsOf(c)|] == Insert(Undefined, rest, v)
  {
    assert ([Append] + rest)[1..] == rest;
  }

  /** A name step into an object changes that one property only. */
  lemma InsertNames(c: Value, t: string, rest: seq<Segment>, v: Value)
    requires !IntoArray(c, t)
    ensures var r := Insert(c, [Name(t)] + rest, v);
      r.Obj? && r.props.Keys == PropsOf(c).Keys + {t}
      && r.props[t] == Insert(PropOf(c, t), rest, v)
      && forall k | k in PropsOf(c) && k != t :: r.props[k] == PropsOf(c)[k]
  {
    assert ([Name(t)] + rest)[1..] == rest;
  }

  /** An index step into an array changes that one element only, growing
      the array with empty slots up to the index. */
  lemma InsertIndexes(c: Value, t: string, rest: seq<Segment>, v: Value)
    requires IntoArray(c, t)
    ensures var r := Insert(c, [Name(t)] + rest, v); var n := DigitsValue(t);
      r.Arr? && |r.items| == (if n < |ItemsOf(c)| then |ItemsOf(c)| else n + 1)
      && r.items[n] == Insert(if n < |ItemsOf(c)| then ItemsOf(c)[n] else Undefined, rest, v)
      && forall i | 0 <= i < |r.items| && i != n ::
           r.items[i] == if i < |ItemsOf(c)| then ItemsOf(c)[i] else Undefined
  {
    assert ([Name(t)] + rest)[1..] == rest;
    var n := DigitsValue(t);
    var items := ItemsOf(c);
    if n >= |items| {
      forall i | |items| <= i < n + 1
        ensures PadTo(items, n)[i] == Undefined
      {
        HolesAreEmpty(n + 1 - |items|, i - |items|);
      }
    }
  }

  lemma {:induction false} HolesAreEmpty(k: nat, i: nat)
    requires i < k
    ensures Holes(k)[i] == Undefined
    decreases k
  {
    if i < k - 1 {
      HolesAreEmpty(k - 1, i);
    }
  }

  /** Reads back along a path the way `Insert` files: `[]` is the last
      element. */
  function Lookup(c: Value, path: seq<Segment>): Value
    decreases |path|
  {
    if |path| == 0 then c
    else match path[0]
      case Append =>
        if c.Arr? && |c.items| > 0 then Lookup(c.items[|c.items| - 1], path[1..]) else Undefined
      case Name(t) =>
        if c.Arr? && IsIndex(t) then
          (if DigitsValue(t) < |c.items| then Lookup(c.items[DigitsValue(t)], path[1..]) else Undefined)
        else if c.Obj? && t in c.props then Lookup(c.props[t], path[1..])
        else Undefined
  }

  /** What was filed under a path is found under it. */
  lemma {:induction false} LookupInsert(c: Value, path: seq<Segment>, v: Value)
    ensures Lookup(Insert(c, path, v), path) == v
    decreases |path|
  {
    if |path| > 0 {
      match path[0]
      case Append =>
        LookupInsert(Undefined, path[1..], v);
      case Name(t) =>
        if IntoArray(c, t) {
          LookupInsert(PadTo(ItemsOf(c), DigitsValue(t))[DigitsValue(t)], path[1..], v);
        } else {
          LookupInsert(PropOf(c, t), path[1..], v);
        }
    }
  }

  /** One name step into an object, then the rest of the path. */
  lemma NameStep(c: Value, t: string, rest: seq<Segment>, v: Value)
    requires !IntoArray(c, t)
    ensures Insert(c, [Name(t)] + rest, v) == Obj(PropsOf(c)[t := Insert(PropOf(c, t), rest, v)])
  {
    assert ([Name(t)] + rest)[1..] == rest;
  }

  /** A final append step. */
  lemma AppendStep(c: Value, v: Value)
    ensures Insert(c, [Append], v) == Arr(ItemsOf(c) + [v])
  {
    assert [Append][1..] == [];
  }

  /** Adding under `name[]` twice appends the two values in arrival order. */
  lemma AppendInOrder(c: Value, name: string, v1: Value, v2: Value)
    requires !IntoArray(c, name)
    ensures var twice := Insert(Insert(c, [Name(name), Append], v1), [Name(name), Append], v2);
      twice.Obj? && name in twice.props && twice.props[name] == Arr(ItemsOf(PropOf(c, name)) + [v1, v2])
  {
    assert [Name(name), Append] == [Name(name)] + [Append];
    NameStep(c, name, [Append], v1);
    AppendStep(PropOf(c, name), v1);
    var once := Insert(c, [Name(name), Append], v1);
    NameStep(once, name, [Append], v2);
    AppendStep(PropOf(once, name), v2);
    assert ItemsOf(PropOf(c, name)) + [v1] + [v2] == ItemsOf(PropOf(c, name)) + [v1, v2];
  }

  /** The fields after adding each pair in turn: the value added last is
      found under its key. */
  function Build(pairs: seq<(string, Value)>): (r: Value)
    ensures |pairs| == 0 ==> r == EmptyObject
    ensures |pairs| > 0 ==> Lookup(r, ParseKey(pairs[|pairs| - 1].0)) == pairs[|pairs| - 1].1
    decreases |pairs|
  {
    if |pairs| == 0 then EmptyObject
    else
      LookupInsert(Build(pairs[..|pairs| - 1]), ParseKey(pairs[|pairs| - 1].0), pairs[|pairs| - 1].1);
      Insert(Build(pairs[..|pairs| - 1]), ParseKey(pairs[|pairs| - 1].0), pairs[|pairs| - 1].1)
  }

  class FormFields {
    var fields: Value
    /** the pairs added so far, in order */
    ghost var added: seq<(string, Value)>

    /** The fields are what the pairs added so far build. */
    ghost predicate Valid()
      reads this
    {
      fields == Build(added)
    }

    constructor ()
      ensures Valid() && added == []
    {
      fields := EmptyObject;
      added := [];
    }

    /** `add(key, value)` */
    method Add(key: string, value: Value)
      requires Valid()
      modifies this
      ensures Valid() && added == old(added) + [(key, value)]
      ensures fields == Insert(old(fields), ParseKey(key), value)
    {
      BuildSnoc(added, key, value);
      fields := Insert(fields, ParseKey(key), value);
      added := added + [(key, value)];
    }

    /** `get()`: the fields built from every pair added, in order. */
    function Get(): (r: Value)
      requires Valid()
      reads this
      ensures r == Build(added)
    {
      fields
    }
  }

  predicate NoBrackets(name: string) {
    forall i | 0 <= i < |name| :: name[i] != '[' && name[i] != ']'
  }

  /** A run of name characters is read into the current name. */
  lemma {:induction false} ScanWord(name: string, rest: string, cur: string)
    requires NoBrackets(name)
    ensures Scan(name + rest, cur) == Scan(rest, cur + name)
    decreases |name|
  {
    if |name| == 0 {
      assert name + rest == rest && cur + name == cur;
    } else {
      assert (name + rest)[1..] == name[1..] + rest;
      ScanWord(name[1..], rest, cur + [name[0]]);
      assert cur + [name[0]] + name[1..] == cur + name;
    }
  }

  /** A closing bracket ends the current name. */
  lemma ScanClose(rest: string, cur: string)
    ensures Scan("]" + rest, cur) == Flush(cur) + Scan(rest, "")
  {
    assert ("]" + rest)[1..] == rest;
  }

  /** `[]` ends the current name and appends. */
  lemma ScanAppend(rest: string, cur: string)
    ensures Scan("[]" + rest, cur) == Flush(cur) + [Append] + Scan(rest, "")
  {
    assert ("[]" + rest)[2..] == rest;
  }

  /** `[name]` ends the current name and reads `name`. */
  lemma ScanBracket(name: string, rest: string, cur: string)
    requires NoBrackets(name) && |name| > 0
    ensures Scan("[" + name + "]" + rest, cur) == Flush(cur) + [Name(name)] + Scan(rest, "")
  {
    var s := "[" + name + "]" + rest;
    assert s[1] == name[0];
    assert s[1..] == name + ("]" + rest);
    ScanWord(name, "]" + rest, "");
    assert "" + name == name;
    ScanClose(rest, name);
  }

  /** A plain key names one field. */
  lemma ParseOne(a: string)
    requires NoBrackets(a) && |a| > 0
    ensures ParseKey(a) == [Name(a)]
  {
    ScanWord(a, "", "");
    assert a + "" == a && "" + a == a;
  }

  /** `a[]` appends to the array `a`. */
  lemma ParseAppend(a: string)
    requires NoBrackets(a) && |a| > 0
    ensures ParseKey(a + "[]") == [Name(a), Append]
  {
    ScanWord(a, "[]", "");
    assert "" + a == a;
    ScanAppend("", a);
  }

  /** `a[b]` names the field `b` of `a`. */
  lemma ParseTwo(a: string, b: string)
    requires NoBrackets(a) && |a| > 0 && NoBrackets(b) && |b| > 0
    ensures ParseKey(a + "[" + b + "]") == [Name(a), Name(b)]
  {
    assert a + "[" + b + "]" == a + ("[" + b + "]" + "");
    ScanWord(a, "[" + b + "]" + "", "");
    assert "" + a == a;
    ScanBracket(b, "", a);
  }

  /** `a[b[]]` appends to the array `b` inside `a`. */
  lemma ParseTwoAppend(a: string, b: string)
    requires NoBrackets(a) && |a| > 0 && NoBrackets(b) && |b| > 0
    ensures ParseKey(a + "[" + b + "[]]") == [Name(a), Name(b), Append]
  {
    var s := "[" + b + "[]]";
    assert a + "[" + b + "[]]" == a + s;
    ScanWord(a, s, "");
    assert "" + a == a;
    assert s[1] == b[0];
    assert s[1..] == b + ("[]" + "]");
    ScanWord(b, "[]" + "]", "");
    assert "" + b == b;
    ScanAppend("]", b);
    ScanClose("", "");
  }

  /** `a[b][c]` names the field `c` of the field `b` of `a`. */
  lemma ParseThree(a: string, b: string, c: string)
    requires NoBrackets(a) && |a| > 0 && NoBrackets(b) && |b| > 0 && NoBrackets(c) && |c| > 0
    ensures ParseKey(a + "[" + b + "][" + c + "]") == [Name(a), Name(b), Name(c)]
  {
    var tail := "[" + c + "]" + "";
    var s := "[" + b + "]" + tail;
    assert a + "[" + b + "][" + c + "]" == a + s;
    ScanWord(a, s, "");
    assert "" + a == a;
    ScanBracket(b, tail, a);
    ScanBracket(c, "", "");
  }

  /** The keys of the builder's tests, as they are read. */
  lemma ParseName()
    ensures ParseKey("name") == [Name("name")]
  {
    ParseOne("name");
  }

  lemma ParseNameAppend()
    ensures ParseKey("name[]") == [Name("name"), Append]
  {
    ParseAppend("name");
    assert "name" + "[]" == "name[]";
  }

  /** `user[email]` and `user[age]`, the two keys of the nested-object
      tests. */
  lemma ParseUserFields()
    ensures ParseKey("user[email]") == [Name("user"), Name("email")]
    ensures ParseKey("user[age]") == [Name("user"), Name("age")]
  {
    ParseTwo("user", "email");
    assert "user" + "[" + "email" + "]" == "user[email]";
    ParseTwo("user", "age");
    assert "user" + "[" + "age" + "]" == "user[age]";
  }

  lemma ParseUserEmailAppend()
    ensures ParseKey("user[email[]]") == [Name("user"), Name("email"), Append]
  {
    ParseTwoAppend("user", "email");
    assert "user" + "[" + "email" + "[]]" == "user[email[]]";
  }

  /** `user[0][email]` and `user[1][age]`, the two keys of the indexed
      test. */
  lemma ParseUserIndexed()
    ensures ParseKey("user[0][email]") == [Name("user"), Name("0"), Name("email")]
    ensures ParseKey("user[1][age]") == [Name("user"), Name("1"), Name("age")]
  {
    ParseThree("user", "0", "email");
    assert "user" + "[" + "0" + "][" + "email" + "]" == "user[0][email]";
    ParseThree("user", "1", "age");
    assert "user" + "[" + "1" + "][" + "age" + "]" == "user[1][age]";
  }

  lemma NotIndex(t: string)
    requires |t| > 0 && !IsDigit(t[0])
    ensures !IsIndex(t)
  {
  }

  /** The six cases of the builder's tests, as `Build` computes them. */
  /** `add('name', 'foo')` */
  lemma PlainKey()
    ensures Build([("name", Str("foo"))]) == Obj(map["name" := Str("foo")])
  {
    PlainField(Str("foo"));
  }

  lemma PlainField(v: Value)
    ensures Build([("name", v)]) == Obj(map["name" := v])
  {
    calc {
      Build([("name", v)]);
      { BuildOne("name", v); ParseName(); }
      Insert(EmptyObject, [Name("name")], v);
      { NotIndex("name"); LeafStep(EmptyObject, "name", v); }
      Obj(map["name" := v]);
    }
  }

  /** `add('name[]', 'foo')` */
  lemma ArrayKey()
    ensures Build([("name[]", Str("foo"))]) == Obj(map["name" := Arr([Str("foo")])])
  {
    FirstAppend(Str("foo"));
  }

  lemma FirstAppend(v1: Value)
    ensures Build([("name[]", v1)]) == Obj(map["name" := Arr([v1])])
  {
    calc {
      Build([("name[]", v1)]);
      { BuildOne("name[]", v1); ParseNameAppend(); }
      Insert(EmptyObject, [Name("name")] + [Append], v1);
      { NotIndex("name"); NameStep(EmptyObject, "name", [Append], v1); }
      Obj(map["name" := Insert(Undefined, [Append], v1)]);
      { AppendStep(Undefined, v1); assert [] + [v1] == [v1]; }
      Obj(map["name" := Arr([v1])]);
    }
  }

  /** `add('name[]', 'foo')`, then `add('name[]', 'bar')` */
  lemma ArrayKeyTwice()
    ensures Build([("name[]", Str("foo")), ("name[]", Str("bar"))]) == Obj(map["name" := Arr([Str("foo"), Str("bar")])])
  {
    AppendsInArrivalOrder(Str("foo"), Str("bar"));
  }

  lemma AppendsInArrivalOrder(v1: Value, v2: Value)
    ensures Build([("name[]", v1), ("name[]", v2)]) == Obj(map["name" := Arr([v1, v2])])
  {
    FirstAppend(v1);
    var once := Obj(map["name" := Arr([v1])]);
    calc {
      Build([("name[]", v1), ("name[]", v2)]);
      { BuildSnoc([("name[]", v1)], "name[]", v2); }
      Insert(once, ParseKey("name[]"), v2);
      { ParseNameAppend(); }
      Insert(once, [Name("name")] + [Append], v2);
      { NotIndex("name"); NameStep(once, "name", [Append], v2); }
      Obj(map["name" := Insert(Arr([v1]), [Append], v2)]);
      { AppendStep(Arr([v1]), v2); assert [v1] + [v2] == [v1, v2]; }
      Obj(map["name" := Arr([v1, v2])]);
    }
  }

  /** The first pair of a build is filed into the empty object. */
  lemma BuildOne(key: string, v: Value)
    ensures Build([(key, v)]) == Insert(EmptyObject, ParseKey(key), v)
  {
    assert [(key, v)][..0] == [];
  }

  /** Each later pair is filed into what the earlier ones built. */
  lemma BuildSnoc(pairs: seq<(string, Value)>, key: string, v: Value)
    ensures Build(pairs + [(key, v)]) == Insert(Build(pairs), ParseKey(key), v)
  {
    assert (pairs + [(key, v)])[..|pairs|] == pairs;
  }

  /** A last name step into an object sets that one property. */
  lemma LeafStep(c: Value, t: string, v: Value)
    requires !IntoArray(c, t)
    ensures Insert(c, [Name(t)], v) == Obj(PropsOf(c)[t := v])
  {
    assert [Name(t)][1..] == [];
  }

  /** An index step into an array (or into nothing yet). */
  lemma IndexStep(c: Value, t: string, rest: seq<Segment>, v: Value)
    requires IntoArray(c, t)
    ensures var n := DigitsValue(t); var padded := PadTo(ItemsOf(c), n);
      Insert(c, [Name(t)] + rest, v) == Arr(padded[n := Insert(padded[n], rest, v)])
  {
    assert ([Name(t)] + rest)[1..] == rest;
  }

  /** `user[<t>]` filed into `c`, `t` not an index. */
  lemma UserField(c: Value, t: string, v: Value)
    requires !IntoArray(c, "user") && !IntoArray(PropOf(c, "user"), t)
    ensures Insert(c, [Name("user"), Name(t)], v)
         == Obj(PropsOf(c)["user" := Obj(PropsOf(PropOf(c, "user"))[t := v])])
  {
    assert [Name("user"), Name(t)] == [Name("user")] + [Name(t)];
    NameStep(c, "user", [Name(t)], v);
    LeafStep(PropOf(c, "user"), t, v);
  }

  /** `user[<t>]` filed into fields that already have a `user` object. */
  lemma UserFieldInto(fields: map<string, Value>, t: string, v: Value)
    requires !IsIndex(t)
    ensures Insert(Obj(map["user" := Obj(fields)]), [Name("user"), Name(t)], v)
         == Obj(map["user" := Obj(fields[t := v])])
  {
    var c := Obj(map["user" := Obj(fields)]);
    NotIndex("user");
    assert PropOf(c, "user") == Obj(fields);
    UserField(c, t, v);
    assert map["user" := Obj(fields)]["user" := Obj(fields[t := v])] == map["user" := Obj(fields[t := v])];
  }

  /** `user[email[]]` filed into fields whose `user` already holds an
      `email` array. */
  lemma UserEmailAppendInto(fields: map<string, Value>, items: seq<Value>, v: Value)
    requires "email" in fields && fields["email"] == Arr(items)
    ensures Insert(Obj(map["user" := Obj(fields)]), [Name("user"), Name("email"), Append], v)
         == Obj(map["user" := Obj(fields["email" := Arr(items + [v])])])
  {
    var c := Obj(map["user" := Obj(fields)]);
    NotIndex("user");
    NotIndex("email");
    assert PropOf(c, "user") == Obj(fields);
    assert PropOf(Obj(fields), "email") == Arr(items);
    UserEmailAppend(c, v);
    assert map["user" := Obj(fields)]["user" := Obj(fields["email" := Arr(items + [v])])]
        == map["user" := Obj(fields["email" := Arr(items + [v])])];
  }

  /** `add('user[email]', 'foo@bar.com')`, then `add('user[age]', 22)` */
  lemma NestedKeys()
    ensures Build([("user[email]", Str("foo@bar.com")), ("user[age]", Num(22))])
         == Obj(map["user" := Obj(map["email" := Str("foo@bar.com"), "age" := Num(22)])])
  {
    NestedFields(Str("foo@bar.com"), Num(22));
  }

  lemma UserEmailFirst(e: Value)
    ensures Build([("user[email]", e)]) == Obj(map["user" := Obj(map["email" := e])])
  {
    calc {
      Build([("user[email]", e)]);
      { BuildOne("user[email]", e); ParseUserFields(); }
      Insert(EmptyObject, [Name("user"), Name("email")], e);
      { NotIndex("user"); NotIndex("email"); UserField(EmptyObject, "email", e); }
      Obj(map["user" := Obj(map["email" := e])]);
    }
  }

  lemma NestedFields(e: Value, a: Value)
    ensures Build([("user[email]", e), ("user[age]", a)]) == Obj(map["user" := Obj(map["email" := e, "age" := a])])
  {
    UserEmailFirst(e);
    var once := Obj(map["user" := Obj(map["email" := e])]);
    calc {
      Build([("user[email]", e), ("user[age]", a)]);
      { BuildSnoc([("user[email]", e)], "user[age]", a); }
      Insert(once, ParseKey("user[age]"), a);
      { ParseUserFields(); }
      Insert(once, [Name("user"), Name("age")], a);
      { NotIndex("age"); UserFieldInto(map["email" := e], "age", a); }
      Obj(map["user" := Obj(map["email" := e]["age" := a])]);
      { assert map["email" := e]["age" := a] == map["email" := e, "age" := a]; }
      Obj(map["user" := Obj(map["email" := e, "age" := a])]);
    }
  }

  /** `user[email[]]` filed into `c`. */
  lemma UserEmailAppend(c: Value, v: Value)
    requires !IntoArray(c, "user") && !IntoArray(PropOf(c, "user"), "email")
    ensures var user := PropOf(c, "user");
      Insert(c, [Name("user"), Name("email"), Append], v)
         == Obj(PropsOf(c)["user" := Obj(PropsOf(user)["email" := Arr(ItemsOf(PropOf(user, "email")) + [v])])])
  {
    var user := PropOf(c, "user");
    assert [Name("user"), Name("email"), Append] == [Name("user")] + [Name("email"), Append];
    assert [Name("email"), Append] == [Name("email")] + [Append];
    NameStep(c, "user", [Name("email"), Append], v);
    NameStep(user, "email", [Append], v);
    AppendStep(PropOf(user, "email"), v);
  }

  /** `add('user[email[]]', 'foo@bar.com')`, `add('user[email[]]', 'foo@baz.com')`,
      then `add('user[age]', 22)` */
  lemma DeepNestedKeys()
    ensures Build([("user[email[]]", Str("foo@bar.com")), ("user[email[]]", Str("foo@baz.com")), ("user[age]", Num(22))])
         == Obj(map["user" := Obj(map["email" := Arr([Str("foo@bar.com"), Str("foo@baz.com")]), "age" := Num(22)])])
  {
    DeepNestedFields(Str("foo@bar.com"), Str("foo@baz.com"), Num(22));
  }

  lemma EmailAppendFirst(e1: Value)
    ensures Build([("user[email[]]", e1)]) == Obj(map["user" := Obj(map["email" := Arr([e1])])])
  {
    calc {
      Build([("user[email[]]", e1)]);
      { BuildOne("user[email[]]", e1); ParseUserEmailAppend(); }
      Insert(EmptyObject, [Name("user"), Name("email"), Append], e1);
      { NotIndex("user"); NotIndex("email"); UserEmailAppend(EmptyObject, e1); assert [] + [e1] == [e1]; }
      Obj(map["user" := Obj(map["email" := Arr([e1])])]);
    }
  }

  lemma EmailAppendSecond(e1: Value, e2: Value)
    ensures Build([("user[email[]]", e1), ("user[email[]]", e2)]) == Obj(map["user" := Obj(map["email" := Arr([e1, e2])])])
  {
    EmailAppendFirst(e1);
    var once := Obj(map["user" := Obj(map["email" := Arr([e1])])]);
    calc {
      Build([("user[email[]]", e1), ("user[email[]]", e2)]);
      { BuildSnoc([("user[email[]]", e1)], "user[email[]]", e2); }
      Insert(once, ParseKey("user[email[]]"), e2);
      { ParseUserEmailAppend(); EmailArrayGrows(e1, e2); }
      Obj(map["user" := Obj(map["email" := Arr([e1, e2])])]);
    }
  }

  lemma EmailArrayGrows(e1: Value, e2: Value)
    ensures Insert(Obj(map["user" := Obj(map["email" := Arr([e1])])]), [Name("user"), Name("email"), Append], e2)
         == Obj(map["user" := Obj(map["email" := Arr([e1, e2])])])
  {
    UserEmailAppendInto(map["email" := Arr([e1])], [e1], e2);
    assert [e1] + [e2] == [e1, e2];
    assert map["email" := Arr([e1])]["email" := Arr([e1, e2])] == map["email" := Arr([e1, e2])];
  }

  lemma DeepNestedFields(e1: Value, e2: Value, a: Value)
    ensures Build([("user[email[]]", e1), ("user[email[]]", e2), ("user[age]", a)])
         == Obj(map["user" := Obj(map["email" := Arr([e1, e2]), "age" := a])])
  {
    var p0, p1 := ("user[email[]]", e1), ("user[email[]]", e2);
    EmailAppendSecond(e1, e2);
    var twice := Obj(map["user" := Obj(map["email" := Arr([e1, e2])])]);
    calc {
      Build([p0, p1, ("user[age]", a)]);
      { BuildSnoc([p0, p1], "user[age]", a); assert [p0, p1] + [("user[age]", a)] == [p0, p1, ("user[age]", a)]; }
      Insert(twice, ParseKey("user[age]"), a);
      { ParseUserFields(); }
      Insert(twice, [Name("user"), Name("age")], a);
      { NotIndex("age"); UserFieldInto(map["email" := Arr([e1, e2])], "age", a); }
      Obj(map["user" := Obj(map["email" := Arr([e1, e2])]["age" := a])]);
      { assert map["email" := Arr([e1, e2])]["age" := a] == map["email" := Arr([e1, e2]), "age" := a]; }
      Obj(map["user" := Obj(map["email" := Arr([e1, e2]), "age" := a])]);
    }
  }

  /** `add('user[0][email]', 'foo@baz.com')`, then `add('user[1][age]', 22)` */
  lemma IndexedKeys()
    ensures Build([("user[0][email]", Str("foo@baz.com")), ("user[1][age]", Num(22))])
         == Obj(map["user" := Arr([Obj(map["email" := Str("foo@baz.com")]), Obj(map["age" := Num(22)])])])
  {
    IndexedFields(Str("foo@baz.com"), Num(22));
  }

  lemma IndexZero(e: Value)
    ensures Insert(Undefined, [Name("0"), Name("email")], e) == Arr([Obj(map["email" := e])])
  {
    assert IsIndex("0") && DigitsValue("0") == 0;
    assert PadTo([], 0) == [Undefined];
    calc {
      Insert(Undefined, [Name("0"), Name("email")], e);
      { assert [Name("0"), Name("email")] == [Name("0")] + [Name("email")]; }
      Insert(Undefined, [Name("0")] + [Name("email")], e);
      { IndexStep(Undefined, "0", [Name("email")], e); }
      Arr([Undefined][0 := Insert(Undefined, [Name("email")], e)]);
      { NotIndex("email"); LeafStep(Undefined, "email", e); }
      Arr([Undefined][0 := Obj(map["email" := e])]);
      { assert [Undefined][0 := Obj(map["email" := e])] == [Obj(map["email" := e])]; }
      Arr([Obj(map["email" := e])]);
    }
  }

  lemma IndexOne(first: Value, a: Value)
    ensures Insert(Arr([first]), [Name("1"), Name("age")], a) == Arr([first, Obj(map["age" := a])])
  {
    assert IsIndex("1") && DigitsValue("1") == 1;
    assert PadTo([first], 1) == [first, Undefined];
    calc {
      Insert(Arr([first]), [Name("1"), Name("age")], a);
      { assert [Name("1"), Name("age")] == [Name("1")] + [Name("age")]; }
      Insert(Arr([first]), [Name("1")] + [Name("age")], a);
      { IndexStep(Arr([first]), "1", [Name("age")], a); }
      Arr([first, Undefined][1 := Insert(Undefined, [Name("age")], a)]);
      { NotIndex("age"); LeafStep(Undefined, "age", a); }
      Arr([first, Undefined][1 := Obj(map["age" := a])]);
      { assert [first, Undefined][1 := Obj(map["age" := a])] == [first, Obj(map["age" := a])]; }
      Arr([first, Obj(map["age" := a])]);
    }
  }

  lemma IndexedFirst(e: Value)
    ensures Build([("user[0][email]", e)]) == Obj(map["user" := Arr([Obj(map["email" := e])])])
  {
    calc {
      Build([("user[0][email]", e)]);
      { BuildOne("user[0][email]", e); ParseUserIndexed(); }
      Insert(EmptyObject, [Name("user")] + [Name("0"), Name("email")], e);
      { NotIndex("user"); NameStep(EmptyObject, "user", [Name("0"), Name("email")], e); }
      Obj(map["user" := Insert(Undefined, [Name("0"), Name("email")], e)]);
      { IndexZero(e); }
      Obj(map["user" := Arr([Obj(map["email" := e])])]);
    }
  }

  lemma IndexedFields(e: Value, a: Value)
    ensures Build([("user[0][email]", e), ("user[1][age]", a)])
         == Obj(map["user" := Arr([Obj(map["email" := e]), Obj(map["age" := a])])])
  {
    IndexedFirst(e);
    var once := Obj(map["user" := Arr([Obj(map["email" := e])])]);
    calc {
      Build([("user[0][email]", e), ("user[1][age]", a)]);
      { BuildSnoc([("user[0][email]", e)], "user[1][age]", a); }
      Insert(once, ParseKey("user[1][age]"), a);
      { ParseUserIndexed(); IndexedSecond(Obj(map["email" := e]), a); }
      Obj(map["user" := Arr([Obj(map["email" := e]), Obj(map["age" := a])])]);
    }
  }

  lemma IndexedSecond(first: Value, a: Value)
    ensures Insert(Obj(map["user" := Arr([first])]), [Name("user"), Name("1"), Name("age")], a)
         == Obj(map["user" := Arr([first, Obj(map["age" := a])])])
  {
    var once := Obj(map["user" := Arr([first])]);
    calc {
      Insert(once, [Name("user"), Name("1"), Name("age")], a);
      { assert [Name("user"), Name("1"), Name("age")] == [Name("user")] + [Name("1"), Name("age")]; }
      Insert(once, [Name("user")] + [Name("1"), Name("age")], a);
      { NotIndex("user"); NameStep(once, "user", [Name("1"), Name("age")], a); }
      Obj(map["user" := Insert(Arr([first]), [Name("1"), Name("age")], a)]);
      { IndexOne(first, a); }
      Obj(map["user" := Arr([first, Obj(map["age" := a])])]);
    }
  }
}
