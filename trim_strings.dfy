/**
 * The TrimStrings middleware: replaces every value of a non-empty request
 * body by the value with leading and trailing white space removed, as
 * ECMAScript's `String.prototype.trim` does.
 */
module TrimStrings {
  import opened Js
  import opened Http

  /** ECMAScript WhiteSpace and LineTerminator code points, the characters
      `trim` removes. */
  predicate IsWhiteSpace(c: char) {
    c in WhiteSpace
  }
  const WhiteSpace: set<char> := {
    '\U{0009}', '\U{000B}', '\U{000C}', '\U{0020}', '\U{00A0}', '\U{FEFF}',
    '\U{000A}', '\U{000D}', '\U{2028}', '\U{2029}',
    '\U{1680}', '\U{2000}', '\U{2001}', '\U{2002}', '\U{2003}', '\U{2004}', '\U{2005}',
    '\U{2006}', '\U{2007}', '\U{2008}', '\U{2009}', '\U{200A}', '\U{202F}', '\U{205F}', '\U{3000}'
  }

  predicate AllWhite(s: string) {
    forall i | 0 <= i < |s| :: IsWhiteSpace(s[i])
  }

  /** Neither begins nor ends with white space. */
  predicate Trimmed(s: string) {
    |s| == 0 || (!IsWhiteSpace(s[0]) && !IsWhiteSpace(s[|s| - 1]))
  }

  /** `r` is `s` with some white space, and nothing else, cut from each end. */
  ghost predicate Unpadded(s: string, r: string) {
    exists i | 0 <= i <= |s| - |r| :: s[i..i + |r|] == r && AllWhite(s[..i]) && AllWhite(s[i + |r|..])
  }

  function TrimStart(s: string): (r: string)
    ensures |r| <= |s| && r == s[|s| - |r|..] && AllWhite(s[..|s| - |r|])
    ensures |r| > 0 ==> !IsWhiteSpace(r[0])
    decreases |s|
  {
    if |s| > 0 && IsWhiteSpace(s[0]) then TrimStart(s[1..]) else s
  }

  function TrimEnd(s: string): (r: string)
    ensures |r| <= |s| && r == s[..|r|] && AllWhite(s[|r|..])
    ensures |r| > 0 ==> !IsWhiteSpace(r[|r| - 1])
    decreases |s|
  {
    if |s| > 0 && IsWhiteSpace(s[|s| - 1]) then TrimEnd(s[..|s| - 1]) else s
  }

  /** `s.trim()` */
  function Trim(s: string): (r: string)
    ensures Trimmed(r)
    ensures Unpadded(s, r)
  {
    var start := TrimStart(s);
    var r := TrimEnd(start);
    var i := |s| - |start|;
    assert s[i..i + |r|] == r && s[..i] == s[..|s| - |start|];
    assert s[i + |r|..] == start[|r|..];
    r
  }

  /** Cutting white space off a string that has an unpadded middle `r`
      gives `r`: what `trim` returns is determined by the two properties of
      its contract. */
  lemma {:induction false} TrimUnique(a: string, r: string, b: string)
    requires AllWhite(a) && AllWhite(b) && Trimmed(r)
    ensures Trim(a + r + b) == r
  {
    var rb := r + b;
    assert a + r + b == a + rb;
    StartSkipsWhite(a, rb);
    if |r| == 0 {
      assert rb == b + "";
      StartSkipsWhite(b, "");
    } else {
      assert rb[0] == r[0];
    }
    assert TrimStart(a + r + b) == if |r| == 0 then "" else rb;
    EndSkipsWhite(r, b);
  }

  lemma {:induction false} StartSkipsWhite(a: string, rest: string)
    requires AllWhite(a)
    ensures TrimStart(a + rest) == TrimStart(rest)
    decreases |a|
  {
    if |a| > 0 {
      assert (a + rest)[1..] == a[1..] + rest;
      StartSkipsWhite(a[1..], rest);
    } else {
      assert a + rest == rest;
    }
  }

  lemma {:induction false} EndSkipsWhite(r: string, b: string)
    requires AllWhite(b) && Trimmed(r)
    ensures TrimEnd(r + b) == r
    decreases |b|
  {
    if |b| > 0 {
      assert (r + b)[..|r + b| - 1] == r + b[..|b| - 1];
      EndSkipsWhite(r, b[..|b| - 1]);
    } else {
      assert r + b == r;
    }
  }

  /** Trimming twice is trimming once. */
  lemma TrimIdempotent(s: string)
    ensures Trim(Trim(s)) == Trim(s)
  {
    TrimUnique("", Trim(s), "");
    assert "" + Trim(s) + "" == Trim(s);
  }

  /** `'   bar      '.trim()` is `'bar'`. */
  lemma TrimPaddedBar()
    ensures Trim("   bar      ") == "bar"
  {
    TrimUnique("   ", "bar", "      ");
    assert "   " + "bar" + "      " == "   bar      ";
  }

  /** What `.trim()` on a value that is not a string throws. */
  const NotAString := HttpError("TypeError", "trim is not a function", None, None)

  /** Every value of the body is a string. */
  predicate AllStrings(body: map<string, Value>) {
    forall k | k in body :: body[k].Str?
  }

  /** The new body: every value trimmed, or the TypeError when a value is
      not a string. */
  function TrimAll(body: map<string, Value>): (r: Result<map<string, Value>, HttpError>)
    ensures r.Failure? <==> !AllStrings(body)
    ensures r.Failure? ==> r.error == NotAString
    ensures r.Success? ==> r.value.Keys == body.Keys
    ensures r.Success? ==> forall k | k in body ::
      r.value[k].Str? && Trimmed(r.value[k].s) && Unpadded(body[k].s, r.value[k].s)
  {
    if AllStrings(body) then Success(map k | k in body :: Str(Trim(body[k].s)))
    else Failure(NotAString)
  }

  /** Trimming a body twice is trimming it once. */
  lemma TrimAllIdempotent(body: map<string, Value>)
    requires TrimAll(body).Success?
    ensures TrimAll(TrimAll(body).value) == TrimAll(body)
  {
    var once := TrimAll(body).value;
    forall k | k in once
      ensures once[k] == Str(Trim(once[k].s))
    {
      TrimIdempotent(body[k].s);
    }
    assert AllStrings(once);
    var twice := map k | k in once :: Str(Trim(once[k].s));
    SameEntries(twice, once);
  }

  lemma SameEntries(m1: map<string, Value>, m2: map<string, Value>)
    requires m1.Keys == m2.Keys && forall k | k in m1 :: m1[k] == m2[k]
    ensures m1 == m2
  {
  }

  class TrimStrings {
    constructor ()
    {
    }

    /** `handle`: an empty body is left alone; otherwise every value is
        trimmed, or the TypeError escapes and the body is left as it was. */
    method Handle(request: Request) returns (outcome: Outcome)
      modifies request`body
      ensures |old(request.body)| == 0 ==> outcome == Next && request.body == old(request.body)
      ensures |old(request.body)| > 0 ==> match TrimAll(old(request.body))
        case Success(trimmed) => outcome == Next && request.body == trimmed
        case Failure(e) => outcome == Thrown(e) && request.body == old(request.body)
    {
      if |request.body| == 0 {
        return Next;
      }
      var trimmed := TrimAll(request.body);
      if trimmed.Failure? {
        return Thrown(trimmed.error);
      }
      request.body := trimmed.value;
      outcome := Next;
    }
  }
}
