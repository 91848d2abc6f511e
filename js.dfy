/** JavaScript value semantics that the dashboard page and the query gateway rely on:
    the values a parsed JSON body can hold, truthiness, thrown values,
    String.prototype.trim and the decimal rendering of a number inside a template string. */
module Js {
  import opened Options

  /** A value read out of a parsed JSON body. `Undefined` is a missing property;
      `Composite` stands for any object or array, which JavaScript always treats as truthy.
      JSON cannot carry NaN, so a `Number` is an ordinary real. */
  datatype JsValue = Undefined | Null | Bool(b: bool) | Number(n: real) | Str(s: string) | Composite

  /** JavaScript's ToBoolean: what `if (v)` and `!v` test. */
  predicate Truthy(v: JsValue) {
    match v
    case Undefined => false
    case Null => false
    case Bool(b) => b
    case Number(n) => n != 0.0
    case Str(s) => s != ""
    case Composite => true
  }

  /** `Some(s)` as the string `s`, `None` as `null`: how `x || null` serialises. */
  function OrNull(v: Option<string>): JsValue {
    match v
    case Some(s) => Str(s)
    case None => Null
  }

  /** A thrown value, as seen by `err instanceof Error ? err.message : fallback`. */
  datatype Thrown = ErrorObject(message: string) | NonError

  function MessageOr(e: Thrown, fallback: string): string {
    match e
    case ErrorObject(m) => m
    case NonError => fallback
  }

  /** WhiteSpace and LineTerminator code points of ECMAScript (section 12.2 and 12.3 of
      ECMA-262), the set String.prototype.trim strips. */
  predicate IsWhitespace(c: char) {
    c == '\t' || c == '\n' || c == '\U{000B}' || c == '\U{000C}' || c == '\r' || c == ' '
    || c == '\U{00A0}' || c == '\U{1680}' || ('\U{2000}' <= c <= '\U{200A}')
    || c == '\U{2028}' || c == '\U{2029}' || c == '\U{202F}' || c == '\U{205F}'
    || c == '\U{3000}' || c == '\U{FEFF}'
  }

  predicate AllWhitespace(s: string) {
    forall k :: 0 <= k < |s| ==> IsWhitespace(s[k])
  }

  lemma WhitespaceConcat(a: string, b: string)
    ensures AllWhitespace(a + b) <==> AllWhitespace(a) && AllWhitespace(b)
  {
    if AllWhitespace(a) && AllWhitespace(b) {
      forall k | 0 <= k < |a + b|
        ensures IsWhitespace((a + b)[k])
      {
        if k >= |a| {
          assert (a + b)[k] == b[k - |a|];
        }
      }
    }
    if AllWhitespace(a + b) {
      forall k | 0 <= k < |a|
        ensures IsWhitespace(a[k])
      {
        assert (a + b)[k] == a[k];
      }
      forall k | 0 <= k < |b|
        ensures IsWhitespace(b[k])
      {
        assert (a + b)[|a| + k] == b[k];
      }
    }
  }

  /** The suffix of `s` left after dropping its leading whitespace. */
  function TrimStart(s: string): (r: string)
    ensures |r| <= |s| && r == s[|s| - |r|..]
    ensures AllWhitespace(s[..|s| - |r|])
    ensures r != [] ==> !IsWhitespace(r[0])
  {
    if s != [] && IsWhitespace(s[0]) then
      var r := TrimStart(s[1..]);
      assert s[1..][..|s| - 1 - |r|] == s[1..|s| - |r|];
      r
    else s
  }

  /** The prefix of `s` left after dropping its trailing whitespace. */
  function TrimEnd(s: string): (r: string)
    ensures |r| <= |s| && r == s[..|r|]
    ensures AllWhitespace(s[|r|..])
    ensures r != [] ==> !IsWhitespace(r[|r| - 1])
  {
    if s != [] && IsWhitespace(s[|s| - 1]) then
      var r := TrimEnd(s[..|s| - 1]);
      assert s[..|s| - 1][|r|..] == s[|r|..|s| - 1];
      assert s[|r|..] == s[|r|..|s| - 1] + [s[|s| - 1]];
      WhitespaceConcat(s[|r|..|s| - 1], [s[|s| - 1]]);
      r
    else s
  }

  /** String.prototype.trim: `s` without its leading and trailing whitespace. The result
      is empty exactly when `s` is all whitespace, and otherwise starts and ends with a
      non-whitespace character. */
  function Trim(s: string): (r: string)
    ensures r == [] <==> AllWhitespace(s)
    ensures r != [] ==> !IsWhitespace(r[0]) && !IsWhitespace(r[|r| - 1])
  {
    var t := TrimStart(s);
    TrimEmptyIff(s, t);
    TrimEnd(t)
  }

  /** `Trim` only removes: its result is a slice of `s` with nothing but whitespace before
      and after it. */
  lemma TrimKeepsMiddle(s: string)
    ensures var r := Trim(s);
            exists i :: 0 <= i && i + |r| <= |s| && r == s[i..i + |r|]
                        && AllWhitespace(s[..i]) && AllWhitespace(s[i + |r|..])
  {
    var t := TrimStart(s);
    TrimIsSlice(s, t, Trim(s), |s| - |t|);
  }

  /** A slice of `s` from `i` with only whitespace on both sides of it, given what
      `TrimStart` and `TrimEnd` leave. */
  lemma TrimIsSlice(s: string, t: string, r: string, i: nat)
    requires i <= |s| && t == s[i..] && AllWhitespace(s[..i])
    requires |r| <= |t| && r == t[..|r|] && AllWhitespace(t[|r|..])
    ensures exists j :: 0 <= j && j + |r| <= |s| && r == s[j..j + |r|]
                        && AllWhitespace(s[..j]) && AllWhitespace(s[j + |r|..])
  {
    assert s[i + |r|..] == t[|r|..];
    assert r == s[i..i + |r|];
  }

  lemma TrimEmptyIff(s: string, t: string)
    requires t == TrimStart(s)
    ensures TrimEnd(t) == [] <==> AllWhitespace(s)
  {
    var lead := |s| - |t|;
    if TrimEnd(t) == [] {
      assert t == [] by {
        assert AllWhitespace(t[0..]);
      }
      forall k | 0 <= k < |s| ensures IsWhitespace(s[k]) {
        assert s[..lead][k] == s[k];
      }
    } else if t != [] {
      assert t[0] == s[lead];
    }
  }

  /** Trimming twice trims nothing more. */
  lemma TrimIdempotent(s: string)
    ensures Trim(Trim(s)) == Trim(s)
  {
  }

  /** The character of a decimal digit. */
  function Digit(d: nat): (c: char)
    requires d < 10
  {
    ('0' as int + d) as char
  }

  predicate IsDigit(c: char) {
    '0' <= c <= '9'
  }

  /** The decimal numeral of `n`, as `${n}` writes a non-negative integer. */
  function Decimal(n: nat): (r: string)
    ensures r != [] && forall k :: 0 <= k < |r| ==> IsDigit(r[k])
    ensures |r| > 1 ==> r[0] != '0'
  {
    if n < 10 then [Digit(n)] else Decimal(n / 10) + [Digit(n % 10)]
  }

  /** The value of a numeral: the left inverse of `Decimal`. */
  function DecimalValue(s: string): nat
    requires forall k :: 0 <= k < |s| ==> IsDigit(s[k])
  {
    if s == [] then 0
    else
      assert IsDigit(s[|s| - 1]);
      DecimalValue(s[..|s| - 1]) * 10 + (s[|s| - 1] as int - '0' as int)
  }

  /** `Decimal` loses nothing: reading the numeral back gives the number. */
  lemma {:induction false} DecimalRoundTrip(n: nat)
    ensures DecimalValue(Decimal(n)) == n
  {
    var r := Decimal(n);
    if n >= 10 {
      DecimalRoundTrip(n / 10);
      assert r[..|r| - 1] == Decimal(n / 10);
    }
  }

  /** Distinct numbers have distinct numerals. */
  lemma DecimalInjective(m: nat, n: nat)
    requires Decimal(m) == Decimal(n)
    ensures m == n
  {
    DecimalRoundTrip(m);
    DecimalRoundTrip(n);
  }
}
