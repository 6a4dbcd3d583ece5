/**
 * JavaScript values as the routers see them (parsed JSON bodies, upstream
 * envelopes, query parameters), with the handful of JavaScript operators the
 * routers apply to them: truthiness, `||`, `??`, property reads, object
 * spread, `String(x)`, `Number(x)`, `trim()` and `toLowerCase()`.
 *
 * Numbers are integers: floating point (fractions, NaN as a stored value,
 * Infinity) is not modelled.
 */
module Js {

  datatype Value =
    | Undefined
    | Null
    | Bool(b: bool)
    | Num(n: int)
    | Str(s: string)
    | Arr(elems: seq<Value>)
    | Obj(fields: map<string, Value>)

  datatype Option<T> = None | Some(value: T)

  /** JavaScript truthiness: undefined, null, false, 0 and "" are falsy. */
  predicate Truthy(v: Value)
  {
    match v
    case Undefined => false
    case Null => false
    case Bool(b) => b
    case Num(n) => n != 0
    case Str(s) => s != ""
    case Arr(_) => true
    case Obj(_) => true
  }

  /** The values `??` and `?.` treat as missing. */
  predicate Nullish(v: Value)
  {
    v.Undefined? || v.Null?
  }

  /**
   * `v?.key`: a property read that yields undefined for a missing key and
   * for anything that is not an object (a primitive has none of the
   * properties the routers read). A plain `v.key` on a nullish `v` throws;
   * callers that model such a read test `Nullish` first.
   */
  function Get(v: Value, key: string): (r: Value)
    ensures v.Obj? && key in v.fields ==> r == v.fields[key]
    ensures !(v.Obj? && key in v.fields) ==> r == Undefined
  {
    if v.Obj? && key in v.fields then v.fields[key] else Undefined
  }

  /** `a || b` */
  function Or(a: Value, b: Value): (r: Value)
    ensures Truthy(a) ==> r == a
    ensures !Truthy(a) ==> r == b
  {
    if Truthy(a) then a else b
  }

  /** `a ?? b` */
  function Coalesce(a: Value, b: Value): (r: Value)
    ensures !Nullish(a) ==> r == a
    ensures Nullish(a) ==> r == b
  {
    if Nullish(a) then b else a
  }

  /**
   * The own enumerable properties `{...v}` copies. Spreading a string or an
   * array copies index-keyed properties; the model copies nothing for them
   * (list items of the upstream API are objects).
   */
  function Spread(v: Value): map<string, Value>
  {
    if v.Obj? then v.fields else map[]
  }

  // ---------------------------------------------------------------------
  // Whitespace and trimming

  /** The characters of ECMAScript WhiteSpace and LineTerminator, which is
      both what `trim()` removes and what `\s` matches in a regular expression. */
  predicate IsSpace(c: char)
  {
    c == '\t' || c == '\n' || c == '\U{000B}' || c == '\U{000C}' || c == '\r' ||
    c == ' ' || c == '\U{00A0}' || c == '\U{1680}' ||
    ('\U{2000}' <= c <= '\U{200A}') ||
    c == '\U{2028}' || c == '\U{2029}' || c == '\U{202F}' || c == '\U{205F}' ||
    c == '\U{3000}' || c == '\U{FEFF}'
  }

  predicate AllSpace(s: string)
  {
    forall i :: 0 <= i < |s| ==> IsSpace(s[i])
  }

  function TrimStart(s: string): string
  {
    if s != [] && IsSpace(s[0]) then TrimStart(s[1..]) else s
  }

  /** `TrimStart` drops a whitespace prefix and stops at the first
      non-whitespace character. */
  lemma {:induction false} TrimStartSlice(s: string)
    ensures var r := TrimStart(s);
      && |r| <= |s| && r == s[|s| - |r|..]
      && AllSpace(s[..|s| - |r|])
      && (r != [] ==> !IsSpace(r[0]))
  {
    if s != [] && IsSpace(s[0]) {
      var tail := s[1..];
      TrimStartSlice(tail);
      var r := TrimStart(tail);
      assert r == s[|s| - |r|..];
      forall i | 0 <= i < |s| - |r|
        ensures IsSpace(s[i])
      {
        if i > 0 {
          assert s[i] == tail[..|tail| - |r|][i - 1];
        }
      }
    }
  }

  function TrimEnd(s: string): string
  {
    if s != [] && IsSpace(s[|s| - 1]) then TrimEnd(s[..|s| - 1]) else s
  }

  /** `TrimEnd` drops a whitespace suffix and stops at the last
      non-whitespace character. */
  lemma {:induction false} TrimEndSlice(s: string)
    ensures var r := TrimEnd(s);
      && |r| <= |s| && r == s[..|r|]
      && AllSpace(s[|r|..])
      && (r != [] ==> !IsSpace(r[|r| - 1]))
  {
    if s != [] && IsSpace(s[|s| - 1]) {
      var init := s[..|s| - 1];
      TrimEndSlice(init);
      var r := TrimEnd(init);
      assert r == s[..|r|];
      forall i | |r| <= i < |s|
        ensures IsSpace(s[i])
      {
        if i < |s| - 1 {
          assert s[i] == init[|r|..][i - |r|];
        }
      }
    }
  }

  /** `s.trim()`: a contiguous slice of `s` obtained by dropping whitespace
      only, which neither starts nor ends with whitespace. */
  function Trim(s: string): string
  {
    TrimEnd(TrimStart(s))
  }

  /** `trim()` keeps a contiguous slice of `s`, dropping whitespace only, and
      what it keeps neither starts nor ends with whitespace. */
  lemma TrimSlice(s: string)
    ensures var r := Trim(s);
      && (exists i :: 0 <= i <= |s| - |r| && r == s[i..i + |r|]
            && AllSpace(s[..i]) && AllSpace(s[i + |r|..]))
      && (r != [] ==> !IsSpace(r[0]) && !IsSpace(r[|r| - 1]))
  {
    var t := TrimStart(s);
    var r := TrimEnd(t);
    TrimStartSlice(s);
    TrimEndSlice(t);
    var i := |s| - |t|;
    assert r == s[i..i + |r|];
    assert s[i + |r|..] == t[|r|..];
  }

  /** A string that is empty after `trim()` is all whitespace. */
  predicate Blank(s: string)
  {
    Trim(s) == ""
  }

  lemma {:induction false} TrimStartOfTrimmed(s: string)
    requires s == [] || !IsSpace(s[0])
    ensures TrimStart(s) == s
  {
  }

  lemma {:induction false} TrimEndOfTrimmed(s: string)
    requires s == [] || !IsSpace(s[|s| - 1])
    ensures TrimEnd(s) == s
  {
  }

  /** A string that neither starts nor ends with whitespace trims to itself. */
  lemma TrimUnpadded(s: string)
    requires s != [] ==> !IsSpace(s[0]) && !IsSpace(s[|s| - 1])
    ensures Trim(s) == s
  {
    assert TrimStart(s) == s;
    assert TrimEnd(s) == s;
  }

  /** Trimming twice is trimming once. */
  lemma TrimIdempotent(s: string)
    ensures Trim(Trim(s)) == Trim(s)
  {
    var r := Trim(s);
    TrimSlice(s);
    TrimStartOfTrimmed(r);
    TrimEndOfTrimmed(r);
  }

  // ---------------------------------------------------------------------
  // Case

  /** `toLowerCase()` on the Basic Latin letters A-Z. */
  function LowerChar(c: char): char
  {
    if 'A' <= c <= 'Z' then (c as int + 32) as char else c
  }

  function ToLower(s: string): (r: string)
    ensures |r| == |s|
    ensures forall i :: 0 <= i < |s| ==> r[i] == LowerChar(s[i])
  {
    if s == [] then [] else [LowerChar(s[0])] + ToLower(s[1..])
  }

  /** Lower-casing a lower-cased string changes nothing, and lower-casing
      neither adds nor removes whitespace, so it commutes with `trim()`. */
  lemma LowerIdempotent(s: string)
    ensures ToLower(ToLower(s)) == ToLower(s)
  {
  }

  lemma LowerKeepsSpace(c: char)
    ensures IsSpace(LowerChar(c)) == IsSpace(c)
    ensures IsSpace(c) ==> LowerChar(c) == c
  {
  }

  lemma {:induction false} TrimStartLower(s: string)
    ensures TrimStart(ToLower(s)) == ToLower(TrimStart(s))
  {
    if s != [] {
      LowerKeepsSpace(s[0]);
      assert ToLower(s)[1..] == ToLower(s[1..]);
      TrimStartLower(s[1..]);
    }
  }

  lemma {:induction false} TrimEndLower(s: string)
    ensures TrimEnd(ToLower(s)) == ToLower(TrimEnd(s))
  {
    if s != [] {
      LowerKeepsSpace(s[|s| - 1]);
      assert ToLower(s)[..|s| - 1] == ToLower(s[..|s| - 1]);
      TrimEndLower(s[..|s| - 1]);
    }
  }

  lemma TrimLower(s: string)
    ensures Trim(ToLower(s)) == ToLower(Trim(s))
  {
    TrimStartLower(s);
    TrimEndLower(TrimStart(s));
  }

  // ---------------------------------------------------------------------
  // Decimal numerals

  predicate IsDigit(c: char)
  {
    '0' <= c <= '9'
  }

  predicate AllDigits(s: string)
  {
    forall i :: 0 <= i < |s| ==> IsDigit(s[i])
  }

  function DigitChar(d: nat): (c: char)
    requires d < 10
    ensures IsDigit(c) && c as int - '0' as int == d
  {
    ('0' as int + d) as char
  }

  /** The decimal numeral of `n`, as `String(n)` writes it. */
  function NatToString(n: nat): (s: string)
    ensures |s| >= 1 && AllDigits(s)
    ensures n >= 10 ==> s[0] != '0'
  {
    if n < 10 then [DigitChar(n)] else NatToString(n / 10) + [DigitChar(n % 10)]
  }

  /** The value of a string of decimal digits (what `parseInt(s, 10)` gives
      for such a string, leading zeros included). */
  function DigitsValue(s: string): nat
    requires AllDigits(s)
  {
    if s == [] then 0 else DigitsValue(s[..|s| - 1]) * 10 + (s[|s| - 1] as int - '0' as int)
  }

  /** Reading back a written numeral gives the number. */
  lemma {:induction false} NatToStringRoundTrip(n: nat)
    ensures DigitsValue(NatToString(n)) == n
  {
    if n >= 10 {
      var s := NatToString(n);
      assert s[..|s| - 1] == NatToString(n / 10);
      NatToStringRoundTrip(n / 10);
    }
  }

  /** The numeral of `n` has `k` digits exactly when `n` does. */
  lemma {:induction false} NatToStringLength(n: nat, k: nat)
    requires k >= 1
    requires (k == 1 ==> n < 10) && (k > 1 ==> Pow10(k - 1) <= n < Pow10(k))
    ensures |NatToString(n)| == k
  {
    if k > 1 {
      if k == 2 {
        assert 1 <= n / 10 < 10;
      } else {
        assert Pow10(k - 2) <= n / 10 < Pow10(k - 1);
      }
      NatToStringLength(n / 10, k - 1);
    }
  }

  function Pow10(k: nat): (p: nat)
    ensures p >= 1
  {
    if k == 0 then 1 else 10 * Pow10(k - 1)
  }

  /** `String(n)` for an integer. */
  function IntToString(i: int): string
  {
    if i < 0 then "-" + NatToString(-i) else NatToString(i)
  }

  /** The names every plain object literal inherits from `Object.prototype`:
      reading one of them from an object that has no own entry under it
      gives a function or an object, never `undefined`. */
  const ObjectPrototypeMembers: set<string> := {
    "constructor", "hasOwnProperty", "isPrototypeOf", "propertyIsEnumerable",
    "toLocaleString", "toString", "valueOf", "__proto__",
    "__defineGetter__", "__defineSetter__", "__lookupGetter__", "__lookupSetter__"}

  // ---------------------------------------------------------------------
  // String(x) and Number(x)

  /** `arr.join(',')` over the first `k` elements of the array `v`, where a
      nullish element contributes the empty string. */
  function JoinPrefix(v: Value, k: nat): string
    requires v.Arr? && k <= |v.elems|
    decreases v, 0, k
  {
    if k == 0 then ""
    else
      var last := v.elems[k - 1];
      var part := if Nullish(last) then "" else ToJsString(last);
      if k == 1 then part else JoinPrefix(v, k - 1) + "," + part
  }

  /** `String(v)`. */
  function ToJsString(v: Value): string
    decreases v, 1, 0
  {
    match v
    case Undefined => "undefined"
    case Null => "null"
    case Bool(b) => if b then "true" else "false"
    case Num(n) => IntToString(n)
    case Str(s) => s
    case Arr(a) => JoinPrefix(v, |a|)
    case Obj(_) => "[object Object]"
  }

  /**
   * `Number(s)` for a string, on integer numerals only: surrounding
   * whitespace is ignored, an empty or blank string is 0, an optional sign
   * may precede the digits; anything else is NaN (`None`).
   */
  function StringToNumber(s: string): Option<int>
  {
    var t := Trim(s);
    if t == [] then Some(0)
    else if (t[0] == '-' || t[0] == '+') && |t| > 1 && AllDigits(t[1..]) then
      var n: int := DigitsValue(t[1..]);
      Some(if t[0] == '-' then -n else n)
    else if AllDigits(t) then Some(DigitsValue(t))
    else None
  }

  /** `Number(v)`, with `None` for NaN. */
  function ToNumber(v: Value): (r: Option<int>)
    ensures v.Num? ==> r == Some(v.n)
    ensures v.Undefined? ==> r == None
    ensures v.Null? ==> r == Some(0)
  {
    match v
    case Undefined => None
    case Null => Some(0)
    case Bool(b) => Some(if b then 1 else 0)
    case Num(n) => Some(n)
    case Str(s) => StringToNumber(s)
    case _ => StringToNumber(ToJsString(v))
  }

  /** `Number(String(i))` is `i`. */
  lemma NumeralNumber(i: int)
    ensures ToNumber(Str(IntToString(i))) == Some(i)
  {
    var n := if i < 0 then -i else i;
    var digits := NatToString(n);
    NatToStringRoundTrip(n);
    var numeral := IntToString(i);
    assert numeral[|numeral| - 1] == digits[|digits| - 1];
    TrimUnpadded(numeral);
    if i < 0 {
      assert numeral[1..] == digits;
    }
  }

  /** A blank string trims to the empty string. */
  lemma {:induction false} TrimStartBlank(s: string)
    requires AllSpace(s)
    ensures TrimStart(s) == []
  {
    if s != [] {
      TrimStartBlank(s[1..]);
    }
  }

  /** `Number` of an empty or blank string is 0. */
  lemma BlankNumber(s: string)
    requires AllSpace(s)
    ensures ToNumber(Str(s)) == Some(0)
  {
    TrimStartBlank(s);
  }

  /** `trim()` keeps every non-whitespace character, at position `m` of the
      trimmed string. */
  lemma TrimKeeps(s: string, k: nat) returns (m: nat)
    requires k < |s| && !IsSpace(s[k])
    ensures m < |Trim(s)| && Trim(s)[m] == s[k]
  {
    var u := TrimStart(s);
    TrimStartSlice(s);
    var p := |s| - |u|;
    assert !IsSpace(s[k]);
    assert k >= p;
    var v := TrimEnd(u);
    TrimEndSlice(u);
    assert u[k - p] == s[k];
    assert k - p < |v|;
    m := k - p;
  }

  /** `Number` of a string holding a character that is neither whitespace,
      a digit nor a sign is NaN. */
  lemma NonNumeralNumber(s: string, k: nat)
    requires k < |s| && !IsSpace(s[k]) && !IsDigit(s[k]) && s[k] != '-' && s[k] != '+'
    ensures ToNumber(Str(s)).None?
  {
    var t := Trim(s);
    var m := TrimKeeps(s, k);
    if m > 0 {
      assert t[1..][m - 1] == t[m];
    }
  }

  /** `Number.isFinite(Number(v))`. */
  predicate IsFiniteNumber(v: Value)
  {
    ToNumber(v).Some?
  }
}
