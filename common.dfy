/** Small value-level helpers shared by every module of the model: optional
    values, results, the numeric clamp the source writes as
    `Math.max(lo, Math.min(hi, x))`, and the few JavaScript string and number
    operations the source relies on (`includes`, `toLowerCase` on ASCII,
    `replace` with a string pattern, `%` on integers, decimal rendering). */
module Common {

  datatype Option<+T> = None | Some(value: T) {
    function GetOr(default: T): T {
      match this
      case Some(v) => v
      case None => default
    }
  }

  datatype Result<+T, +E> = Ok(value: T) | Err(error: E)

  /** `Math.max(lo, Math.min(hi, x))` on integers. */
  function Clamp(x: int, lo: int, hi: int): (r: int)
    requires lo <= hi
    ensures lo <= r <= hi
    ensures lo <= x <= hi ==> r == x
    ensures x < lo ==> r == lo
    ensures hi < x ==> r == hi
  {
    if x < lo then lo else if hi < x then hi else x
  }

  /** `Math.max(lo, Math.min(hi, x))` on exact reals. */
  function ClampReal(x: real, lo: real, hi: real): (r: real)
    requires lo <= hi
    ensures lo <= r <= hi
    ensures lo <= x <= hi ==> r == x
    ensures x < lo ==> r == lo
    ensures hi < x ==> r == hi
  {
    if x < lo then lo else if hi < x then hi else x
  }

  /** JavaScript's truthiness of a string: only the empty string is falsy. */
  predicate Truthy(s: string) {
    s != ""
  }

  /** `a || b` on strings (the second operand when the first is empty). */
  function OrElse(a: string, b: string): (r: string)
    ensures Truthy(a) ==> r == a
    ensures !Truthy(a) ==> r == b
  {
    if a != "" then a else b
  }

  /** The property names every plain JavaScript object inherits from
      `Object.prototype` (with the legacy accessor helpers). `key in obj` holds
      for them, and `obj[key]` yields a function (an object for `__proto__`)
      instead of undefined. */
  const ObjectPrototypeNames: set<string> := {
    "constructor", "__proto__", "__defineGetter__", "__defineSetter__",
    "__lookupGetter__", "__lookupSetter__", "hasOwnProperty", "isPrototypeOf",
    "propertyIsEnumerable", "toLocaleString", "toString", "valueOf"}

  /** `key` names an inherited member of a plain object. */
  predicate Inherited(key: string) {
    key in ObjectPrototypeNames
  }

  // ---------------------------------------------------------------------
  // Substring search: String.prototype.includes

  predicate IsPrefix(p: string, s: string) {
    |p| <= |s| && s[..|p|] == p
  }

  /** `s.includes(k)`: k occurs somewhere in s (the empty string always does). */
  predicate Contains(s: string, k: string)
    decreases |s|
  {
    IsPrefix(k, s) || (|s| > 0 && Contains(s[1..], k))
  }

  /** k occurs in s starting at position i. */
  predicate OccursAt(s: string, k: string, i: int) {
    0 <= i && i + |k| <= |s| && s[i..i + |k|] == k
  }

  /** The recursive search agrees with the positional definition of an occurrence. */
  lemma {:induction false} ContainsIffOccurs(s: string, k: string)
    ensures Contains(s, k) <==> exists i :: OccursAt(s, k, i)
    decreases |s|
  {
    if IsPrefix(k, s) {
      assert OccursAt(s, k, 0);
    } else if |s| == 0 {
    } else {
      ContainsIffOccurs(s[1..], k);
      if Contains(s[1..], k) {
        var i :| OccursAt(s[1..], k, i);
        assert s[i + 1..i + 1 + |k|] == s[1..][i..i + |k|];
        assert OccursAt(s, k, i + 1);
      }
      if exists i :: OccursAt(s, k, i) {
        var i :| OccursAt(s, k, i);
        assert s[1..][i - 1..i - 1 + |k|] == s[i..i + |k|];
        assert OccursAt(s[1..], k, i - 1);
      }
    }
  }

  /** An occurrence in either part is an occurrence in the whole. */
  lemma ContainsInLeft(a: string, b: string, k: string)
    requires Contains(a, k)
    ensures Contains(a + b, k)
  {
    ContainsIffOccurs(a, k);
    var i :| OccursAt(a, k, i);
    assert (a + b)[i..i + |k|] == a[i..i + |k|];
    assert OccursAt(a + b, k, i);
    ContainsIffOccurs(a + b, k);
  }

  lemma ContainsInRight(a: string, b: string, k: string)
    requires Contains(b, k)
    ensures Contains(a + b, k)
  {
    ContainsIffOccurs(b, k);
    var i :| OccursAt(b, k, i);
    assert (a + b)[|a| + i..|a| + i + |k|] == b[i..i + |k|];
    assert OccursAt(a + b, k, |a| + i);
    ContainsIffOccurs(a + b, k);
  }

  // ---------------------------------------------------------------------
  // Case folding: String.prototype.toLowerCase, restricted to ASCII letters

  function LowerChar(c: char): (r: char)
    ensures 'A' <= c <= 'Z' ==> 'a' <= r <= 'z'
    ensures !('A' <= c <= 'Z') ==> r == c
  {
    if 'A' <= c <= 'Z' then (c as int - 'A' as int + 'a' as int) as char else c
  }

  function ToLower(s: string): (r: string)
    ensures |r| == |s|
    ensures forall i :: 0 <= i < |s| ==> r[i] == LowerChar(s[i])
  {
    seq(|s|, i requires 0 <= i < |s| => LowerChar(s[i]))
  }

  /** Lower-casing works piece by piece. */
  lemma LowerConcat(a: string, b: string)
    ensures ToLower(a + b) == ToLower(a) + ToLower(b)
  {
  }

  // ---------------------------------------------------------------------
  // String.prototype.replace with a string pattern: only the FIRST occurrence

  /** Index of the first occurrence of p in s, if any. */
  function FirstIndex(s: string, p: string): (r: Option<nat>)
    ensures r.Some? ==> r.value + |p| <= |s| && s[r.value..r.value + |p|] == p
    ensures r.Some? ==> forall j :: 0 <= j < r.value ==> !IsPrefix(p, s[j..])
    ensures r.None? ==> forall j :: 0 <= j <= |s| ==> !IsPrefix(p, s[j..])
    decreases |s|
  {
    if IsPrefix(p, s) then Some(0)
    else if |s| == 0 then None
    else match FirstIndex(s[1..], p)
      case None =>
        assert forall j :: 1 <= j <= |s| ==> s[j..] == s[1..][j - 1..];
        None
      case Some(i) =>
        assert forall j :: 1 <= j < i + 1 ==> s[j..] == s[1..][j - 1..];
        Some(i + 1)
  }

  /** `s.replace(p, rep)`: the first occurrence of p, if any, is replaced. */
  function ReplaceFirst(s: string, p: string, rep: string): string {
    match FirstIndex(s, p)
    case None => s
    case Some(i) => s[..i] + rep + s[i + |p|..]
  }

  /** Removing a pattern that the string starts with leaves exactly the rest,
      even when the rest contains the pattern again. */
  lemma StripLeadingPattern(p: string, t: string)
    ensures ReplaceFirst(p + t, p, "") == t
  {
    assert IsPrefix(p, p + t);
    assert (p + t)[|p|..] == t;
  }

  // ---------------------------------------------------------------------
  // Integers

  /** JavaScript `a % b` on integers: the remainder takes the sign of a. */
  function JsRem(a: int, b: int): (r: int)
    requires b > 0
    ensures a >= 0 ==> r == a % b && 0 <= r < b
    ensures a < 0 ==> -b < r <= 0
  {
    if a >= 0 then a % b else -((-a) % b)
  }

  function DigitChar(d: nat): (c: char)
    requires d < 10
    ensures '0' <= c <= '9'
  {
    ('0' as int + d) as char
  }

  /** Decimal rendering of a natural number, as `String(n)` prints it. */
  function NatToString(n: nat): (r: string)
    ensures |r| > 0
    ensures forall i :: 0 <= i < |r| ==> '0' <= r[i] <= '9'
    decreases n
  {
    if n < 10 then [DigitChar(n)] else NatToString(n / 10) + [DigitChar(n % 10)]
  }

  /** Decimal rendering of an integer, with a leading '-' when negative. */
  function IntToString(n: int): (r: string)
    ensures |r| > 0
    ensures n < 0 <==> r[0] == '-'
  {
    if n < 0 then "-" + NatToString(-n) else NatToString(n)
  }

  /** Reads a run of decimal digits back. */
  function ParseDigits(s: string): nat
    requires forall i :: 0 <= i < |s| ==> '0' <= s[i] <= '9'
    decreases |s|
  {
    if s == [] then 0 else 10 * ParseDigits(s[..|s| - 1]) + (s[|s| - 1] as int - '0' as int)
  }

  /** Decimal rendering loses nothing: it reads back as the same number. */
  lemma {:induction false} NatToStringRoundTrip(n: nat)
    ensures ParseDigits(NatToString(n)) == n
    decreases n
  {
    var r := NatToString(n);
    if n >= 10 {
      NatToStringRoundTrip(n / 10);
      assert r[..|r| - 1] == NatToString(n / 10);
    }
  }

  /** Hence distinct numbers render as distinct strings. */
  lemma NatToStringInjective(a: nat, b: nat)
    requires NatToString(a) == NatToString(b)
    ensures a == b
  {
    NatToStringRoundTrip(a);
    NatToStringRoundTrip(b);
  }

  /** Every character of a rendered integer but a leading minus is a digit. */
  lemma IntToStringDigits(n: int)
    ensures forall i :: 0 < i < |IntToString(n)| ==> '0' <= IntToString(n)[i] <= '9'
    ensures '0' <= IntToString(n)[0] <= '9' || IntToString(n)[0] == '-'
  {
  }

  /** The end of the run of digits starting at index i. */
  function DigitRunEnd(s: string, i: nat): (r: nat)
    requires i <= |s|
    ensures i <= r <= |s|
    decreases |s| - i
  {
    if i == |s| || !('0' <= s[i] <= '9') then i else DigitRunEnd(s, i + 1)
  }

  /** Past its first character a rendered integer is one run of digits, so
      when the text after it does not start with a digit, the run ends
      exactly where the number does. */
  lemma {:induction false} NumberRunEnd(n: int, x: string, i: nat)
    requires x == [] || !('0' <= x[0] <= '9')
    requires 1 <= i <= |IntToString(n)|
    ensures DigitRunEnd(IntToString(n) + x, i) == |IntToString(n)|
    decreases |IntToString(n)| - i
  {
    IntToStringDigits(n);
    var s := IntToString(n) + x;
    if i < |IntToString(n)| {
      assert s[i] == IntToString(n)[i];
      NumberRunEnd(n, x, i + 1);
    } else if i < |s| {
      assert s[i] == x[0];
    }
  }

  /** Two concatenations that agree and whose first parts have the same
      length agree part by part. */
  lemma SplitAtSameLength<T>(a: seq<T>, x: seq<T>, b: seq<T>, y: seq<T>)
    requires a + x == b + y && |a| == |b|
    ensures a == b && x == y
  {
    assert a == (a + x)[..|a|];
    assert b == (b + y)[..|b|];
    assert x == (a + x)[|a|..];
    assert y == (b + y)[|b|..];
  }

  /** A rendered integer followed by text that does not start with a digit
      reads back unambiguously: both the number and the text. */
  lemma NumberThenText(a: int, b: int, x: string, y: string)
    requires x == [] || !('0' <= x[0] <= '9')
    requires y == [] || !('0' <= y[0] <= '9')
    requires IntToString(a) + x == IntToString(b) + y
    ensures a == b && x == y
  {
    var sa, sb := IntToString(a), IntToString(b);
    NumberRunEnd(a, x, 1);
    NumberRunEnd(b, y, 1);
    SplitAtSameLength(sa, x, sb, y);
    if a < 0 {
      assert b < 0;
      assert sa[1..] == NatToString(-a) && sb[1..] == NatToString(-b);
      NatToStringInjective(-a, -b);
    } else {
      NatToStringInjective(a, b);
    }
  }

  // ---------------------------------------------------------------------
  // Sequences

  /** `xs.slice(0, n)` for n >= 0. */
  function Take<T>(xs: seq<T>, n: nat): (r: seq<T>)
    ensures |r| == if n < |xs| then n else |xs|
    ensures r == xs[..|r|]
  {
    if n < |xs| then xs[..n] else xs
  }

  /** `xs.slice(0, end)` for any integer end: a negative end counts back from
      the end of the array. */
  function JsSliceTo<T>(xs: seq<T>, end: int): (r: seq<T>)
    ensures end >= 0 ==> r == Take(xs, end)
    ensures end < 0 ==> |r| == if |xs| + end > 0 then |xs| + end else 0
    ensures r == xs[..|r|]
  {
    if end >= 0 then Take(xs, end)
    else if |xs| + end > 0 then xs[..|xs| + end]
    else []
  }

  predicate NoDuplicates<T(==)>(xs: seq<T>) {
    forall i, j :: 0 <= i < j < |xs| ==> xs[i] != xs[j]
  }
}
