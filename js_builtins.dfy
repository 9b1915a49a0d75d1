/** The JavaScript built-ins the services call on strings and scalars:
    `toLowerCase`/`toUpperCase` (over ASCII), `includes`, `join`,
    `lastIndexOf`, the truthiness of an optional string, and the
    conversion of a number, string or boolean to its string form. */
module JsBuiltins {
  import opened Wrappers

  /** A JavaScript scalar as it appears in a query object. Numbers are
      modelled as integers. */
  datatype JsScalar = Num(n: int) | Str(s: string) | Bool(b: bool)

  // ---------------------------------------------------------------------
  // Case mapping (ASCII letters only)
  // ---------------------------------------------------------------------

  predicate IsAsciiUpper(c: char) { 'A' <= c <= 'Z' }
  predicate IsAsciiLower(c: char) { 'a' <= c <= 'z' }

  function LowerChar(c: char): (r: char)
    ensures !IsAsciiUpper(r)
    ensures IsAsciiUpper(c) ==> r as int == c as int + 32
    ensures !IsAsciiUpper(c) ==> r == c
  {
    if IsAsciiUpper(c) then (c as int + 32) as char else c
  }

  function UpperChar(c: char): (r: char)
    ensures !IsAsciiLower(r)
    ensures IsAsciiLower(c) ==> r as int == c as int - 32
    ensures !IsAsciiLower(c) ==> r == c
  {
    if IsAsciiLower(c) then (c as int - 32) as char else c
  }

  /** `s.toLowerCase()`. */
  function Lower(s: string): (r: string)
    ensures |r| == |s|
    ensures forall i :: 0 <= i < |s| ==> r[i] == LowerChar(s[i])
  {
    seq(|s|, i requires 0 <= i < |s| => LowerChar(s[i]))
  }

  /** `s.toUpperCase()`. */
  function Upper(s: string): (r: string)
    ensures |r| == |s|
    ensures forall i :: 0 <= i < |s| ==> r[i] == UpperChar(s[i])
  {
    seq(|s|, i requires 0 <= i < |s| => UpperChar(s[i]))
  }

  /** Lower-casing a string that was upper-cased gives the same as
      lower-casing the original: case-insensitive comparison ignores the
      `toUpperCase()` applied to airport ids. */
  lemma LowerOfUpper(s: string)
    ensures Lower(Upper(s)) == Lower(s)
  {
    forall i | 0 <= i < |s|
      ensures Lower(Upper(s))[i] == Lower(s)[i]
    {
      var c := s[i];
      if IsAsciiLower(c) {
        assert UpperChar(c) as int == c as int - 32;
      }
    }
  }

  /** Upper-casing leaves every character other than a lower-case letter
      where it is, so it introduces no such character. */
  lemma UpperKeepsOtherChars(s: string, c: char)
    requires !IsAsciiLower(c) && !IsAsciiUpper(c) && c !in s
    ensures c !in Upper(s)
  {
    forall k | 0 <= k < |s|
      ensures Upper(s)[k] != c
    {
      assert s[k] in s;
    }
  }

  // ---------------------------------------------------------------------
  // String.prototype.includes
  // ---------------------------------------------------------------------

  /** `t` occurs in `s` starting at position `i`. */
  predicate OccursAt(s: string, t: string, i: int)
  {
    0 <= i && i + |t| <= |s| && s[i..i + |t|] == t
  }

  /** `s.includes(t)`. */
  predicate Includes(s: string, t: string)
  {
    exists i :: 0 <= i <= |s| - |t| && OccursAt(s, t, i)
  }

  /** Every string includes the empty string. */
  lemma IncludesEmpty(s: string)
    ensures Includes(s, "")
  {
    assert OccursAt(s, "", 0);
  }

  /** An occurrence in the lower-cased front of a string is one in the
      whole lower-cased string. */
  lemma IncludesLowerPrefix(s: string, m: nat, t: string)
    requires m <= |s| && Includes(Lower(s[..m]), t)
    ensures Includes(Lower(s), t)
  {
    var i :| 0 <= i <= m - |t| && OccursAt(Lower(s[..m]), t, i);
    assert Lower(s)[i..i + |t|] == Lower(s[..m])[i..i + |t|];
    assert OccursAt(Lower(s), t, i);
  }

  /** An occurrence in the lower-cased back of a string is one in the
      whole lower-cased string. */
  lemma IncludesLowerSuffix(s: string, n: nat, t: string)
    requires n <= |s| && Includes(Lower(s[n..]), t)
    ensures Includes(Lower(s), t)
  {
    var i :| 0 <= i <= |s| - n - |t| && OccursAt(Lower(s[n..]), t, i);
    assert Lower(s)[n + i..n + i + |t|] == Lower(s[n..])[i..i + |t|];
    assert OccursAt(Lower(s), t, n + i);
  }

  // ---------------------------------------------------------------------
  // Array.prototype.join
  // ---------------------------------------------------------------------

  /** `xs.join(sep)`. */
  function Join(xs: seq<string>, sep: string): string
  {
    if |xs| == 0 then ""
    else if |xs| == 1 then xs[0]
    else xs[0] + sep + Join(xs[1..], sep)
  }

  /** Where `xs[i]` starts inside `Join(xs, sep)`. */
  function JoinOffset(xs: seq<string>, sep: string, i: nat): nat
    requires i < |xs|
  {
    if i == 0 then 0 else |xs[0]| + |sep| + JoinOffset(xs[1..], sep, i - 1)
  }

  /** Each joined element appears in the result at its offset. */
  lemma {:induction false} JoinContainsEach(xs: seq<string>, sep: string, i: nat)
    requires i < |xs|
    ensures OccursAt(Join(xs, sep), xs[i], JoinOffset(xs, sep, i))
  {
    if |xs| == 1 {
    } else if i == 0 {
      assert Join(xs, sep) == xs[0] + (sep + Join(xs[1..], sep));
    } else {
      JoinContainsEach(xs[1..], sep, i - 1);
      var rest := Join(xs[1..], sep);
      var k := JoinOffset(xs[1..], sep, i - 1);
      var pre := xs[0] + sep;
      assert Join(xs, sep) == pre + rest;
      assert (pre + rest)[|pre| + k..|pre| + k + |xs[i]|] == rest[k..k + |xs[i]|];
    }
  }

  /** The separator follows every joined element but the last. */
  lemma {:induction false} JoinSeparatorAfter(xs: seq<string>, sep: string, i: nat)
    requires i + 1 < |xs|
    ensures OccursAt(Join(xs, sep), sep, JoinOffset(xs, sep, i) + |xs[i]|)
  {
    var rest := Join(xs[1..], sep);
    assert Join(xs, sep) == xs[0] + sep + rest;
    if i == 0 {
      assert (xs[0] + sep + rest)[|xs[0]|..|xs[0]| + |sep|] == sep;
    } else {
      JoinSeparatorAfter(xs[1..], sep, i - 1);
      var pre := xs[0] + sep;
      var k := JoinOffset(xs[1..], sep, i - 1) + |xs[i]|;
      assert (pre + rest)[|pre| + k..|pre| + k + |sep|] == rest[k..k + |sep|];
    }
  }

  /** Joined elements appear in their original order, without overlapping,
      separated by at least the separator. */
  lemma {:induction false} JoinOffsetsIncrease(xs: seq<string>, sep: string, i: nat, j: nat)
    requires i < j < |xs|
    ensures JoinOffset(xs, sep, i) + |xs[i]| + |sep| <= JoinOffset(xs, sep, j)
  {
    if i > 0 {
      JoinOffsetsIncrease(xs[1..], sep, i - 1, j - 1);
    } else if j > 1 {
      JoinOffsetsIncrease(xs[1..], sep, 0, j - 1);
    }
  }

  // ---------------------------------------------------------------------
  // String(value) for scalars
  // ---------------------------------------------------------------------

  predicate IsDigit(c: char) { '0' <= c <= '9' }

  predicate AllDigits(s: string) { forall i :: 0 <= i < |s| ==> IsDigit(s[i]) }

  function DigitChar(d: nat): (c: char)
    requires d < 10
    ensures IsDigit(c) && c as int - '0' as int == d
  {
    ('0' as int + d) as char
  }

  /** Decimal digits of a natural number, without leading zeros. */
  function NatToString(n: nat): (s: string)
    ensures |s| >= 1 && AllDigits(s)
    ensures |s| > 1 ==> s[0] != '0'
  {
    if n < 10 then [DigitChar(n)] else NatToString(n / 10) + [DigitChar(n % 10)]
  }

  /** `String(n)` for an integral number. */
  function IntToString(n: int): (s: string)
    ensures |s| >= 1
  {
    if n < 0 then "-" + NatToString(-n) else NatToString(n)
  }

  /** `String(v)`. */
  function ToJsString(v: JsScalar): string
  {
    match v
    case Num(n) => IntToString(n)
    case Str(s) => s
    case Bool(b) => if b then "true" else "false"
  }

  /** The truthiness of an optional string: `undefined` and `""` are falsy. */
  predicate Truthy(v: Option<string>)
  {
    v.Some? && v.value != ""
  }

  /** `s.lastIndexOf(c)`, or None for -1. */
  function LastIndexOf(s: string, c: char): (r: Option<nat>)
    ensures r.Some? ==> r.value < |s| && s[r.value] == c
    ensures r.Some? ==> forall j :: r.value < j < |s| ==> s[j] != c
    ensures r.None? <==> forall j :: 0 <= j < |s| ==> s[j] != c
  {
    if |s| == 0 then None
    else if s[|s| - 1] == c then Some(|s| - 1)
    else LastIndexOf(s[..|s| - 1], c)
  }

  /** The last occurrence of `c` is the one just before a tail free of `c`. */
  lemma LastIndexOfBeforeTail(x: string, c: char, y: string)
    requires c !in y
    ensures LastIndexOf(x + [c] + y, c) == Some(|x|)
  {
    var s := x + [c] + y;
    assert s[|x|] == c;
    var r := LastIndexOf(s, c);
    assert r.Some?;
    if r.value > |x| {
      assert false;
    } else if r.value < |x| {
      assert false;
    }
  }
}
