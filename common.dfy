/** Shared vocabulary: optional values, Kotlin's 64-bit Long, and the string
    operations the app relies on (lowercase, prefix/substring tests, decimal
    rendering, trimming, substringBefore and String.compareTo). */
module Common {

  datatype Option<T> = None | Some(value: T) {
    function GetOr(default: T): T {
      match this
      case Some(v) => v
      case None => default
    }
  }

  function Last<T>(s: seq<T>): T
    requires |s| > 0
  {
    s[|s| - 1]
  }

  /** Position of the first occurrence of x in s. */
  function IndexOf<T(==)>(s: seq<T>, x: T): (i: nat)
    requires x in s
    ensures i < |s| && s[i] == x && x !in s[..i]
  {
    if s[0] == x then 0
    else
      var j := IndexOf(s[1..], x);
      assert s[..j + 1] == [s[0]] + s[1..][..j];
      j + 1
  }

  /** MutableList.remove(x): drops the first occurrence of x, if any. */
  function RemoveFirst<T(==)>(s: seq<T>, x: T): (r: seq<T>)
    ensures x !in s ==> r == s
    ensures x in s ==> r == s[..IndexOf(s, x)] + s[IndexOf(s, x) + 1..]
    ensures multiset(r) == multiset(s) - multiset{x}
  {
    if x in s then
      var i := IndexOf(s, x);
      assert s == s[..i] + [x] + s[i + 1..];
      s[..i] + s[i + 1..]
    else
      s
  }

  // ---------------------------------------------------------------------------
  // Kotlin Long
  // ---------------------------------------------------------------------------

  const MinLong: int := -0x8000_0000_0000_0000
  const MaxLong: int := 0x7FFF_FFFF_FFFF_FFFF

  type Long = x: int | MinLong <= x <= MaxLong

  /** Two's-complement addition of one, as the JVM does it for a Long. */
  function LongIncrement(x: Long): (r: Long)
    ensures x < MaxLong ==> r == x + 1
    ensures x == MaxLong ==> r == MinLong
  {
    if x == MaxLong then MinLong else x + 1
  }

  // ---------------------------------------------------------------------------
  // Lowercasing (ASCII letters only; see README)
  // ---------------------------------------------------------------------------

  predicate IsUpper(c: char) {
    'A' <= c <= 'Z'
  }

  function LowerChar(c: char): (r: char)
    ensures !IsUpper(r)
    ensures !IsUpper(c) ==> r == c
  {
    if IsUpper(c) then (c as int + 32) as char else c
  }

  function Lower(s: string): (r: string)
    ensures |r| == |s|
    ensures forall i | 0 <= i < |s| :: r[i] == LowerChar(s[i])
  {
    seq(|s|, i requires 0 <= i < |s| => LowerChar(s[i]))
  }

  /** Lowercasing twice is lowercasing once: a stored lowercase mirror that
      is lowercased again on read is unchanged. */
  lemma LowerIdempotent(s: string)
    ensures Lower(Lower(s)) == Lower(s)
  {
    assert forall i | 0 <= i < |s| :: Lower(Lower(s))[i] == Lower(s)[i];
  }

  /** Kotlin's CharSequence.contains: some suffix of s starts with t. */
  predicate Contains(s: string, t: string) {
    exists i | 0 <= i <= |s| :: t <= s[i..]
  }

  // ---------------------------------------------------------------------------
  // Decimal rendering (Long.toString / Int.toString) and its inverse
  // ---------------------------------------------------------------------------

  predicate IsDigit(c: char) {
    '0' <= c <= '9'
  }

  predicate IsDigits(s: string) {
    |s| > 0 && forall i | 0 <= i < |s| :: IsDigit(s[i])
  }

  function DigitChar(d: nat): (c: char)
    requires d < 10
    ensures IsDigit(c) && c as int - '0' as int == d
  {
    ('0' as int + d) as char
  }

  /** Shortest decimal numeral of n: no leading zero unless n is 0. */
  function NatToString(n: nat): (r: string)
    ensures IsDigits(r)
    ensures |r| > 1 ==> r[0] != '0'
    decreases n
  {
    if n < 10 then [DigitChar(n)] else NatToString(n / 10) + [DigitChar(n % 10)]
  }

  function IntToString(n: int): (r: string)
    ensures n >= 0 ==> IsDigits(r)
    ensures n < 0 ==> |r| > 1 && r[0] == '-' && IsDigits(r[1..])
  {
    if n < 0 then "-" + NatToString(-n) else NatToString(n)
  }

  /** Reads a run of decimal digits back as a number. */
  function ParseDigits(s: string): nat
    requires IsDigits(s)
    decreases |s|
  {
    var d := Last(s) as int - '0' as int;
    if |s| == 1 then d else ParseDigits(s[..|s| - 1]) * 10 + d
  }

  predicate IsNumeral(s: string) {
    IsDigits(s) || (|s| > 1 && s[0] == '-' && IsDigits(s[1..]))
  }

  function ParseNumeral(s: string): int
    requires IsNumeral(s)
  {
    if IsDigits(s) then ParseDigits(s) as int else 0 - ParseDigits(s[1..])
  }

  lemma {:induction false} NatToStringRoundTrip(n: nat)
    ensures ParseDigits(NatToString(n)) == n
    decreases n
  {
    if n >= 10 {
      var s := NatToString(n);
      assert s[..|s| - 1] == NatToString(n / 10);
      NatToStringRoundTrip(n / 10);
    }
  }

  /** Decimal rendering loses nothing: the numeral reads back as the number. */
  lemma IntToStringRoundTrip(n: int)
    ensures IsNumeral(IntToString(n)) && ParseNumeral(IntToString(n)) == n
  {
    var s := IntToString(n);
    if n < 0 {
      assert s[1..] == NatToString(-n);
      assert !IsDigits(s) by { assert !IsDigit(s[0]); }
      NatToStringRoundTrip(-n);
    } else {
      NatToStringRoundTrip(n);
    }
  }

  lemma IntToStringInjective(a: int, b: int)
    requires IntToString(a) == IntToString(b)
    ensures a == b
  {
    IntToStringRoundTrip(a);
    IntToStringRoundTrip(b);
  }

  // ---------------------------------------------------------------------------
  // Kotlin String.trim(): strips Char.isWhitespace from both ends
  // ---------------------------------------------------------------------------

  /** Char.isWhitespace: Java's Character.isWhitespace or isSpaceChar. */
  predicate IsWhitespace(c: char) {
    || ('\U{0009}' <= c <= '\U{000D}')
    || ('\U{001C}' <= c <= '\U{0020}')
    || c == '\U{00A0}' || c == '\U{1680}'
    || ('\U{2000}' <= c <= '\U{200A}')
    || c == '\U{2028}' || c == '\U{2029}' || c == '\U{202F}' || c == '\U{205F}' || c == '\U{3000}'
  }

  /** Every character of s in [lo, hi) is whitespace. */
  predicate WhitespaceBetween(s: string, lo: int, hi: int)
    requires 0 <= lo && hi <= |s|
  {
    forall i | lo <= i < hi :: IsWhitespace(s[i])
  }

  /** The number of whitespace characters s starts with. */
  function LeadingWhitespace(s: string): (n: nat)
    ensures n <= |s| && WhitespaceBetween(s, 0, n)
    ensures n < |s| ==> !IsWhitespace(s[n])
    decreases |s|
  {
    if |s| > 0 && IsWhitespace(s[0]) then
      var m := LeadingWhitespace(s[1..]);
      1 + m
    else 0
  }

  /** Where the trailing whitespace of s[..hi] begins, not going below lo. */
  function TrailingStart(s: string, lo: nat, hi: nat): (e: nat)
    requires lo <= hi <= |s|
    ensures lo <= e <= hi && WhitespaceBetween(s, e, hi)
    ensures e > lo ==> !IsWhitespace(s[e - 1])
    decreases hi
  {
    if hi > lo && IsWhitespace(s[hi - 1]) then TrailingStart(s, lo, hi - 1) else hi
  }

  /** String.trim(): the slice left after cutting leading and trailing
      whitespace. Everything cut off is whitespace and the result neither
      starts nor ends with whitespace. */
  function Trim(s: string): (r: string)
    ensures var a := LeadingWhitespace(s);
      && a + |r| <= |s| && r == s[a..a + |r|]
      && WhitespaceBetween(s, 0, a) && WhitespaceBetween(s, a + |r|, |s|)
    ensures r == [] || (!IsWhitespace(r[0]) && !IsWhitespace(r[|r| - 1]))
  {
    var a := LeadingWhitespace(s);
    var e := TrailingStart(s, a, |s|);
    assert e > a ==> s[a..e][0] == s[a] && s[a..e][e - a - 1] == s[e - 1];
    s[a..e]
  }

  /** A string trims to nothing exactly when it is all whitespace. */
  lemma TrimEmptyIff(s: string)
    ensures Trim(s) == [] <==> WhitespaceBetween(s, 0, |s|)
  {
  }

  /** Whitespace in front of a text that starts with something else is
      exactly what trim cuts at the front. */
  lemma {:induction false} LeadingOverPad(pad: string, rest: string)
    requires WhitespaceBetween(pad, 0, |pad|)
    requires rest != [] && !IsWhitespace(rest[0])
    ensures LeadingWhitespace(pad + rest) == |pad|
    decreases |pad|
  {
    if pad == [] {
      assert pad + rest == rest;
    } else {
      assert (pad + rest)[0] == pad[0];
      assert (pad + rest)[1..] == pad[1..] + rest;
      LeadingOverPad(pad[1..], rest);
    }
  }

  /** Trailing whitespace between m and hi does not move where the
      trailing whitespace of s[..hi] begins past m. */
  lemma {:induction false} TrailingOverPad(s: string, lo: nat, m: nat, hi: nat)
    requires lo <= m <= hi <= |s|
    requires WhitespaceBetween(s, m, hi)
    ensures TrailingStart(s, lo, hi) == TrailingStart(s, lo, m)
    decreases hi
  {
    if hi > m {
      TrailingOverPad(s, lo, m, hi - 1);
    }
  }

  /** trim removes any whitespace padding around a text that neither
      starts nor ends with whitespace, and nothing else. */
  lemma TrimPadded(pad1: string, t: string, pad2: string)
    requires WhitespaceBetween(pad1, 0, |pad1|) && WhitespaceBetween(pad2, 0, |pad2|)
    requires t != [] && !IsWhitespace(t[0]) && !IsWhitespace(t[|t| - 1])
    ensures Trim(pad1 + t + pad2) == t
  {
    var s := pad1 + t + pad2;
    assert s == pad1 + (t + pad2);
    assert (t + pad2)[0] == t[0];
    LeadingOverPad(pad1, t + pad2);
    var m := |pad1| + |t|;
    assert WhitespaceBetween(s, m, |s|) by {
      forall i | m <= i < |s| ensures IsWhitespace(s[i]) {
        assert s[i] == pad2[i - m];
      }
    }
    TrailingOverPad(s, |pad1|, m, |s|);
    assert s[m - 1] == t[|t| - 1];
    assert s[|pad1|..m] == t;
  }

  // ---------------------------------------------------------------------------
  // substringBefore / split(...)[0]
  // ---------------------------------------------------------------------------

  /** Text before the first occurrence of c; the whole string if c is absent. */
  function SubstringBefore(s: string, c: char): (r: string)
    ensures r <= s
    ensures c !in r
    ensures c in s ==> |r| < |s| && s[|r|] == c
    ensures c !in s ==> r == s
  {
    if |s| == 0 then ""
    else if s[0] == c then ""
    else [s[0]] + SubstringBefore(s[1..], c)
  }

  // ---------------------------------------------------------------------------
  // String.compareTo
  // ---------------------------------------------------------------------------

  /** Java's String.compareTo: the difference of the first differing
      characters, or else the difference of the lengths. */
  function CompareTo(a: string, b: string): int
    decreases |a|
  {
    if |a| == 0 || |b| == 0 then |a| - |b|
    else if a[0] != b[0] then a[0] as int - b[0] as int
    else CompareTo(a[1..], b[1..])
  }

  /** Lexicographic order, defined independently of CompareTo: a is a prefix
      of b, or a is smaller at the first position where they differ. */
  ghost predicate LexLe(a: string, b: string) {
    a <= b || exists k | 0 <= k < |a| && k < |b| :: a[..k] == b[..k] && a[k] < b[k]
  }

  lemma {:induction false} CompareToAntisymmetric(a: string, b: string)
    ensures CompareTo(a, b) == -CompareTo(b, a)
    decreases |a|
  {
    if |a| > 0 && |b| > 0 && a[0] == b[0] {
      CompareToAntisymmetric(a[1..], b[1..]);
    }
  }

  lemma {:induction false} CompareToZeroIff(a: string, b: string)
    ensures CompareTo(a, b) == 0 <==> a == b
    decreases |a|
  {
    if |a| > 0 && |b| > 0 && a[0] == b[0] {
      CompareToZeroIff(a[1..], b[1..]);
      assert a == [a[0]] + a[1..] && b == [b[0]] + b[1..];
    }
  }

  lemma {:induction false} CompareToTransitive(a: string, b: string, c: string)
    requires CompareTo(a, b) <= 0 && CompareTo(b, c) <= 0
    ensures CompareTo(a, c) <= 0
    decreases |a|
  {
    if |a| > 0 && |b| > 0 && |c| > 0 && a[0] == b[0] && b[0] == c[0] {
      CompareToTransitive(a[1..], b[1..], c[1..]);
    }
  }

  lemma {:induction false} CompareToLeIsLexLe(a: string, b: string)
    requires CompareTo(a, b) <= 0
    ensures LexLe(a, b)
    decreases |a|
  {
    if |a| == 0 {
      assert a <= b;
    } else if a[0] != b[0] {
      assert a[..0] == b[..0] && a[0] < b[0];
    } else {
      var a', b' := a[1..], b[1..];
      CompareToLeIsLexLe(a', b');
      if a' <= b' {
        assert a == [a[0]] + a' && b == [b[0]] + b';
      } else {
        var k :| 0 <= k < |a'| && k < |b'| && a'[..k] == b'[..k] && a'[k] < b'[k];
        assert a[..k + 1] == [a[0]] + a'[..k] && b[..k + 1] == [b[0]] + b'[..k];
        assert a[k + 1] == a'[k] && b[k + 1] == b'[k];
      }
    }
  }

  lemma {:induction false} PrefixCompareTo(a: string, b: string)
    requires a <= b
    ensures CompareTo(a, b) <= 0
    decreases |a|
  {
    if |a| > 0 {
      assert a[0] == b[0];
      PrefixCompareTo(a[1..], b[1..]);
    }
  }

  lemma {:induction false} FirstDifferenceCompareTo(a: string, b: string, k: nat)
    requires k < |a| && k < |b| && a[..k] == b[..k] && a[k] < b[k]
    ensures CompareTo(a, b) < 0
    decreases k
  {
    if k > 0 {
      assert a[0] == a[..k][0] == b[..k][0] == b[0];
      assert a[1..][..k - 1] == a[..k][1..] && b[1..][..k - 1] == b[..k][1..];
      FirstDifferenceCompareTo(a[1..], b[1..], k - 1);
    }
  }

  /** CompareTo agrees with the lexicographic order. */
  lemma CompareToIsLexicographic(a: string, b: string)
    ensures CompareTo(a, b) <= 0 <==> LexLe(a, b)
  {
    if CompareTo(a, b) <= 0 {
      CompareToLeIsLexLe(a, b);
    }
    if LexLe(a, b) {
      if a <= b {
        PrefixCompareTo(a, b);
      } else {
        var k :| 0 <= k < |a| && k < |b| && a[..k] == b[..k] && a[k] < b[k];
        FirstDifferenceCompareTo(a, b, k);
      }
    }
  }
}
