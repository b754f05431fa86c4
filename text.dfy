/**
 * String helpers shared by the model: ASCII case folding, substring search,
 * decimal formatting and parsing, and UTF-8 byte lengths (Go's `len` on a
 * string counts bytes, Dafny's `|s|` counts code points).
 */
module Text {
  import opened Wrappers

  /** ASCII lower-casing; every other character is left alone. */
  function Lower(c: char): char
  {
    if 'A' <= c <= 'Z' then (c as int + 32) as char else c
  }

  function LowerAll(s: string): (r: string)
    ensures |r| == |s|
    ensures forall i :: 0 <= i < |s| ==> r[i] == Lower(s[i])
  {
    seq(|s|, i requires 0 <= i < |s| => Lower(s[i]))
  }

  /** `needle` occurs in `hay` starting at position `i`. */
  ghost predicate OccursAt(hay: string, needle: string, i: int)
  {
    0 <= i && i + |needle| <= |hay| && hay[i..i + |needle|] == needle
  }

  /** The first occurrence of `needle` in `hay` at or after position `k`. */
  function IndexFrom(hay: string, needle: string, k: nat): (r: Option<nat>)
    decreases |hay| - k
    ensures r.Some? ==> k <= r.value && OccursAt(hay, needle, r.value)
    ensures r.Some? ==> forall j :: k <= j < r.value ==> !OccursAt(hay, needle, j)
    ensures r.None? ==> forall j :: k <= j ==> !OccursAt(hay, needle, j)
  {
    if k + |needle| > |hay| then None
    else if hay[k..k + |needle|] == needle then Some(k)
    else IndexFrom(hay, needle, k + 1)
  }

  /** strings.Index: the first occurrence of `needle` in `hay`. */
  function IndexOf(hay: string, needle: string): (r: Option<nat>)
    ensures r.Some? ==> OccursAt(hay, needle, r.value)
    ensures r.Some? ==> forall j :: 0 <= j < r.value ==> !OccursAt(hay, needle, j)
    ensures r.None? <==> forall j :: !OccursAt(hay, needle, j)
  {
    IndexFrom(hay, needle, 0)
  }

  predicate Contains(hay: string, needle: string)
  {
    IndexOf(hay, needle).Some?
  }

  /** A case-insensitive substring test (ASCII folding). */
  predicate ContainsFold(hay: string, needle: string)
  {
    Contains(LowerAll(hay), LowerAll(needle))
  }

  /** strings.Replace(s, pat, rep, 1) for a non-empty `pat`. */
  function ReplaceFirst(s: string, pat: string, rep: string): (r: string)
    requires |pat| > 0
    ensures IndexOf(s, pat).None? ==> r == s
    ensures IndexOf(s, pat).Some? ==>
      var i := IndexOf(s, pat).value; r == s[..i] + rep + s[i + |pat|..]
  {
    match IndexOf(s, pat)
    case None => s
    case Some(i) => s[..i] + rep + s[i + |pat|..]
  }

  /** strings.ReplaceAll for single characters. */
  function ReplaceChar(s: string, from: char, to: char): (r: string)
    ensures |r| == |s|
    ensures forall i :: 0 <= i < |s| ==> r[i] == (if s[i] == from then to else s[i])
  {
    seq(|s|, i requires 0 <= i < |s| => if s[i] == from then to else s[i])
  }

  /** The position of the first `c` in `s`, if any. */
  function FirstIndex(s: string, c: char): (r: Option<nat>)
    ensures r.Some? ==> r.value < |s| && s[r.value] == c && c !in s[..r.value]
    ensures r.None? ==> c !in s
  {
    if |s| == 0 then None
    else if s[0] == c then Some(0)
    else match FirstIndex(s[1..], c)
      case None => None
      case Some(i) => Some(i + 1)
  }

  /** The prefix of `s` before its first `c` (all of `s` when there is none). */
  function Before(s: string, c: char): (r: string)
    ensures c !in r
    ensures r <= s
  {
    match FirstIndex(s, c)
    case None => s
    case Some(i) => s[..i]
  }

  /** The prefix before the first `c` ends where `c` first occurs. */
  lemma BeforeAt(s: string, c: char, k: nat)
    requires k < |s| && s[k] == c && c !in s[..k]
    ensures Before(s, c) == s[..k]
  {
  }

  /** The suffix of `s` after its last `c` (all of `s` when there is none). */
  function AfterLast(s: string, c: char): (r: string)
    ensures c !in r
    ensures |r| <= |s| && r == s[|s| - |r|..]
    ensures |r| < |s| ==> s[|s| - |r| - 1] == c
  {
    if |s| == 0 then ""
    else if s[|s| - 1] == c then ""
    else AfterLast(s[..|s| - 1], c) + [s[|s| - 1]]
  }

  /** The prefix of `s` before its last `c`, when `s` has one. */
  function BeforeLast(s: string, c: char): (r: Option<string>)
    ensures r.None? <==> c !in s
    ensures r.Some? ==> |r.value| < |s| && s[..|r.value|] == r.value && s[|r.value|] == c
  {
    if |s| == 0 then None
    else if s[|s| - 1] == c then Some(s[..|s| - 1])
    else BeforeLast(s[..|s| - 1], c)
  }

  /** One step of Before: a leading character other than `c` is kept. */
  lemma BeforeCons(s: string, c: char)
    requires |s| > 0 && s[0] != c
    ensures Before(s, c) == [s[0]] + Before(s[1..], c)
  {
    match FirstIndex(s[1..], c)
    case None =>
    case Some(i) => assert s[..i + 1] == [s[0]] + s[1..][..i];
  }

  lemma {:induction false} BeforeAppend(a: string, b: string, c: char)
    requires c !in a
    ensures Before(a + b, c) == a + Before(b, c)
  {
    if |a| > 0 {
      var ab := a + b;
      assert ab[0] == a[0] && a[0] != c;
      assert ab[1..] == a[1..] + b;
      BeforeCons(ab, c);
      BeforeAppend(a[1..], b, c);
      assert a == [a[0]] + a[1..];
    }
  }

  predicate IsDigit(c: char) { '0' <= c <= '9' }

  predicate AllDigits(s: string) { forall i :: 0 <= i < |s| ==> IsDigit(s[i]) }

  /** A hex digit, in either case. */
  predicate IsHexChar(c: char)
  {
    '0' <= c <= '9' || 'a' <= c <= 'f' || 'A' <= c <= 'F'
  }

  /** The value of a hex digit. */
  function HexValue(c: char): (v: nat)
    requires IsHexChar(c)
    ensures v < 16
  {
    if '0' <= c <= '9' then c as int - '0' as int
    else if 'a' <= c <= 'f' then c as int - 'a' as int + 10
    else c as int - 'A' as int + 10
  }

  function DigitChar(d: nat): (c: char)
    requires d < 10
    ensures IsDigit(c) && c as int - '0' as int == d
  {
    ('0' as int + d) as char
  }

  /** Decimal digits of `n`, most significant first, without leading zeros. */
  function NatToDec(n: nat): (r: string)
    decreases n
  {
    if n < 10 then [DigitChar(n)] else NatToDec(n / 10) + [DigitChar(n % 10)]
  }

  function DecToNat(s: string): nat
    requires AllDigits(s)
  {
    if |s| == 0 then 0 else DecToNat(s[..|s| - 1]) * 10 + (s[|s| - 1] as int - '0' as int)
  }

  lemma {:induction false} NatToDecDigits(n: nat)
    ensures |NatToDec(n)| > 0 && AllDigits(NatToDec(n))
    decreases n
  {
    if n >= 10 { NatToDecDigits(n / 10); }
  }

  lemma {:induction false} NatDecRoundTrip(n: nat)
    ensures AllDigits(NatToDec(n)) && DecToNat(NatToDec(n)) == n
    decreases n
  {
    NatToDecDigits(n);
    if n >= 10 {
      var s := NatToDec(n);
      NatDecRoundTrip(n / 10);
      assert s[..|s| - 1] == NatToDec(n / 10);
    }
  }

  /** Go's %d / strconv.FormatInt for base 10. */
  function IntToDec(x: int): string
  {
    if x < 0 then "-" + NatToDec(-x) else NatToDec(x)
  }

  lemma IntToDecChars(x: int)
    ensures forall i :: 0 <= i < |IntToDec(x)| ==> IsDigit(IntToDec(x)[i]) || IntToDec(x)[i] == '-'
  {
    NatToDecDigits(if x < 0 then -x else x);
  }

  /** strconv.ParseInt(s, 10, ...) without the range check: an optional sign then at least one digit. */
  function ParseInt(s: string): (r: Option<int>)
  {
    if |s| == 0 then None
    else if s[0] == '-' || s[0] == '+' then
      if |s| > 1 && AllDigits(s[1..]) then
        Some(if s[0] == '-' then -(DecToNat(s[1..]) as int) else DecToNat(s[1..]))
      else None
    else if AllDigits(s) then Some(DecToNat(s))
    else None
  }

  lemma IntDecRoundTrip(x: int)
    ensures ParseInt(IntToDec(x)) == Some(x)
  {
    var n: nat := if x < 0 then -x else x;
    NatDecRoundTrip(n);
    NatToDecDigits(n);
    if x < 0 {
      assert IntToDec(x)[1..] == NatToDec(n);
    } else {
      assert IsDigit(NatToDec(n)[0]);
    }
  }

  /** The number of bytes of the UTF-8 encoding of `c`. */
  function Utf8Len(c: char): (n: nat)
    ensures 1 <= n <= 4
    ensures n == 1 <==> (c as int) < 0x80
  {
    if (c as int) < 0x80 then 1
    else if (c as int) < 0x800 then 2
    else if (c as int) < 0x1_0000 then 3
    else 4
  }

  /** Go's len(s): the UTF-8 byte length. */
  function ByteLength(s: string): (n: nat)
    ensures n >= |s|
    ensures n == |s| <==> forall i :: 0 <= i < |s| ==> (s[i] as int) < 0x80
  {
    if |s| == 0 then 0 else Utf8Len(s[0]) + ByteLength(s[1..])
  }

  /** The first byte of the UTF-8 encoding of `c`. */
  function FirstUtf8Byte(c: char): (b: nat)
    ensures b < 256
    ensures (c as int) < 0x80 ==> b == c as int
  {
    if (c as int) < 0x80 then c as int
    else if (c as int) < 0x800 then 0xC0 + (c as int) / 0x40
    else if (c as int) < 0x1_0000 then 0xE0 + (c as int) / 0x1000
    else 0xF0 + (c as int) / 0x4_0000
  }
}
