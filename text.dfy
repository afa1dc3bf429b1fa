/** Kotlin's renderings of values as text (`toString`, string templates,
    `joinToString`), with the parsers that invert them. */
module Text {
  import opened Wrappers

  predicate IsDigit(c: char) {
    '0' <= c <= '9'
  }

  predicate AllDigits(s: string) {
    forall i :: 0 <= i < |s| ==> IsDigit(s[i])
  }

  function DigitChar(d: nat): (c: char)
    requires d < 10
    ensures IsDigit(c) && DigitValue(c) == d
  {
    (('0' as int) + d) as char
  }

  function DigitValue(c: char): nat
    requires IsDigit(c)
  {
    (c as int) - ('0' as int)
  }

  /** Decimal rendering of a natural number, without leading zeros. */
  function NatToString(n: nat): (s: string)
    ensures |s| >= 1 && AllDigits(s)
    ensures |s| > 1 ==> s[0] != '0'
    decreases n
  {
    if n < 10 then [DigitChar(n)] else NatToString(n / 10) + [DigitChar(n % 10)]
  }

  /** Kotlin's `Long.toString()`: a minus sign, then the digits of the magnitude. */
  function IntToString(i: int): string {
    if i < 0 then "-" + NatToString(-i) else NatToString(i)
  }

  /** Kotlin's `Boolean.toString()`. */
  function BoolToString(b: bool): string {
    if b then "true" else "false"
  }

  /** A nullable string inside a string template: `"$x"` renders null as "null". */
  function NullableToString(x: Option<string>): string {
    if x.Some? then x.value else "null"
  }

  /** The value of a string of decimal digits (the inverse of NatToString). */
  function ParseNat(s: string): nat
    requires AllDigits(s)
  {
    if |s| == 0 then 0 else ParseNat(s[..|s| - 1]) * 10 + DigitValue(s[|s| - 1])
  }

  /** Reading back the decimal rendering of a number gives the number. */
  lemma {:induction false} ParseNatToString(n: nat)
    ensures ParseNat(NatToString(n)) == n
    decreases n
  {
    var s := NatToString(n);
    if n >= 10 {
      ParseNatToString(n / 10);
      assert s[..|s| - 1] == NatToString(n / 10);
    }
  }

  /** Kotlin's `List<String>.joinToString(sep)`. */
  function JoinToString(xs: seq<string>, sep: string): string {
    if |xs| == 0 then "" else if |xs| == 1 then xs[0] else xs[0] + sep + JoinToString(xs[1..], sep)
  }

  /** `needle` stands in `hay` starting at position k. */
  predicate OccursAt(hay: string, needle: string, k: int) {
    0 <= k <= |hay| - |needle| && hay[k..k + |needle|] == needle
  }

  /** `hay.contains(needle)`. */
  predicate Contains(hay: string, needle: string) {
    exists k :: 0 <= k <= |hay| && OccursAt(hay, needle, k)
  }

  lemma ContainsInConcat(a: string, b: string, c: string, needle: string)
    requires Contains(b, needle)
    ensures Contains(a + b + c, needle)
  {
    var k :| 0 <= k <= |b| && OccursAt(b, needle, k);
    var h := a + b + c;
    assert h[|a| + k..|a| + k + |needle|] == b[k..k + |needle|];
    assert OccursAt(h, needle, |a| + k);
  }

  /** Every joined element occurs in the joined text. */
  lemma {:induction false} JoinContains(xs: seq<string>, sep: string, i: nat)
    requires i < |xs|
    ensures Contains(JoinToString(xs, sep), xs[i])
    decreases |xs|
  {
    var j := JoinToString(xs, sep);
    if i == 0 {
      assert OccursAt(j, xs[0], 0);
    } else {
      JoinContains(xs[1..], sep, i - 1);
      ContainsInConcat(xs[0] + sep, JoinToString(xs[1..], sep), "", xs[i]);
      assert xs[0] + sep + JoinToString(xs[1..], sep) + "" == j;
    }
  }

  /** The joined text starts with the first element. */
  lemma JoinStartsWithFirst(xs: seq<string>, sep: string)
    requires |xs| > 0
    ensures |JoinToString(xs, sep)| >= |xs[0]|
    ensures JoinToString(xs, sep)[..|xs[0]|] == xs[0]
  {
  }
}
