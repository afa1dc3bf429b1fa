/** FileUtils.formatFileSize: choose a unit by powers of 1024 and render the
    size with two decimals (bytes are shown as a plain integer). The double
    arithmetic of `String.format("%.2f", ...)` is modelled as half-up rounding
    of the exact quotient to hundredths. */
module FileUtils {
  import opened Text

  datatype SizeUnit = B | KB | MB | GB

  /** Units in increasing order. */
  function Rank(u: SizeUnit): nat {
    match u
    case B => 0
    case KB => 1
    case MB => 2
    case GB => 3
  }

  /** How many bytes one of the unit is. */
  function Scale(u: SizeUnit): nat {
    match u
    case B => 1
    case KB => 1024
    case MB => 1024 * 1024
    case GB => 1024 * 1024 * 1024
  }

  function UnitName(u: SizeUnit): string {
    match u
    case B => "B"
    case KB => "KB"
    case MB => "MB"
    case GB => "GB"
  }

  /** The first threshold the byte count stays below picks the unit. */
  function SelectUnit(bytes: int): SizeUnit {
    if bytes < 1024 then B
    else if bytes < 1024 * 1024 then KB
    else if bytes < 1024 * 1024 * 1024 then MB
    else GB
  }

  /** bytes / scale, rounded half-up to hundredths, counted in hundredths. */
  function Hundredths(bytes: nat, scale: nat): nat
    requires scale > 0
  {
    (200 * bytes + scale) / (2 * scale)
  }

  /** A count of hundredths written "<integer>.<two digits>". */
  function TwoDecimals(h: nat): string {
    NatToString(h / 100) + "." + [DigitChar(h % 100 / 10), DigitChar(h % 10)]
  }

  function FormatFileSize(bytes: int): string {
    if bytes < 1024 then IntToString(bytes) + " B"
    else
      var u := SelectUnit(bytes);
      TwoDecimals(Hundredths(bytes, Scale(u))) + " " + UnitName(u)
  }

  /** A larger byte count never selects a smaller unit. */
  lemma UnitMonotone(a: int, b: int)
    requires a <= b
    ensures Rank(SelectUnit(a)) <= Rank(SelectUnit(b))
  {
  }

  /** Exact powers of 1024 land in the higher unit, and above bytes the shown
      number lies in [1, 1024) (without an upper bound for GB). */
  lemma UnitBrackets(bytes: int)
    ensures SelectUnit(bytes) == B <==> bytes < 1024
    ensures bytes >= 1024 ==> Scale(SelectUnit(bytes)) <= bytes
    ensures SelectUnit(bytes) != GB ==> bytes < 1024 * Scale(SelectUnit(bytes))
  {
  }

  /** The hundredths are the nearest ones to bytes*100/scale, a tie going up:
      bytes*100/scale - 1/2 < h <= bytes*100/scale + 1/2. */
  lemma HundredthsNearest(bytes: nat, scale: nat)
    requires scale > 0
    ensures var h := Hundredths(bytes, scale);
      -(scale as int) < 2 * (h * scale - 100 * bytes) <= scale
  {
    var x, d := 200 * bytes + scale, 2 * scale;
    var h, r := x / d, x % d;
    assert x == h * d + r && 0 <= r < d;
    assert h * d == 2 * (h * scale);
  }

  lemma TwoDecimalsParse(h: nat)
    ensures var s := TwoDecimals(h); var k := |s| - 3;
      && k >= 1 && s[k] == '.' && AllDigits(s[..k]) && AllDigits(s[k + 1..])
      && ParseNat(s[..k]) * 100 + ParseNat(s[k + 1..]) == h
  {
    var s := TwoDecimals(h);
    var k := |s| - 3;
    var i := NatToString(h / 100);
    assert s[..k] == i;
    ParseNatToString(h / 100);
    var frac := s[k + 1..];
    assert frac == [DigitChar(h % 100 / 10), DigitChar(h % 10)];
    assert frac[..1] == [DigitChar(h % 100 / 10)];
    assert frac[..1][..0] == [];
    assert ParseNat(frac[..1]) == h % 100 / 10;
    assert ParseNat(frac) == (h % 100 / 10) * 10 + h % 10;
    assert h % 10 == h % 100 % 10;
  }

  /** From 1024 bytes on, the text is "<integer>.<two digits> <unit>", and the
      number it reads as is bytes / 1024^k rounded half-up to hundredths. */
  lemma FormatFileSizeMeaning(bytes: int)
    requires bytes >= 1024
    ensures var s := FormatFileSize(bytes); var u := SelectUnit(bytes); var k := |s| - |UnitName(u)| - 4;
      && k >= 1
      && s[k + 3..] == " " + UnitName(u)
      && s[k] == '.' && AllDigits(s[..k]) && AllDigits(s[k + 1..k + 3])
      && var w := ParseNat(s[..k]) * 100 + ParseNat(s[k + 1..k + 3]);
         -(Scale(u) as int) < 2 * (w * Scale(u) - 100 * bytes) <= Scale(u)
  {
    var u := SelectUnit(bytes);
    var h := Hundredths(bytes, Scale(u));
    var t := TwoDecimals(h);
    var s := FormatFileSize(bytes);
    assert s == t + (" " + UnitName(u));
    var k := |s| - |UnitName(u)| - 4;
    assert k == |t| - 3;
    assert s[..k] == t[..k];
    assert s[k + 1..k + 3] == t[k + 1..];
    TwoDecimalsParse(h);
    HundredthsNearest(bytes, Scale(u));
  }

  /** Below 1024 the text is the integer itself and " B"; for a non-negative
      count the digits read back as the count. */
  lemma FormatBytes(bytes: int)
    requires bytes < 1024
    ensures FormatFileSize(bytes) == IntToString(bytes) + " B"
    ensures bytes >= 0 ==> var s := FormatFileSize(bytes);
      |s| >= 3 && AllDigits(s[..|s| - 2]) && ParseNat(s[..|s| - 2]) == bytes
  {
    if bytes >= 0 {
      var s := FormatFileSize(bytes);
      assert s[..|s| - 2] == NatToString(bytes);
      ParseNatToString(bytes);
    }
  }

  /** The outputs the source's unit tests expect. */
  lemma FormatFileSizeExamples()
    ensures FormatFileSize(0) == "0 B"
    ensures FormatFileSize(512) == "512 B"
    ensures FormatFileSize(1024) == "1.00 KB"
    ensures FormatFileSize(1536) == "1.50 KB"
  {
    assert NatToString(512) == NatToString(51) + ['2'];
    assert NatToString(51) == NatToString(5) + ['1'];
    assert Hundredths(1024, 1024) == 100;
    assert TwoDecimals(100) == "1.00";
    assert Hundredths(1536, 1024) == 150;
    assert TwoDecimals(150) == "1.50";
  }

  lemma FormatFileSizeLargeExamples()
    ensures FormatFileSize(1048576) == "1.00 MB"
    ensures FormatFileSize(2621440) == "2.50 MB"
    ensures FormatFileSize(1073741824) == "1.00 GB"
    ensures FormatFileSize(1610612736) == "1.50 GB"
    ensures FormatFileSize(5368709120) == "5.00 GB"
  {
    assert Hundredths(1048576, 1048576) == 100;
    assert Hundredths(2621440, 1048576) == 250;
    assert Hundredths(1073741824, 1073741824) == 100;
    assert Hundredths(1610612736, 1073741824) == 150;
    assert Hundredths(5368709120, 1073741824) == 500;
    assert TwoDecimals(100) == "1.00";
    assert TwoDecimals(250) == "2.50";
    assert TwoDecimals(150) == "1.50";
    assert TwoDecimals(500) == "5.00";
  }
}
