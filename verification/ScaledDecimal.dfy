/** Decimal strings and 18-digit scaled integers, as in tools/reconcile-chain-truth.js. */
module ScaledDecimal {
  import opened Wrappers
  import opened DecimalText

  const SCALE: nat := 18
  const BASE: nat := 1_000_000_000_000_000_000

  lemma BaseIsPower()
    ensures BASE == Pow(10, SCALE)
  {
    calc {
      Pow(10, 18);
      10 * (10 * (10 * (10 * (10 * (10 * Pow(10, 12))))));
      1000000 * (10 * (10 * (10 * (10 * (10 * (10 * Pow(10, 6)))))));
      1000000000000 * (10 * (10 * (10 * (10 * (10 * (10 * Pow(10, 0)))))));
    }
  }

  /** The index of the first occurrence of c, or the length of s if there is none. */
  function IndexOf(s: string, c: char): (i: nat)
    ensures i <= |s|
    ensures forall j :: 0 <= j < i ==> s[j] != c
    ensures i < |s| ==> s[i] == c
  {
    if s == "" || s[0] == c then 0 else 1 + IndexOf(s[1..], c)
  }

  /** The first two parts of `unsigned.split('.')`; a missing second part defaults to "". */
  function WholePart(unsigned: string): string {
    unsigned[..IndexOf(unsigned, '.')]
  }

  function FractionPart(unsigned: string): string {
    var i := IndexOf(unsigned, '.');
    if i == |unsigned| then "" else
    var rest := unsigned[i + 1..];
    rest[..IndexOf(rest, '.')]
  }

  predicate IsNegative(raw: string) {
    raw != "" && raw[0] == '-'
  }

  function Unsigned(raw: string): string {
    if IsNegative(raw) then raw[1..] else raw
  }

  /** The fraction padded with zeros and cut to exactly SCALE characters. */
  function PaddedFraction(fraction: string): (s: string)
    ensures |s| == SCALE
  {
    (fraction + Zeros(SCALE))[..SCALE]
  }

  /** None is the SyntaxError thrown when either part is not an integer literal. */
  function DecimalToScaled(value: Option<string>): Option<int> {
    if value.None? || value.value == "" then Some(0) else
    var raw := value.value;
    var unsigned := Unsigned(raw);
    var whole := WholePart(unsigned);
    match (BigIntOf(if whole == "" then "0" else whole), BigIntOf(PaddedFraction(FractionPart(unsigned))))
    case (Some(w), Some(f)) =>
      var scaled := w * BASE + f;
      Some(if IsNegative(raw) then -scaled else scaled)
    case (_, _) => None
  }

  function PadStart(s: string, width: nat): string {
    if |s| < width then Zeros(width - |s|) + s else s
  }

  function StripTrailingZeros(s: string): (t: string)
    ensures |t| <= |s| && t == s[..|t|]
    ensures forall i :: |t| <= i < |s| ==> s[i] == '0'
    ensures t != "" ==> t[|t| - 1] != '0'
  {
    if s != "" && s[|s| - 1] == '0' then StripTrailingZeros(s[..|s| - 1]) else s
  }

  /** The fraction digits printed for a remainder r: at most SCALE, the last of them not zero. */
  function FractionDigits(r: nat): string {
    StripTrailingZeros(PadStart(NatToString(r), SCALE))
  }

  function WithFraction(whole: string, fraction: string): string {
    if fraction != "" then whole + "." + fraction else whole
  }

  function WithSign(negative: bool, unsigned: string): string {
    if negative then "-" + unsigned else unsigned
  }

  function Magnitude(value: int): nat {
    if value < 0 then -value else value
  }

  function Print(negative: bool, whole: nat, fraction: nat): string {
    WithSign(negative, WithFraction(NatToString(whole), FractionDigits(fraction)))
  }

  function ScaledToDecimal(value: int): string {
    Print(value < 0, Magnitude(value) / BASE, Magnitude(value) % BASE)
  }

  // ----- how a string with one decimal point is taken apart -----

  lemma {:induction false} IndexOfDigits(w: string, rest: string)
    requires AllDigits(w, 10)
    ensures IndexOf(w + rest, '.') == |w| + IndexOf(rest, '.')
  {
    if w == "" {
      assert w + rest == rest;
    } else {
      assert DigitValue(w[0]) < 10;
      assert AllDigits(w[1..], 10);
      IndexOfDigits(w[1..], rest);
      assert (w + rest)[1..] == w[1..] + rest;
    }
  }

  lemma SplitAt(w: string, f: string)
    requires AllDigits(w, 10) && AllDigits(f, 10)
    ensures WholePart(w) == w && FractionPart(w) == ""
    ensures WholePart(w + "." + f) == w && FractionPart(w + "." + f) == f
  {
    IndexOfDigits(w, "");
    assert w + "" == w;
    IndexOfDigits(f, "");
    assert f + "" == f;
    var s := w + "." + f;
    IndexOfDigits(w, "." + f);
    assert s == w + ("." + f);
    assert s[|w| + 1..] == f;
  }

  /** The integer that digits `w` before the point and `f` after it are scaled to. */
  function Scaled(w: string, f: string): nat {
    Val(w, 10) * BASE + Val(PaddedFraction(f), 10)
  }

  function Signed(negative: bool, n: int): int {
    if negative then -n else n
  }

  /** Both parts of an unsigned decimal string, the point written or not. */
  function Pointed(w: string, f: string, point: bool): string {
    if point then w + "." + f else w
  }

  lemma RawParts(negative: bool, w: string, f: string, point: bool)
    requires AllDigits(w, 10) && AllDigits(f, 10) && (!point ==> f == "")
    requires w != "" || point
    ensures var raw := WithSign(negative, Pointed(w, f, point));
            && raw != "" && IsNegative(raw) == negative && Unsigned(raw) == Pointed(w, f, point)
            && WholePart(Unsigned(raw)) == w && FractionPart(Unsigned(raw)) == f
  {
    var body := Pointed(w, f, point);
    SplitAt(w, f);
    assert body != "" && body[0] != '-' by {
      if w != "" {
        assert DigitValue(w[0]) < 10 && body[0] == w[0];
      }
    }
    assert negative ==> WithSign(negative, body)[1..] == body;
  }

  lemma PartValues(w: string, f: string)
    requires AllDigits(w, 10) && AllDigits(f, 10)
    ensures BigIntOf(if w == "" then "0" else w) == Some(Val(w, 10))
    ensures BigIntOf(PaddedFraction(f)) == Some(Val(PaddedFraction(f), 10))
  {
    assert AllDigits(PaddedFraction(f), 10);
    BigIntOfDigits(PaddedFraction(f));
    if w == "" {
      BigIntOfDigits("0");
      assert Val("0", 10) == 0 by { assert "0"[..0] == ""; }
    } else {
      BigIntOfDigits(w);
    }
  }

  lemma ParseDigits(negative: bool, w: string, f: string, point: bool)
    requires AllDigits(w, 10) && AllDigits(f, 10) && (!point ==> f == "")
    requires w != "" || point
    ensures DecimalToScaled(Some(WithSign(negative, Pointed(w, f, point)))) == Some(Signed(negative, Scaled(w, f)))
  {
    hide Val, BigIntOf, WholePart, FractionPart, Unsigned, IsNegative, WithSign, Pointed, PaddedFraction;
    RawParts(negative, w, f, point);
    PartValues(w, f);
  }

  // ----- printing then parsing -----

  lemma StripPadded(s: string)
    requires |s| == SCALE
    ensures PaddedFraction(StripTrailingZeros(s)) == s
  {
    var t := StripTrailingZeros(s);
    var p := (t + Zeros(SCALE))[..SCALE];
    forall i | 0 <= i < SCALE ensures p[i] == s[i] {
      if i < |t| { assert t[i] == s[i]; }
    }
    assert p == s;
  }

  lemma ValAfterZeros(n: nat, s: string)
    ensures Val(Zeros(n) + s, 10) == Val(s, 10)
  {
    ValConcat(Zeros(n), s, 10);
    ValZeros(n, 10);
    assert 0 * Pow(10, |s|) == 0;
  }

  lemma PadStartValue(r: nat, width: nat)
    requires width > 0 && r < Pow(10, width)
    ensures var p := PadStart(NatToString(r), width);
            |p| == width && AllDigits(p, 10) && Val(p, 10) == r
  {
    hide NatToString, Val, Pow;
    NatToStringLength(r, width);
    NatToStringValue(r);
    ValAfterZeros(width - |NatToString(r)|, NatToString(r));
  }

  lemma FractionDigitsValue(r: nat)
    requires r < BASE
    ensures AllDigits(FractionDigits(r), 10) && |FractionDigits(r)| <= SCALE
    ensures Val(PaddedFraction(FractionDigits(r)), 10) == r
  {
    BaseIsPower();
    PadStartValue(r, SCALE);
    StripPadded(PadStart(NatToString(r), SCALE));
  }

  lemma ParsePrinted(negative: bool, whole: nat, fraction: nat)
    requires fraction < BASE
    ensures DecimalToScaled(Some(Print(negative, whole, fraction))) ==
            Some(Signed(negative, whole * BASE + fraction))
  {
    hide NatToString, FractionDigits, Val, DecimalToScaled;
    var w, f := NatToString(whole), FractionDigits(fraction);
    NatToStringValue(whole);
    FractionDigitsValue(fraction);
    assert WithFraction(w, f) == Pointed(w, f, f != "");
    ParseDigits(negative, w, f, f != "");
  }

  /** Parsing what was printed gives the integer back, whatever its sign and size. */
  lemma PrintThenParse(value: int)
    ensures DecimalToScaled(Some(ScaledToDecimal(value))) == Some(value)
  {
    var whole, fraction := Magnitude(value) / BASE, Magnitude(value) % BASE;
    assert Signed(value < 0, whole * BASE + fraction) == value;
    hide DecimalToScaled, Print;
    ParsePrinted(value < 0, whole, fraction);
  }

  // ----- parsing then printing -----

  /**
    The strings in fixed form: an optional minus sign, a whole part with no superfluous leading
    zero, an optional point with 1 to 18 fraction digits of which the last is not zero, and no
    minus sign on zero.
  */
  predicate Canonical(s: string) {
    var u := Unsigned(s);
    var i := IndexOf(u, '.');
    && CanonicalNat(u[..i])
    && (i < |u| ==> CanonicalFraction(u[i + 1..]) && u[i + 1..] != "")
    && (IsNegative(s) ==> u != "0")
  }

  predicate CanonicalFraction(f: string) {
    |f| <= SCALE && AllDigits(f, 10) && (f != "" ==> f[|f| - 1] != '0')
  }

  lemma PrintedIsCanonical(negative: bool, whole: nat, fraction: nat)
    requires fraction < BASE && !(negative && whole == 0 && fraction == 0)
    ensures Canonical(Print(negative, whole, fraction))
  {
    var w, f := NatToString(whole), FractionDigits(fraction);
    NatToStringValue(whole);
    FractionDigitsValue(fraction);
    SplitAt(w, f);
    RawParts(negative, w, f, f != "");
    var body := Pointed(w, f, f != "");
    assert body[..|w|] == w;
    if f != "" {
      assert body[|w| + 1..] == f;
    } else {
      ValZeros(SCALE, 10);
      assert PaddedFraction("") == Zeros(SCALE);
      assert Val("0", 10) == 0 by { assert "0"[..0] == ""; }
    }
  }

  lemma PrintsCanonical(value: int)
    ensures Canonical(ScaledToDecimal(value))
  {
    PrintedIsCanonical(value < 0, Magnitude(value) / BASE, Magnitude(value) % BASE);
  }

  /** Stripping the padded canonical fraction gives the fraction back. */
  lemma {:induction false} StripZerosAfter(f: string, n: nat)
    requires f == "" || f[|f| - 1] != '0'
    ensures StripTrailingZeros(f + Zeros(n)) == f
  {
    if n == 0 {
      assert f + Zeros(0) == f;
    } else {
      StripZerosAfter(f, n - 1);
      assert (f + Zeros(n))[..|f| + n - 1] == f + Zeros(n - 1);
    }
  }

  lemma LastDigit(a: string, b: string)
    requires a != "" && b != "" && Val(a, 10) == Val(b, 10)
    requires DigitValue(a[|a| - 1]) < 10 && DigitValue(b[|b| - 1]) < 10
    ensures a[|a| - 1] == b[|b| - 1] && Val(a[..|a| - 1], 10) == Val(b[..|b| - 1], 10)
  {
    assert DigitValue(a[|a| - 1]) == Val(a, 10) % 10;
    assert DigitValue(b[|b| - 1]) == Val(b, 10) % 10;
  }

  lemma {:induction false} SameLengthSameValue(a: string, b: string)
    requires |a| == |b| && AllDigits(a, 10) && AllDigits(b, 10) && Val(a, 10) == Val(b, 10)
    ensures a == b
  {
    if a != "" {
      var n := |a| - 1;
      LastDigit(a, b);
      SameLengthSameValue(a[..n], b[..n]);
      assert a == a[..n] + [a[n]] && b == b[..n] + [b[n]];
    }
  }

  lemma FractionDigitsUnique(f: string)
    requires CanonicalFraction(f)
    ensures Val(PaddedFraction(f), 10) < BASE
    ensures FractionDigits(Val(PaddedFraction(f), 10)) == f
  {
    hide Val, Pow, NatToString, PadStart, StripTrailingZeros;
    var p := PaddedFraction(f);
    assert p == f + Zeros(SCALE - |f|);
    assert AllDigits(p, 10);
    ValBound(p, 10);
    BaseIsPower();
    var r := Val(p, 10);
    PadStartValue(r, SCALE);
    SameLengthSameValue(PadStart(NatToString(r), SCALE), p);
    StripZerosAfter(f, SCALE - |f|);
  }

  lemma PrintSigned(negative: bool, whole: nat, fraction: nat)
    requires fraction < BASE && !(negative && whole == 0 && fraction == 0)
    ensures ScaledToDecimal(Signed(negative, whole * BASE + fraction)) == Print(negative, whole, fraction)
  {
    hide Print;
    var n := whole * BASE + fraction;
    assert Magnitude(Signed(negative, n)) == n;
    assert n / BASE == whole && n % BASE == fraction;
  }

  lemma PrintsParts(negative: bool, w: string, f: string)
    requires CanonicalNat(w) && CanonicalFraction(f) && !(negative && w == "0" && f == "")
    ensures ScaledToDecimal(Signed(negative, Scaled(w, f))) == WithSign(negative, WithFraction(w, f))
  {
    hide NatToString, FractionDigits, Val, PaddedFraction, ScaledToDecimal;
    FractionDigitsUnique(f);
    CanonicalNatUnique(w);
    FractionOfZero();
    PrintSigned(negative, Val(w, 10), Val(PaddedFraction(f), 10));
  }

  /** A canonical string taken apart. */
  lemma CanonicalParts(s: string) returns (negative: bool, w: string, f: string, point: bool)
    requires Canonical(s)
    ensures CanonicalNat(w) && CanonicalFraction(f) && (!point ==> f == "") && !(negative && w == "0" && f == "")
    ensures Pointed(w, f, point) == WithFraction(w, f) && s == WithSign(negative, WithFraction(w, f))
  {
    hide IndexOf, CanonicalNat, CanonicalFraction;
    var u := Unsigned(s);
    negative := IsNegative(s);
    var i := IndexOf(u, '.');
    w, point := u[..i], i < |u|;
    if point {
      f := u[i + 1..];
      assert u == w + "." + f;
    } else {
      f := "";
      assert CanonicalFraction(f) by { NoFraction(); }
    }
    assert WithSign(negative, u) == s;
  }

  lemma NoFraction()
    ensures CanonicalFraction("")
  {
  }

  lemma CanonicalParsePrint(s: string)
    requires Canonical(s)
    ensures DecimalToScaled(Some(s)).Some?
    ensures ScaledToDecimal(DecimalToScaled(Some(s)).value) == s
  {
    hide DecimalToScaled, ScaledToDecimal, Scaled, WithSign, WithFraction, Pointed, Canonical;
    var negative, w, f, point := CanonicalParts(s);
    ParseDigits(negative, w, f, point);
    PrintsParts(negative, w, f);
  }

  lemma FractionOfZero()
    ensures FractionDigits(0) == "" && NatToString(0) == "0"
  {
    StripZerosAfter("", SCALE);
    assert PadStart("0", SCALE) == "" + Zeros(SCALE);
  }

  /** Parsing then printing is the identity on exactly the canonical strings. */
  lemma ParseThenPrint(s: string)
    ensures Canonical(s) <==>
            DecimalToScaled(Some(s)).Some? && ScaledToDecimal(DecimalToScaled(Some(s)).value) == s
  {
    if Canonical(s) {
      CanonicalParsePrint(s);
    } else if DecimalToScaled(Some(s)).Some? {
      PrintsCanonical(DecimalToScaled(Some(s)).value);
    }
  }

  // ----- more than 18 fraction digits -----

  /** The integer `kept` is v * base / n rounded down. */
  predicate RoundsDown(kept: nat, v: nat, base: nat, n: nat) {
    kept * n <= v * base < (kept + 1) * n
  }

  /** Cutting a fraction at `width` digits loses less than one unit of the last digit kept. */
  lemma CutFraction(f: string, width: nat)
    requires AllDigits(f, 10)
    ensures RoundsDown(Val((f + Zeros(width))[..width], 10), Val(f, 10), Pow(10, width), Pow(10, |f|))
  {
    var kept, rest := (f + Zeros(width))[..width], (f + Zeros(width))[width..];
    assert f + Zeros(width) == kept + rest;
    ValBound(rest, 10);
    ValConcat(kept, rest, 10);
    ValConcat(f, Zeros(width), 10);
    ValZeros(width, 10);
  }

  lemma ScaleUp(w: nat, v: nat, kept: nat, n: nat)
    requires RoundsDown(kept, v, BASE, n)
    ensures RoundsDown(w * BASE + kept, w * n + v, BASE, n)
  {
    assert (w * BASE) * n == (w * n) * BASE;
  }

  /**
    A string of digits with a fraction f of any length denotes Val(w + f) / 10^|f|. The magnitude
    parsed from it is that number of units of 10^-18, rounded toward zero: never above the exact
    value, and short of it by less than one unit.
  */
  lemma TruncatesTowardZero(negative: bool, w: string, f: string)
    requires AllDigits(w, 10) && AllDigits(f, 10)
    ensures DecimalToScaled(Some(WithSign(negative, w + "." + f))) == Some(Signed(negative, Scaled(w, f)))
    ensures Scaled(w, f) * Pow(10, |f|) <= Val(w + f, 10) * BASE < (Scaled(w, f) + 1) * Pow(10, |f|)
  {
    ParseDigits(negative, w, f, true);
    assert Pointed(w, f, true) == w + "." + f;
    ScaledBounds(w, f);
  }

  lemma ScaledBounds(w: string, f: string)
    requires AllDigits(w, 10) && AllDigits(f, 10)
    ensures RoundsDown(Scaled(w, f), Val(w + f, 10), BASE, Pow(10, |f|))
  {
    hide Val, Pow, Zeros, RoundsDown;
    BaseIsPower();
    assert PaddedFraction(f) == (f + Zeros(SCALE))[..SCALE];
    CutFraction(f, SCALE);
    ValConcat(w, f, 10);
    ScaleUp(Val(w, 10), Val(f, 10), Val(PaddedFraction(f), 10), Pow(10, |f|));
  }
}
