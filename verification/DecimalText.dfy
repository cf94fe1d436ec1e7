/**
  Positional notation: what a string of digits denotes, how a natural number is written in
  base ten, and the reading JavaScript's BigInt constructor gives to a string.
*/
module DecimalText {
  import opened Wrappers

  function Pow(base: nat, n: nat): (p: nat)
    ensures base > 0 ==> p > 0
  {
    if n == 0 then 1 else base * Pow(base, n - 1)
  }

  function Zeros(n: nat): (s: string)
    ensures |s| == n
    ensures forall i :: 0 <= i < n ==> s[i] == '0'
  {
    seq(n, i => '0')
  }

  /** The value of a digit character; 36 for a character that is no digit in any base used here. */
  function DigitValue(c: char): nat {
    if '0' <= c <= '9' then c as int - '0' as int
    else if 'a' <= c <= 'f' then c as int - 'a' as int + 10
    else if 'A' <= c <= 'F' then c as int - 'A' as int + 10
    else 36
  }

  predicate AllDigits(s: string, base: nat) {
    forall i :: 0 <= i < |s| ==> DigitValue(s[i]) < base
  }

  /** The number a string of digits denotes, most significant digit first. */
  function Val(s: string, base: nat): nat {
    if s == "" then 0 else Val(s[..|s| - 1], base) * base + DigitValue(s[|s| - 1])
  }

  function DigitChar(d: nat): (c: char)
    requires d < 10
    ensures DigitValue(c) == d && '0' <= c <= '9'
  {
    "0123456789"[d]
  }

  function NatToString(n: nat): (s: string)
    ensures |s| > 0
  {
    if n < 10 then [DigitChar(n)] else NatToString(n / 10) + [DigitChar(n % 10)]
  }

  // ----- laws of positional notation -----

  lemma MulRegroup(x: nat, y: nat, z: nat, p: nat, base: nat)
    ensures (x * p + z) * base == x * (base * p) + z * base
    ensures y < base && z < p ==> z * base + y < base * p
  {
    assert (x * p) * base == x * (base * p);
    if y < base && z < p {
      assert (z + 1) * base <= p * base;
    }
  }

  lemma {:induction false} ValConcat(a: string, b: string, base: nat)
    ensures Val(a + b, base) == Val(a, base) * Pow(base, |b|) + Val(b, base)
  {
    if b == "" {
      assert a + b == a;
    } else {
      var front, d := b[..|b| - 1], DigitValue(b[|b| - 1]);
      ValConcat(a, front, base);
      assert (a + b)[..|a + b| - 1] == a + front;
      MulRegroup(Val(a, base), d, Val(front, base), Pow(base, |front|), base);
    }
  }

  lemma {:induction false} ValBound(s: string, base: nat)
    requires AllDigits(s, base)
    ensures Val(s, base) < Pow(base, |s|)
  {
    if s != "" {
      var front, d := s[..|s| - 1], DigitValue(s[|s| - 1]);
      ValBound(front, base);
      MulRegroup(0, d, Val(front, base), Pow(base, |front|), base);
    }
  }

  lemma {:induction false} ValZeros(n: nat, base: nat)
    ensures Val(Zeros(n), base) == 0
  {
    if n > 0 {
      ValZeros(n - 1, base);
      assert Zeros(n)[..n - 1] == Zeros(n - 1);
    }
  }

  lemma {:induction false} ValPositive(s: string, base: nat)
    requires base > 0 && s != "" && DigitValue(s[0]) > 0
    ensures Val(s, base) > 0
  {
    if |s| > 1 {
      ValPositive(s[..|s| - 1], base);
      assert Val(s[..|s| - 1], base) * base > 0;
    }
  }

  // ----- base ten -----

  /** A natural number in base ten with no superfluous leading zero. */
  predicate CanonicalNat(s: string) {
    s != "" && AllDigits(s, 10) && (|s| > 1 ==> s[0] != '0')
  }

  lemma {:induction false} NatToStringValue(n: nat)
    ensures CanonicalNat(NatToString(n))
    ensures Val(NatToString(n), 10) == n
    ensures n > 0 ==> NatToString(n)[0] != '0'
  {
    var s := NatToString(n);
    if n < 10 {
      assert s[..0] == "";
    } else {
      NatToStringValue(n / 10);
      assert s[..|s| - 1] == NatToString(n / 10);
    }
  }

  lemma LastOfTen(front: nat, d: nat)
    requires d < 10
    ensures (front * 10 + d) / 10 == front && (front * 10 + d) % 10 == d
  {
  }

  lemma {:induction false} CanonicalNatUnique(s: string)
    requires CanonicalNat(s)
    ensures NatToString(Val(s, 10)) == s
  {
    var front, d := s[..|s| - 1], DigitValue(s[|s| - 1]);
    if |s| == 1 {
      assert front == "";
      assert s == [DigitChar(d)];
    } else {
      assert front[0] == s[0] && s[0] != '0';
      ValPositive(front, 10);
      CanonicalNatUnique(front);
      LastOfTen(Val(front, 10), d);
      assert s == front + [DigitChar(d)];
    }
  }

  lemma {:induction false} NatToStringLength(n: nat, width: nat)
    requires n < Pow(10, width) && width > 0
    ensures |NatToString(n)| <= width
  {
    if n >= 10 {
      assert width > 1 by { assert Pow(10, 1) == 10 * Pow(10, 0); }
      assert n / 10 < Pow(10, width - 1);
      NatToStringLength(n / 10, width - 1);
    }
  }

  // ----- JavaScript BigInt(string) -----

  /** The characters JavaScript trims from both ends of a numeric string. */
  predicate IsWhitespace(c: char) {
    var u := c as int;
    9 <= u <= 13 || u == 0x20 || u == 0xA0 || u == 0x1680 || 0x2000 <= u <= 0x200A
    || u == 0x2028 || u == 0x2029 || u == 0x202F || u == 0x205F || u == 0x3000 || u == 0xFEFF
  }

  function TrimLeft(s: string): string {
    if s != "" && IsWhitespace(s[0]) then TrimLeft(s[1..]) else s
  }

  function TrimRight(s: string): string {
    if s != "" && IsWhitespace(s[|s| - 1]) then TrimRight(s[..|s| - 1]) else s
  }

  function DigitsToNat(s: string, base: nat): Option<int> {
    if s != "" && AllDigits(s, base) then Some(Val(s, base)) else None
  }

  /** None stands for the SyntaxError that BigInt throws. */
  function BigIntOf(s: string): Option<int> {
    var t := TrimRight(TrimLeft(s));
    if t == "" then Some(0)
    else if |t| > 2 && t[0] == '0' && t[1] in "bB" then DigitsToNat(t[2..], 2)
    else if |t| > 2 && t[0] == '0' && t[1] in "oO" then DigitsToNat(t[2..], 8)
    else if |t| > 2 && t[0] == '0' && t[1] in "xX" then DigitsToNat(t[2..], 16)
    else if t[0] == '+' then DigitsToNat(t[1..], 10)
    else if t[0] == '-' then
      (match DigitsToNat(t[1..], 10) case Some(n) => Some(-n) case None => None)
    else DigitsToNat(t, 10)
  }

  /** On plain decimal digits BigInt is the denoted number, leading zeros or not. */
  lemma BigIntOfDigits(s: string)
    requires AllDigits(s, 10)
    ensures BigIntOf(s) == Some(Val(s, 10))
  {
    if s != "" {
      assert DigitValue(s[0]) < 10 && DigitValue(s[|s| - 1]) < 10;
      assert |s| > 1 ==> DigitValue(s[1]) < 10;
    }
  }

  predicate Blank(s: string) {
    forall i :: 0 <= i < |s| ==> IsWhitespace(s[i])
  }

  lemma {:induction false} TrimLeftBlank(l: string, s: string)
    requires Blank(l)
    ensures TrimLeft(l + s) == TrimLeft(s)
  {
    if l == "" {
      assert l + s == s;
    } else {
      TrimLeftBlank(l[1..], s);
      assert (l + s)[1..] == l[1..] + s;
    }
  }

  lemma {:induction false} TrimRightBlank(s: string, r: string)
    requires Blank(r)
    ensures TrimRight(s + r) == TrimRight(s)
  {
    if r == "" {
      assert s + r == s;
    } else {
      TrimRightBlank(s, r[..|r| - 1]);
      assert (s + r)[..|s + r| - 1] == s + r[..|r| - 1];
    }
  }

  lemma {:induction false} TrimLeftBefore(s: string, r: string)
    requires Blank(r)
    ensures TrimRight(TrimLeft(s + r)) == TrimRight(TrimLeft(s))
  {
    if s == "" {
      assert s + r == r && r + "" == r && "" + r == r;
      TrimLeftBlank(r, "");
    } else if IsWhitespace(s[0]) {
      TrimLeftBefore(s[1..], r);
      assert (s + r)[1..] == s[1..] + r;
    } else {
      TrimRightBlank(s, r);
    }
  }

  /** White space around a number does not matter. */
  lemma BigIntIgnoresBlanks(l: string, s: string, r: string)
    requires Blank(l) && Blank(r)
    ensures BigIntOf(l + s + r) == BigIntOf(s)
  {
    hide IsWhitespace;
    assert l + s + r == l + (s + r);
    TrimLeftBlank(l, s + r);
    TrimLeftBefore(s, r);
  }

  const HEX := "0123456789abcdef"
  const HEX_CAPITALS := "0123456789ABCDEF"

  /** The sixteen digits in order, in either case; no other character is a digit in any base. */
  lemma DigitValues(c: char)
    ensures forall d :: 0 <= d < 16 ==> DigitValue(HEX[d]) == DigitValue(HEX_CAPITALS[d]) == d
    ensures DigitValue(c) < 16 <==> c in HEX || c in HEX_CAPITALS
  {
    if '0' <= c <= '9' {
      assert HEX[DigitValue(c)] == c;
    } else if 'a' <= c <= 'f' {
      assert HEX[DigitValue(c)] == c;
    } else if 'A' <= c <= 'F' {
      assert HEX_CAPITALS[DigitValue(c)] == c;
    }
  }

  /** A text that neither begins nor ends with white space, and is not empty. */
  predicate Trimmed(t: string) {
    t != "" && !IsWhitespace(t[0]) && !IsWhitespace(t[|t| - 1])
  }

  /** A number after a sign is read in base ten with that sign, and is an error if it is not all digits. */
  lemma BigIntOfSigned(t: string)
    requires Trimmed(t) && (t[0] == '+' || t[0] == '-')
    ensures BigIntOf(t) == if |t| == 1 || !AllDigits(t[1..], 10) then None
                           else if t[0] == '-' then Some(0 - Val(t[1..], 10)) else Some(Val(t[1..], 10))
  {
    hide AllDigits, Val;
  }

  /** The base that the letter after a leading zero stands for. */
  function BaseOf(mark: char): Option<nat> {
    if mark == 'x' || mark == 'X' then Some(16)
    else if mark == 'o' || mark == 'O' then Some(8)
    else if mark == 'b' || mark == 'B' then Some(2)
    else None
  }

  /** A number after 0x, 0o or 0b is read in base 16, 8 or 2, and is an error if it has other digits. */
  lemma BigIntOfPrefixed(t: string)
    requires Trimmed(t) && |t| > 2 && t[0] == '0' && BaseOf(t[1]).Some?
    ensures var base := BaseOf(t[1]).value;
            BigIntOf(t) == if AllDigits(t[2..], base) then Some(Val(t[2..], base)) else None
  {
    hide AllDigits, Val;
  }

  /** Anything else is read in base ten, and is an error if it has other characters than the ten digits. */
  lemma BigIntOfOthers(t: string)
    requires Trimmed(t) && t[0] != '+' && t[0] != '-' && (|t| > 2 && t[0] == '0' ==> BaseOf(t[1]).None?)
    ensures BigIntOf(t) == if AllDigits(t, 10) then Some(Val(t, 10)) else None
  {
    hide AllDigits, Val;
  }
}
