/** Python's round(x, n) on exact numbers: to the nearest multiple of 10^-n, ties to the even one. */
module Rounding {
  function Nearest(y: real): int {
    var below := y.Floor;
    var rest := y - below as real;
    if rest < 0.5 || (rest == 0.5 && below % 2 == 0) then below else below + 1
  }

  function Round2(x: real): real {
    Nearest(x * 100.0) as real / 100.0
  }

  function Round6(x: real): real {
    Nearest(x * 1_000_000.0) as real / 1_000_000.0
  }

  function Round8(x: real): real {
    Nearest(x * 100_000_000.0) as real / 100_000_000.0
  }

  const HALF_UNIT_8 := 0.000_000_005
  const HALF_UNIT_2 := 0.005

  lemma RoundingError(x: real)
    ensures x - HALF_UNIT_8 <= Round8(x) <= x + HALF_UNIT_8
    ensures x - HALF_UNIT_2 <= Round2(x) <= x + HALF_UNIT_2
  {
  }

  lemma RoundingError6(x: real)
    ensures x - 0.000_000_5 <= Round6(x) <= x + 0.000_000_5
  {
  }

  lemma NearestMonotone(x: real, y: real)
    requires x <= y
    ensures Nearest(x) <= Nearest(y)
  {
    assert x.Floor <= y.Floor;
  }

  lemma RoundMonotone(x: real, y: real)
    requires x <= y
    ensures Round8(x) <= Round8(y) && Round2(x) <= Round2(y)
  {
    NearestMonotone(x * 100_000_000.0, y * 100_000_000.0);
    NearestMonotone(x * 100.0, y * 100.0);
  }

  lemma RoundZero()
    ensures Round8(0.0) == 0.0 && Round2(0.0) == 0.0
  {
  }

  /** A multiple of the unit is left alone. */
  lemma RoundFixed(x: real, cents: int)
    requires x == cents as real / 100.0
    ensures Round2(x) == x
  {
  }
}
