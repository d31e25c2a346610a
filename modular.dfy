/** Remainder arithmetic for the moduli the calendar uses (2, 10, 12, 24, 60).
    Every fact is derived from the uniqueness of the quotient and remainder,
    which keeps each proof linear. Python's % agrees with Dafny's % when the
    divisor is positive; Python's floored % for a negative divisor is PyMod. */
module Modular {

  lemma Mod2(x: int, q: int, r: int)
    requires 0 <= r < 2 && x == 2 * q + r
    ensures x % 2 == r
  {
  }

  lemma Mod10(x: int, q: int, r: int)
    requires 0 <= r < 10 && x == 10 * q + r
    ensures x % 10 == r
  {
  }

  lemma Mod12(x: int, q: int, r: int)
    requires 0 <= r < 12 && x == 12 * q + r
    ensures x % 12 == r
  {
  }

  lemma Mod24(x: int, q: int, r: int)
    requires 0 <= r < 24 && x == 24 * q + r
    ensures x % 24 == r
  {
  }

  lemma Mod60(x: int, q: int, r: int)
    requires 0 <= r < 60 && x == 60 * q + r
    ensures x % 60 == r
  {
  }

  /** Adding a whole number of cycles leaves a remainder unchanged. */
  lemma Shift2(x: int, c: int)
    ensures (x + 2 * c) % 2 == x % 2
  {
    Mod2(x + 2 * c, x / 2 + c, x % 2);
  }

  lemma Shift10(x: int, c: int)
    ensures (x + 10 * c) % 10 == x % 10
  {
    Mod10(x + 10 * c, x / 10 + c, x % 10);
  }

  lemma Shift12(x: int, c: int)
    ensures (x + 12 * c) % 12 == x % 12
  {
    Mod12(x + 12 * c, x / 12 + c, x % 12);
  }

  lemma Shift24(x: int, c: int)
    ensures (x + 24 * c) % 24 == x % 24
  {
    Mod24(x + 24 * c, x / 24 + c, x % 24);
  }

  lemma Shift60(x: int, c: int)
    ensures (x + 60 * c) % 60 == x % 60
  {
    Mod60(x + 60 * c, x / 60 + c, x % 60);
  }

  /** One step forward moves a remainder by 10 or by 12 one step forward. */
  lemma StepMod(x: int)
    ensures (x + 1) % 10 == (x % 10 + 1) % 10 && (x + 1) % 12 == (x % 12 + 1) % 12
  {
    var q, r := x / 10, x % 10;
    if r < 9 {
      Mod10(x + 1, q, r + 1);
    } else {
      Mod10(x + 1, q + 1, 0);
    }
    var q2, r2 := x / 12, x % 12;
    if r2 < 11 {
      Mod12(x + 1, q2, r2 + 1);
    } else {
      Mod12(x + 1, q2 + 1, 0);
    }
  }

  /** A remainder by 60 has the same remainders by 10 and by 12. */
  lemma ModOf60(x: int)
    ensures (x % 60) % 10 == x % 10 && (x % 60) % 12 == x % 12
  {
    var k, r := x / 60, x % 60;
    Mod10(x, 6 * k + r / 10, r % 10);
    Mod12(x, 5 * k + r / 12, r % 12);
  }

  /** Taking a remainder by 10 or by 12 keeps a number's parity. */
  lemma ModParity(x: int)
    ensures (x % 10) % 2 == x % 2 && (x % 12) % 2 == x % 2
  {
    var q, r := x / 10, x % 10;
    Mod2(x, 5 * q + r / 2, r % 2);
    var q2, r2 := x / 12, x % 12;
    Mod2(x, 6 * q2 + r2 / 2, r2 % 2);
  }

  lemma ParityOfSum(x: int, y: int)
    ensures (x + y) % 2 == (x % 2 + y % 2) % 2
  {
    var q, r := x / 2, x % 2;
    var q2, r2 := y / 2, y % 2;
    if r + r2 < 2 {
      Mod2(x + y, q + q2, r + r2);
    } else {
      Mod2(x + y, q + q2 + 1, 0);
    }
  }

  /** A stem index and a branch index of the same parity name exactly one
      position of the 60-cycle. */
  lemma CyclePosition(a: int, b: int) returns (p: int)
    requires 0 <= a < 10 && 0 <= b < 12 && a % 2 == b % 2
    ensures 0 <= p < 60 && p % 10 == a && p % 12 == b
  {
    ParityOfSum(a, -b);
    var h := (a - b) / 2;
    assert a - b == 2 * h;
    var c := if a + 10 * h < 0 then 1 else 0;
    p := a + 10 * h + 60 * c;
    Mod10(p, h + 6 * c, a);
    Mod12(p, h + 5 * c, b);
  }

  /** Python's x % m for a possibly negative divisor: the result takes the
      sign of the divisor, and differs from Dafny's remainder by m or by 0. */
  function PyMod(x: int, m: int): (r: int)
    requires m != 0
    ensures m > 0 ==> r == x % m
    ensures m < 0 ==> m < r <= 0 && (r == x % m || r == x % m + m)
  {
    if m > 0 || x % m == 0 then x % m else x % m + m
  }
}
