// Decimal arithmetic as the ledger uses it: exact numbers, and rounding half
// away from zero to a number of decimal places (Round and DivRound of the
// decimal library). Every other module takes its rounding facts from here.
module Decimals {

  function Pow10(places: nat): (r: real)
    ensures r >= 1.0
  {
    if places == 0 then 1.0 else 10.0 * Pow10(places - 1)
  }

  /** The smallest amount with this many places: one minor unit. */
  function Unit(places: nat): (r: real)
    ensures r > 0.0
  {
    1.0 / Pow10(places)
  }

  function Abs(x: real): (r: real)
    ensures r >= 0.0
  {
    if x < 0.0 then -x else x
  }

  function Sign(x: real): int {
    if x > 0.0 then 1 else if x < 0.0 then -1 else 0
  }

  /** The nearest integer; a tie goes away from zero. */
  function Nearest(x: real): int {
    if x >= 0.0 then (x + 0.5).Floor else -((0.5 - x).Floor)
  }

  /** The nearest multiple of 1/p. */
  function RoundTo(x: real, p: real): real
    requires p >= 1.0
  {
    Nearest(x * p) as real / p
  }

  function Round(x: real, places: nat): real {
    RoundTo(x, Pow10(places))
  }

  function Times(x: real, y: real): real {
    x * y
  }

  function DivRound(x: real, y: real, places: nat): real
    requires y != 0.0
  {
    Round(x / y, places)
  }

  predicate Whole(x: real) {
    x.Floor as real == x
  }

  predicate MultipleOf(x: real, p: real) {
    Whole(x * p)
  }

  /** x is a whole number of minor units. */
  predicate OnGrid(x: real, places: nat) {
    MultipleOf(x, Pow10(places))
  }

  /** The line rules' precision test: rounding changes nothing. */
  predicate HasPrecision(x: real, places: nat) {
    x == Round(x, places)
  }

  // ----- nearest integer -----

  lemma NearestOdd(x: real)
    ensures Nearest(-x) == -Nearest(x)
  {
    assert 0.5 - (-x) == x + 0.5;
  }

  lemma NearestHalf(x: real)
    ensures -0.5 <= Nearest(x) as real - x <= 0.5
  {
    if x >= 0.0 {
      var f := (x + 0.5).Floor;
      assert f as real <= x + 0.5 < f as real + 1.0;
    } else {
      var f := (0.5 - x).Floor;
      assert f as real <= 0.5 - x < f as real + 1.0;
      assert Nearest(x) as real == -(f as real);
    }
  }

  lemma NearestWhole(x: real)
    requires Whole(x)
    ensures Nearest(x) as real == x
  {
    var k := x.Floor;
    if x < 0.0 {
      assert (0.5 - x).Floor == -k;
    } else {
      assert (x + 0.5).Floor == k;
    }
  }

  lemma NearestMonotone(x: real, y: real)
    requires x <= y
    ensures Nearest(x) <= Nearest(y)
  {
    NearestHalf(x);
    NearestHalf(y);
    if x >= 0.0 {
      assert (x + 0.5).Floor <= (y + 0.5).Floor;
    } else if y < 0.0 {
      assert (0.5 - y).Floor <= (0.5 - x).Floor;
    }
  }

  lemma NearestTie(x: real)
    requires Nearest(x) as real - x == 0.5
    ensures x > 0.0
  {
    var f := (0.5 - x).Floor;
  }

  lemma WholeFrom(x: real, k: int)
    requires x == k as real
    ensures Whole(x)
  {
  }

  lemma WholeSum(x: real, y: real)
    requires Whole(x) && Whole(y)
    ensures Whole(x + y) && Whole(x - y) && Whole(-x)
  {
    WholeFrom(x + y, x.Floor + y.Floor);
    WholeFrom(x - y, x.Floor - y.Floor);
    WholeFrom(-x, -x.Floor);
  }

  // ----- scaling by p > 0, kept apart from the rest -----

  lemma Rescale(n: real, p: real)
    requires p > 0.0
    ensures n / p * p == n
    ensures n * p / p == n
    ensures -n / p == -(n / p)
    ensures -n * p == -(n * p)
  {
  }

  lemma MulMonotone(a: real, b: real, p: real)
    requires p > 0.0 && a <= b
    ensures a * p <= b * p
  {
    assert (b - a) * p >= 0.0;
  }

  lemma DivMonotone(a: real, b: real, p: real)
    requires p > 0.0 && a <= b
    ensures a / p <= b / p
  {
    Rescale(a, p);
    Rescale(b, p);
    if b / p < a / p {
      MulStrict(b / p, a / p, p);
      assert false;
    }
  }

  lemma MulStrict(a: real, b: real, p: real)
    requires p > 0.0 && a < b
    ensures a * p < b * p
  {
    assert (b - a) * p > 0.0;
  }

  lemma DivMinus(n: real, x: real, p: real)
    requires p > 0.0
    ensures n / p - x == (n - x * p) / p
  {
    Rescale(x, p);
    DivSub(n, x * p, p);
  }

  lemma DivSub(a: real, b: real, p: real)
    requires p > 0.0
    ensures a / p - b / p == (a - b) / p
    ensures a / p + b / p == (a + b) / p
  {
  }

  // ----- rounding to a multiple of 1/p -----

  lemma RoundToOdd(x: real, p: real)
    requires p >= 1.0
    ensures RoundTo(-x, p) == -RoundTo(x, p)
  {
    NearestOdd(x * p);
    Rescale(x, p);
    Rescale(Nearest(x * p) as real, p);
  }

  lemma RoundToMultiple(x: real, p: real)
    requires p >= 1.0
    ensures MultipleOf(RoundTo(x, p), p)
  {
    MultipleFrom(RoundTo(x, p), Nearest(x * p), p);
  }

  lemma MultipleFrom(y: real, n: int, p: real)
    requires p >= 1.0 && y == n as real / p
    ensures MultipleOf(y, p)
  {
    Rescale(n as real, p);
    assert y * p == n as real;
    WholeFrom(y * p, n);
  }

  lemma RoundToIdentity(x: real, p: real)
    requires p >= 1.0
    ensures MultipleOf(x, p) <==> RoundTo(x, p) == x
  {
    if MultipleOf(x, p) {
      NearestWhole(x * p);
      Rescale(x, p);
    }
    RoundToMultiple(x, p);
  }

  lemma RoundToMonotone(x: real, y: real, p: real)
    requires p >= 1.0 && x <= y
    ensures RoundTo(x, p) <= RoundTo(y, p)
  {
    MulMonotone(x, y, p);
    NearestMonotone(x * p, y * p);
    DivMonotone(Nearest(x * p) as real, Nearest(y * p) as real, p);
  }

  lemma RoundToHalf(x: real, p: real)
    requires p >= 1.0
    ensures Abs(RoundTo(x, p) - x) <= 1.0 / p / 2.0
  {
    var n := Nearest(x * p) as real;
    NearestHalf(x * p);
    DivMinus(n, x, p);
    DivMonotone(n - x * p, 0.5, p);
    DivMonotone(-0.5, n - x * p, p);
    DivSub(0.5, 0.5, p);
    Rescale(0.5, p);
  }

  /** A tie goes up only from above zero. */
  lemma RoundToTie(x: real, p: real)
    requires p >= 1.0 && RoundTo(x, p) - x == 1.0 / p / 2.0
    ensures x > 0.0
  {
    var n := Nearest(x * p);
    Rescale(1.0, p);
    Rescale(n as real, p);
    Distribute(RoundTo(x, p), x, p);
    assert (1.0 / p / 2.0) * p == 0.5;
    assert n as real - x * p == 0.5;
    NearestTie(x * p);
    if x <= 0.0 {
      MulMonotone(x, 0.0, p);
      assert false;
    }
  }

  lemma MultipleSum(x: real, y: real, p: real)
    requires MultipleOf(x, p) && MultipleOf(y, p)
    ensures MultipleOf(x + y, p) && MultipleOf(-x, p) && MultipleOf(x - y, p)
  {
    WholeSum(x * p, y * p);
    Distribute(x, y, p);
  }

  lemma Distribute(x: real, y: real, p: real)
    ensures (x + y) * p == x * p + y * p
    ensures (x - y) * p == x * p - y * p
    ensures -x * p == -(x * p)
  {
  }

  lemma MultipleGap(x: real, p: real)
    requires p >= 1.0 && MultipleOf(x, p) && x != 0.0
    ensures Abs(x) >= 1.0 / p
  {
    var k := (x * p).Floor;
    Rescale(x, p);
    Rescale(1.0, p);
    if k >= 1 {
      DivMonotone(1.0, x * p, p);
    } else if k <= -1 {
      DivMonotone(x * p, -1.0, p);
    } else {
      assert false;
    }
  }

  // ----- the facts every module uses -----

  lemma RoundOdd(x: real, places: nat)
    ensures Round(-x, places) == -Round(x, places)
  {
    RoundToOdd(x, Pow10(places));
  }

  lemma RoundOnGrid(x: real, places: nat)
    ensures OnGrid(Round(x, places), places)
  {
    RoundToMultiple(x, Pow10(places));
  }

  lemma DivRoundOnGrid(x: real, y: real, places: nat)
    requires y != 0.0
    ensures OnGrid(DivRound(x, y, places), places)
  {
    RoundOnGrid(x / y, places);
  }

  lemma RoundIdentity(x: real, places: nat)
    ensures HasPrecision(x, places) <==> OnGrid(x, places)
  {
    RoundToIdentity(x, Pow10(places));
  }

  lemma RoundMonotone(x: real, y: real, places: nat)
    requires x <= y
    ensures Round(x, places) <= Round(y, places)
  {
    RoundToMonotone(x, y, Pow10(places));
  }

  lemma RoundHalfUnit(x: real, places: nat)
    ensures Abs(Round(x, places) - x) <= Unit(places) / 2.0
  {
    RoundToHalf(x, Pow10(places));
  }

  lemma RoundTie(x: real, places: nat)
    ensures Round(x, places) - x == Unit(places) / 2.0 ==> x > 0.0
    ensures Round(x, places) - x == -Unit(places) / 2.0 ==> x < 0.0
  {
    hide RoundTo;
    if Round(x, places) - x == Unit(places) / 2.0 {
      RoundToTie(x, Pow10(places));
    }
    if Round(x, places) - x == -Unit(places) / 2.0 {
      RoundOdd(x, places);
      RoundToTie(-x, Pow10(places));
    }
  }

  /** Rounding gives the one amount on the grid within half a unit; of two as
      near, the one away from zero. */
  lemma RoundIs(x: real, y: real, places: nat)
    ensures y == Round(x, places) <==>
      OnGrid(y, places) && Abs(y - x) <= Unit(places) / 2.0 &&
      (y - x == Unit(places) / 2.0 ==> x > 0.0) && (y - x == -Unit(places) / 2.0 ==> x < 0.0)
  {
    hide Round, OnGrid, Unit;
    var r := Round(x, places);
    RoundOnGrid(x, places);
    RoundHalfUnit(x, places);
    RoundTie(x, places);
    if OnGrid(y, places) && y != r {
      GridClosed(y, r, places);
      GridGap(y - r, places);
    }
  }

  lemma GridZero(places: nat)
    ensures OnGrid(0.0, places) && Round(0.0, places) == 0.0
  {
    assert 0.0 * Pow10(places) == 0.0;
    RoundIdentity(0.0, places);
  }

  lemma RoundSign(x: real, places: nat)
    ensures x >= 0.0 ==> Round(x, places) >= 0.0
    ensures x <= 0.0 ==> Round(x, places) <= 0.0
  {
    GridZero(places);
    if x >= 0.0 { RoundMonotone(0.0, x, places); }
    if x <= 0.0 { RoundMonotone(x, 0.0, places); }
  }

  lemma GridClosed(x: real, y: real, places: nat)
    requires OnGrid(x, places) && OnGrid(y, places)
    ensures OnGrid(x + y, places) && OnGrid(-x, places) && OnGrid(x - y, places)
  {
    MultipleSum(x, y, Pow10(places));
  }

  /** On the grid, anything not zero is at least one minor unit. */
  lemma GridGap(x: real, places: nat)
    requires OnGrid(x, places) && x != 0.0
    ensures Abs(x) >= Unit(places)
  {
    MultipleGap(x, Pow10(places));
  }

  lemma TenTimes(x: real, p: real)
    requires MultipleOf(x, p)
    ensures MultipleOf(x, 10.0 * p)
  {
    var n := (x * p).Floor;
    assert x * (10.0 * p) == 10.0 * (x * p);
    WholeFrom(x * (10.0 * p), 10 * n);
  }

  /** A grid lies within every finer one. */
  lemma {:induction false} GridFiner(x: real, places: nat, more: nat)
    requires OnGrid(x, places) && places <= more
    ensures OnGrid(x, more)
    decreases more
  {
    hide MultipleOf;
    if places < more {
      GridFiner(x, places, more - 1);
      TenTimes(x, Pow10(more - 1));
    }
  }

  // ----- errors of several roundings -----

  /** n half units: what n roundings can add up to. */
  function HalfUnits(n: nat, places: nat): real {
    n as real / 2.0 * Unit(places)
  }

  lemma HalfUnitsStep(n: nat, places: nat)
    ensures HalfUnits(n + 1, places) == HalfUnits(n, places) + Unit(places) / 2.0
    ensures HalfUnits(0, places) == 0.0
  {
    hide Unit;
    var u := Unit(places);
    assert (n + 1) as real / 2.0 == n as real / 2.0 + 0.5;
    assert (n as real / 2.0 + 0.5) * u == n as real / 2.0 * u + 0.5 * u;
  }

  lemma TimesFacts(x: real, y: real, r: real)
    ensures Times(x + y, r) == Times(x, r) + Times(y, r)
    ensures Times(-x, r) == -Times(x, r)
    ensures Times(0.0, r) == 0.0
    ensures Times(x, 1.0) == x
  {
  }
}
