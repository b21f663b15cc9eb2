/**
 Session costs in US dollars. A float stands for the decimal its `str` prints; the table column
 keeps ten digits, six of them after the point, and refuses what does not fit.
 */
module Costs {
  import opened Common

  const UNITS := 1000000.0

  /** To the nearest micro-dollar, halves away from zero. */
  function Round(x: real): real {
    if x >= 0.0 then (x * UNITS + 0.5).Floor as real / UNITS
    else 0.0 - (0.5 - x * UNITS).Floor as real / UNITS
  }

  function Rounded(cost: Option<real>): Option<real> {
    if cost.Some? then Some(Round(cost.value)) else None
  }

  /** The column can take the cost; otherwise the statement fails. */
  predicate Fits(cost: Option<real>) {
    cost.Some? ==> -10000.0 < Round(cost.value) < 10000.0
  }

  /** The column holds exactly this cost. */
  predicate Storable(cost: Option<real>) { Fits(cost) && Rounded(cost) == cost }

  lemma WholeUnits(n: int)
    requires n >= 0
    ensures (n as real / UNITS * UNITS + 0.5).Floor == n
  {}

  /** What the column gives back it takes back unchanged, and nothing moves by more than half a unit. */
  lemma RoundStable(x: real)
    ensures Round(Round(x)) == Round(x)
    ensures x - 0.0000005 <= Round(x) <= x + 0.0000005
  {
    var n := if x >= 0.0 then (x * UNITS + 0.5).Floor else (0.5 - x * UNITS).Floor;
    WholeUnits(n);
    assert Round(x) == (if x >= 0.0 then n as real / UNITS else 0.0 - n as real / UNITS);
  }

  /** The one whole number of micro-dollars nearest to the cost; a half goes away from zero. */
  lemma RoundIs(x: real, y: real)
    requires x >= 0.0
    ensures y == Round(x) <==> (y * UNITS).Floor as real == y * UNITS && x - 0.0000005 < y <= x + 0.0000005
    ensures Round(0.0 - x) == 0.0 - Round(x)
  {
    RoundStable(x);
    WholeUnits((x * UNITS + 0.5).Floor);
    if (y * UNITS).Floor as real == y * UNITS && x - 0.0000005 < y <= x + 0.0000005 {
      assert (y * UNITS).Floor == (x * UNITS + 0.5).Floor;
    }
  }

  /** What the column refuses: ten thousand dollars and more, after rounding. */
  lemma FitsIff(x: real)
    ensures Fits(Some(x)) <==> -9999.9999995 < x < 9999.9999995
  {
    var n := if x >= 0.0 then (x * UNITS + 0.5).Floor else (0.5 - x * UNITS).Floor;
    assert Round(x) == (if x >= 0.0 then n as real / UNITS else 0.0 - n as real / UNITS);
    assert n as real / UNITS < 10000.0 <==> n < 10000000000;
  }

  lemma RoundedStorable(cost: Option<real>)
    requires Fits(cost)
    ensures Storable(Rounded(cost))
  {
    if cost.Some? { RoundStable(cost.value); }
  }

  /** A cost the service may be given that the column does not hold: an SDK cost with eight decimals. */
  lemma FinerCost()
    ensures Fits(Some(0.00347775)) && Round(0.00347775) == 0.003478 && !Storable(Some(0.00347775))
  {
    assert 0.00347775 * UNITS + 0.5 == 3478.25;
  }
}
