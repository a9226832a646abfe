/**
 * AlcoholCalculator: pure alcohol = volume * abv / 100, rounded to one decimal
 * place the way `toFixed(1)` followed by `parseFloat` rounds it.
 */
module Calculator {

  /** r is a whole number of tenths. */
  ghost predicate IsTenths(r: real)
  {
    (r * 10.0).Floor as real == r * 10.0
  }

  /**
   * r is the multiple of 0.1 nearest to x; a tie goes away from zero, which is
   * what `toFixed(1)` does (it rounds the magnitude half up and keeps the sign).
   */
  ghost predicate NearestTenth(x: real, r: real)
  {
    IsTenths(r) &&
    if x >= 0.0 then r - 0.05 <= x < r + 0.05 else r - 0.05 < x <= r + 0.05
  }

  /** At most one value is the nearest tenth of x. */
  lemma NearestTenthUnique(x: real, r1: real, r2: real)
    requires NearestTenth(x, r1) && NearestTenth(x, r2)
    ensures r1 == r2
  {
    var n1, n2 := (r1 * 10.0).Floor, (r2 * 10.0).Floor;
    assert n1 as real - n2 as real < 1.0;
    assert n2 as real - n1 as real < 1.0;
    assert n1 == n2;
  }

  /** `parseFloat(x.toFixed(1))` on a finite number. */
  function RoundToTenths(x: real): (r: real)
    ensures NearestTenth(x, r)
  {
    if x >= 0.0 then
      var n := (x * 10.0 + 0.5).Floor;
      assert (n as real).Floor == n;
      n as real / 10.0
    else
      var n := (-x * 10.0 + 0.5).Floor;
      assert ((-n) as real).Floor == -n;
      -(n as real / 10.0)
  }

  /** AlcoholCalculator.calculatePureAlcohol(volume, abv). */
  function CalculatePureAlcohol(volume: real, abv: real): (r: real)
    ensures NearestTenth(volume * abv / 100.0, r)
  {
    RoundToTenths(volume * abv / 100.0)
  }

  /** No volume or no alcohol gives no pure alcohol. */
  lemma PureAlcoholOfZero(volume: real, abv: real)
    requires volume == 0.0 || abv == 0.0
    ensures CalculatePureAlcohol(volume, abv) == 0.0
  {
    assert volume * abv == 0.0;
    assert (0.0).Floor == 0;
    NearestTenthUnique(0.0, CalculatePureAlcohol(volume, abv), 0.0);
  }

  /** Non-negative inputs never give a negative amount. */
  lemma PureAlcoholNonNegative(volume: real, abv: real)
    requires volume >= 0.0 && abv >= 0.0
    ensures CalculatePureAlcohol(volume, abv) >= 0.0
  {
    var r := CalculatePureAlcohol(volume, abv);
    assert volume * abv >= 0.0;
    var n := (r * 10.0).Floor;
    assert n as real > -0.5;
  }

  /** 500 ml at 5 % is 25.0, 350 ml at 9 % is 31.5, 0 ml at 5 % is 0.0. */
  lemma PureAlcoholExamples()
    ensures CalculatePureAlcohol(500.0, 5.0) == 25.0
    ensures CalculatePureAlcohol(350.0, 9.0) == 31.5
    ensures CalculatePureAlcohol(0.0, 5.0) == 0.0
  {
    assert (250.0).Floor == 250;
    NearestTenthUnique(25.0, CalculatePureAlcohol(500.0, 5.0), 25.0);
    assert (315.0).Floor == 315;
    NearestTenthUnique(31.5, CalculatePureAlcohol(350.0, 9.0), 31.5);
    PureAlcoholOfZero(0.0, 5.0);
  }
}
