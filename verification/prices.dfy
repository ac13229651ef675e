/** The last-price tracker of `tracker.py`: it remembers the last price seen
    for each contract and reports the percentage move from it. */
module Prices {
  import opened Common

  /** The percentage move from `previous` to `price`; 0 when there is no
      previous price or it is zero (the guard against dividing by it). */
  function PercentChange(previous: Option<real>, price: real): (r: real)
    ensures previous.None? ==> r == 0.0
    ensures previous == Some(0.0) ==> r == 0.0
    ensures previous.Some? && previous.value != 0.0 ==>
      r * previous.value == (price - previous.value) * 100.0
  {
    match previous
    case None => 0.0
    case Some(p) => if p == 0.0 then 0.0 else (price - p) / p * 100.0
  }

  /** From a positive previous price the change is positive exactly when the
      price went up, negative exactly when it went down, and zero exactly when
      it did not move. */
  lemma ChangeFollowsPrice(previous: real, price: real)
    requires previous > 0.0
    ensures PercentChange(Some(previous), price) > 0.0 <==> price > previous
    ensures PercentChange(Some(previous), price) < 0.0 <==> price < previous
    ensures PercentChange(Some(previous), price) == 0.0 <==> price == previous
  {
    var r := PercentChange(Some(previous), price);
    assert r * previous == (price - previous) * 100.0;
    if r > 0.0 {
      assert r * previous > 0.0;
    } else if r < 0.0 {
      assert r * previous < 0.0;
    }
  }

  /** Applying the reported percentage to the previous price gives the new
      price back. */
  lemma ChangeRecoversPrice(previous: real, price: real)
    requires previous != 0.0
    ensures previous + previous * PercentChange(Some(previous), price) / 100.0 == price
  {
    var r := PercentChange(Some(previous), price);
    assert r * previous == (price - previous) * 100.0;
    assert previous * r / 100.0 == price - previous;
  }

  class PriceTracker {
    /** Last price seen per contract identifier. */
    var lastPrices: map<string, real>

    constructor ()
      ensures lastPrices == map[]
    {
      lastPrices := map[];
    }

    /** `update_and_get_change`: store `price` as the contract's last price
        and return the percentage move from the price it replaced. */
    method UpdateAndGetChange(contract: string, price: real) returns (change: real)
      modifies this
      ensures lastPrices == old(lastPrices)[contract := price]
      ensures change == PercentChange(Get(old(lastPrices), contract), price)
      ensures contract !in old(lastPrices) ==> change == 0.0
    {
      var previous := Get(lastPrices, contract);
      lastPrices := lastPrices[contract := price];
      if previous == None || previous == Some(0.0) {
        return 0.0;
      }
      change := (price - previous.value) / previous.value * 100.0;
    }
  }

  /** A contract quoted at 100 and then at 110: the first quote reports no
      change, the second a 10 percent rise. */
  method FirstAndSecondQuote() returns (first: real, second: real)
    ensures first == 0.0 && second == 10.0
  {
    var t := new PriceTracker();
    first := t.UpdateAndGetChange("AAPL", 100.0);
    second := t.UpdateAndGetChange("AAPL", 110.0);
  }
}
