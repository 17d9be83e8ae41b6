/**
 * Prices of game money: the fixed rates, the exact Robux and dollar prices,
 * and the Robux total the bot quotes (rounded to a multiple of 50).
 */
module Pricing {

  import opened Numerals

  /** Dollars per 100 000 of game money. */
  const UsdPer100k: real := 1.5
  /** Robux per 100 000 of game money. */
  const RobuxPer100k: nat := 150
  /** The largest amount of game money one order may ask for. */
  const MaxMoney: nat := 1750000

  /** The Robux price of `gameMoney`, exactly (generally not a whole number). */
  function ExactRobux(gameMoney: nat): (p: real)
    ensures p * 2000.0 == (3 * gameMoney) as real
  {
    gameMoney as real / 100000.0 * RobuxPer100k as real
  }

  /** `closestRobux`: the exact Robux price rounded to the nearest multiple of 50, halves upward. */
  function ClosestRobux(gameMoney: nat): (r: nat)
    ensures r % 50 == 0
    ensures ExactRobux(gameMoney) - 25.0 < r as real <= ExactRobux(gameMoney) + 25.0
  {
    var q := Round(ExactRobux(gameMoney) / 50.0);
    q * 50
  }

  /** On whole amounts the quote is 50 * ((3 * g + 50000) div 100000), in integer arithmetic. */
  lemma ClosestRobuxIntegerForm(gameMoney: nat)
    ensures ClosestRobux(gameMoney) == 50 * ((3 * gameMoney + 50000) / 100000)
  {
    var r := ClosestRobux(gameMoney);
    var q := (3 * gameMoney + 50000) / 100000;
    assert q * 100000 <= 3 * gameMoney + 50000 < q * 100000 + 100000;
    assert (r * 2000) as real - 50000.0 <= (3 * gameMoney) as real < (r * 2000) as real + 50000.0;
  }

  /** Amounts below 16 667 are quoted 0 Robux, and only those. */
  lemma ClosestRobuxZero(gameMoney: nat)
    ensures ClosestRobux(gameMoney) == 0 <==> gameMoney < 16667
  {
    ClosestRobuxIntegerForm(gameMoney);
  }

  /** A larger amount is never quoted fewer Robux. */
  lemma ClosestRobuxMonotone(g: nat, h: nat)
    requires g <= h
    ensures ClosestRobux(g) <= ClosestRobux(h)
  {
    ClosestRobuxIntegerForm(g);
    ClosestRobuxIntegerForm(h);
  }

  /** The dollar price of `gameMoney`, exactly: 3 cents per 2000 of game money. */
  function CashUsd(gameMoney: nat): (usd: real)
    ensures usd * 100.0 * 2000.0 == (3 * gameMoney) as real
  {
    gameMoney as real / 100000.0 * UsdPer100k
  }

  /** The dollar price rounded to whole cents, as the reply prints it with two decimals. */
  function CashCents(gameMoney: nat): (cents: nat)
    ensures (cents as real) - 0.5 <= CashUsd(gameMoney) * 100.0 < (cents as real) + 0.5
  {
    var c := Round(CashUsd(gameMoney) * 100.0);
    c
  }

  lemma RobuxQuoteFor700k()
    ensures ClosestRobux(700000) == 1050
  {
    ClosestRobuxIntegerForm(700000);
  }

  lemma CashQuoteForMax()
    ensures CashUsd(MaxMoney) == 26.25 && CashCents(MaxMoney) == 2625
  {
  }
}
