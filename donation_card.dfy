/** src/components/DonationCard.tsx: the progress percentage printed on a campaign card. */
module DonationCard {
  import opened Wrappers
  import opened Campaigns

  /** `(raised / goal) * 100` when the goal (null or 0 read as 0) is positive, else 0. */
  function PercentageValue(raised: Option<real>, goal: Option<real>): (p: real)
    ensures OrDefault(goal, 0.0) <= 0.0 ==> p == 0.0
    ensures OrDefault(goal, 0.0) > 0.0 ==> p * OrDefault(goal, 0.0) == OrDefault(raised, 0.0) * 100.0
  {
    var meta := OrDefault(goal, 0.0);
    var arrecadado := OrDefault(raised, 0.0);
    if meta > 0.0 then (arrecadado / meta) * 100.0 else 0.0
  }

  /** `Math.min(percentageValue, 100)`: an upper clamp only. */
  function Percentage(raised: Option<real>, goal: Option<real>): (p: real)
    ensures p <= 100.0
    ensures p == PercentageValue(raised, goal) || (p == 100.0 && PercentageValue(raised, goal) > 100.0)
  {
    var v := PercentageValue(raised, goal);
    if v < 100.0 then v else 100.0
  }

  /** `Math.round`: the nearest integer, halves rounding up. */
  function Round(x: real): (n: int)
    ensures n as real - 0.5 <= x < n as real + 0.5
  {
    (x + 0.5).Floor
  }

  lemma RoundMonotone(x: real, y: real)
    requires x <= y
    ensures Round(x) <= Round(y)
  {
  }

  /** The number printed before '%'. */
  function PercentageExibida(raised: Option<real>, goal: Option<real>): int {
    Round(Percentage(raised, goal))
  }

  /** A zero, negative or missing goal shows 0 without dividing. */
  lemma NoGoalShowsZero(raised: Option<real>, goal: Option<real>)
    requires OrDefault(goal, 0.0) <= 0.0
    ensures PercentageExibida(raised, goal) == 0
  {
  }

  /** The shown value never exceeds 100. */
  lemma NeverAboveHundred(raised: Option<real>, goal: Option<real>)
    ensures PercentageExibida(raised, goal) <= 100
  {
    RoundMonotone(Percentage(raised, goal), 100.0);
  }

  /** Reaching or passing a positive goal shows exactly 100. */
  lemma FundedShowsHundred(raised: Option<real>, goal: Option<real>)
    requires OrDefault(raised, 0.0) >= OrDefault(goal, 0.0) > 0.0
    ensures PercentageExibida(raised, goal) == 100
  {
    var g := OrDefault(goal, 0.0);
    var r := OrDefault(raised, 0.0);
    var p := PercentageValue(raised, goal);
    assert (p - 100.0) * g == (r - g) * 100.0;
    NonNegativeFactor(p - 100.0, g);
  }

  /** A product with a positive factor is non-negative only if the other factor is. */
  lemma NonNegativeFactor(x: real, g: real)
    requires g > 0.0 && x * g >= 0.0
    ensures x >= 0.0
  {
    assert x == (x * g) / g;
  }

  /** Non-negative inputs give a value between 0 and 100. */
  lemma NonNegativeInRange(raised: Option<real>, goal: Option<real>)
    requires OrDefault(raised, 0.0) >= 0.0
    ensures 0 <= PercentageExibida(raised, goal) <= 100
  {
    NeverAboveHundred(raised, goal);
    var g := OrDefault(goal, 0.0);
    if g > 0.0 {
      assert PercentageValue(raised, goal) * g >= 0.0;
    }
    RoundMonotone(0.0, Percentage(raised, goal));
  }

  /** More money raised towards the same goal never shows a smaller percentage. */
  lemma MonotoneInRaised(r1: real, r2: real, goal: Option<real>)
    requires 0.0 <= r1 <= r2
    ensures PercentageExibida(Some(r1), goal) <= PercentageExibida(Some(r2), goal)
  {
    var g := OrDefault(goal, 0.0);
    if g > 0.0 {
      var p1 := PercentageValue(Some(r1), goal);
      var p2 := PercentageValue(Some(r2), goal);
      assert (p2 - p1) * g == (r2 - r1) * 100.0;
      NonNegativeFactor(p2 - p1, g);
    }
    RoundMonotone(Percentage(Some(r1), goal), Percentage(Some(r2), goal));
  }

  /** Half a percent shows as 1: the value is rounded, not truncated. */
  lemma HalfPercentShowsOne()
    ensures PercentageExibida(Some(1.0), Some(200.0)) == 1
  {
    assert PercentageValue(Some(1.0), Some(200.0)) == 0.5;
  }

  /** 0.9 percent shows as 1; a truncating rule would show 0. */
  lemma NinetyHundredthsShowsOne()
    ensures PercentageExibida(Some(9.0), Some(1000.0)) == 1
  {
    assert PercentageValue(Some(9.0), Some(1000.0)) == 0.9;
  }
}
