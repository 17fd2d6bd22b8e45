/** src/screens/DonationDetail.tsx: the progress bar of the campaign detail screen. */
module DonationDetail {
  import opened Wrappers
  import opened Campaigns

  /** `meta_doacoes || 1`. */
  function Meta(goal: Option<real>): (m: real)
    ensures m != 0.0
    ensures goal.None? || goal.value == 0.0 ==> m == 1.0
    ensures goal.Some? && goal.value != 0.0 ==> m == goal.value
  {
    OrDefault(goal, 1.0)
  }

  /** `meta > 0 ? arrecadado / meta : 0`, with `arrecadado = valor_levantado || 0`. */
  function Progress(raised: Option<real>, goal: Option<real>): (p: real)
    ensures Meta(goal) > 0.0 ==> p * Meta(goal) == OrDefault(raised, 0.0)
    ensures Meta(goal) < 0.0 ==> p == 0.0
  {
    var meta := Meta(goal);
    var arrecadado := OrDefault(raised, 0.0);
    if meta > 0.0 then arrecadado / meta else 0.0
  }

  /** A missing or zero goal reads as 1, so the progress is the raised amount itself. */
  lemma NoGoalProgressIsRaised(raised: Option<real>, goal: Option<real>)
    requires OrDefault(goal, 0.0) == 0.0
    ensures Progress(raised, goal) == OrDefault(raised, 0.0)
  {
  }

  /** For a positive goal the bar is full (progress at least 1) exactly when the goal is reached. */
  lemma FullIffFunded(raised: Option<real>, goal: real)
    requires goal > 0.0
    ensures Progress(raised, Some(goal)) >= 1.0 <==> OrDefault(raised, 0.0) >= goal
  {
    var p := Progress(raised, Some(goal));
    assert (p - 1.0) * goal == OrDefault(raised, 0.0) - goal;
    SignOfFactor(p - 1.0, goal);
  }

  /** With a positive factor, a product has the sign of the other factor. */
  lemma SignOfFactor(x: real, g: real)
    requires g > 0.0
    ensures x >= 0.0 <==> x * g >= 0.0
  {
    assert x == (x * g) / g;
  }

  /** There is no clamp: raising 150 towards 100 gives 1.5. */
  lemma ProgressNotClamped()
    ensures Progress(Some(150.0), Some(100.0)) == 1.5
  {
  }

  /** A negative goal gives progress 0. */
  lemma NegativeGoalNoProgress(raised: Option<real>, goal: real)
    requires goal < 0.0
    ensures Progress(raised, Some(goal)) == 0.0
  {
  }
}
