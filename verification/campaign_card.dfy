/** The fundraising-campaign card (components/CampaignCard.tsx): the progress
    percentage, the width and colour of the progress bar and the "Goal Reached"
    badge. Amounts are in cents; the percentage is computed in exact real
    arithmetic. */
module CampaignCard {

  /** The fields of a `Campaign` the card computes with. */
  datatype Campaign = Campaign(title: string, goal_amount: int, current_amount: int)

  /** The progress percentage: 0 without a positive goal, otherwise the share of
      the goal raised, times 100. */
  function Progress(current: int, goal: int): (p: real)
    ensures goal <= 0 ==> p == 0.0
    ensures goal > 0 ==> p * goal as real == current as real * 100.0
  {
    if goal > 0 then (current as real / goal as real) * 100.0 else 0.0
  }

  /** `Math.min(progress, 100)`: the bar's width in percent. */
  function BarWidth(progress: real): (width: real)
    ensures width <= 100.0
    ensures width == progress || width == 100.0
    ensures progress <= 100.0 ==> width == progress
  {
    if progress < 100.0 then progress else 100.0
  }

  predicate GoalReached(progress: real) {
    progress >= 100.0
  }

  const ReachedColor: string := "#10b981"
  const InProgressColor: string := "#3b82f6"

  /** The bar's colour: green once the goal is reached, blue before; the
      contract states both directions of that choice. */
  function BarColor(progress: real): (color: string)
    ensures color == ReachedColor <==> GoalReached(progress)
    ensures color == InProgressColor <==> !GoalReached(progress)
  {
    if GoalReached(progress) then ReachedColor else InProgressColor
  }

  /** What the card derives from a campaign. */
  datatype ProgressView = ProgressView(
    barWidth: real,
    barColor: string,
    percentage: real,
    showsGoalReached: bool)

  function View(campaign: Campaign): ProgressView {
    var progress := Progress(campaign.current_amount, campaign.goal_amount);
    ProgressView(BarWidth(progress), BarColor(progress), progress, GoalReached(progress))
  }

  /** With a positive goal the bar turns green and the badge appears exactly when
      the amount raised has reached the goal; without one they never appear. */
  lemma GoalReachedIffFunded(campaign: Campaign)
    ensures var v := View(campaign);
      && (v.showsGoalReached <==> v.barColor == ReachedColor)
      && (campaign.goal_amount > 0 ==>
            (v.showsGoalReached <==> campaign.current_amount >= campaign.goal_amount))
      && (campaign.goal_amount <= 0 ==> !v.showsGoalReached && v.barWidth == 0.0)
  {
    var c := campaign.current_amount as real;
    var g := campaign.goal_amount as real;
    if campaign.goal_amount > 0 {
      var p := Progress(campaign.current_amount, campaign.goal_amount);
      assert p * g == c * 100.0;
      if p >= 100.0 {
        assert p * g >= 100.0 * g;
      } else {
        assert p * g < 100.0 * g;
      }
    }
  }

  /** The bar never exceeds 100%, and it is full exactly when the goal is reached;
      there is no lower clamp, so only an amount raised that is not negative
      keeps it at 0% or more. */
  lemma BarWidthBounds(campaign: Campaign)
    ensures var v := View(campaign);
      && v.barWidth <= 100.0
      && (v.barWidth == 100.0 <==> v.showsGoalReached)
      && (campaign.current_amount >= 0 ==> v.barWidth >= 0.0)
  {
    var c := campaign.current_amount as real;
    var g := campaign.goal_amount as real;
    if campaign.goal_amount > 0 && campaign.current_amount >= 0 {
      var p := Progress(campaign.current_amount, campaign.goal_amount);
      assert p * g == c * 100.0 >= 0.0;
    }
  }

  /** The percentage printed next to the bar is not clamped: an over-funded
      campaign shows more than 100%, while its bar stops at 100%. A negative
      amount raised gives a negative bar width. */
  lemma ShownPercentageIsNotClamped()
    ensures View(Campaign("", 200, 300)).percentage == 150.0
    ensures View(Campaign("", 200, 300)).barWidth == 100.0
    ensures View(Campaign("", 100, -50)).barWidth == -50.0
  {
  }

  /** Raising more never lowers the progress shown. */
  lemma ProgressMonotone(goal: int, less: int, more: int)
    requires less <= more
    ensures Progress(less, goal) <= Progress(more, goal)
  {
    if goal > 0 {
      var g := goal as real;
      var p := Progress(less, goal);
      var q := Progress(more, goal);
      assert p * g <= q * g;
    }
  }
}
