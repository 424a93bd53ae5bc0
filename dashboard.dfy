/** The derived figures of the dashboard endpoint: the monthly budget, the
    relative date shown next to each recent expense, the quick insights,
    and the per-suggestion and per-category mappings. The sums and lists
    they start from are query results and come in as values. */
module Dashboard {
  import opened Common
  import opened Store

  /** `x || 0` on an aggregate sum or an optional figure: absent counts as 0. */
  function OrZero(x: Option<real>): real
  {
    if x.Some? then x.value else 0.0
  }

  /** `Math.max(monthlyExpenseTotal * 1.2, 2500)`: a 20% buffer over this
      month's spending, never below 2500. */
  function MonthlyBudget(monthlyExpenseTotal: real): (budget: real)
    ensures budget >= 2500.0 && budget >= 1.2 * monthlyExpenseTotal
    ensures budget == 2500.0 || budget == 1.2 * monthlyExpenseTotal
  {
    Max(monthlyExpenseTotal * 1.2, 2500.0)
  }

  // ---------------------------------------------------------------------
  // Relative dates

  /** `Math.ceil(Math.abs(now - date) / msPerDay)`: whole days apart, rounded up. */
  function DaysApart(now: int, date: int): (d: nat)
    ensures (d - 1) * MsPerDay < Abs((now - date) as real).Floor <= d * MsPerDay
  {
    var diff := if now >= date then now - date else date - now;
    assert Abs((now - date) as real).Floor == diff;
    CeilDiv(diff, MsPerDay)
  }

  /** The label for an expense date: days apart rounded up, in either
      direction, bucketed as today, yesterday, days, weeks or months. */
  function FormatRelativeDate(now: int, date: int): (t: RelativeTime)
    ensures var n := DaysApart(now, date);
      (t == Today <==> n == 0) && (t == Yesterday <==> n == 1) &&
      (t.DaysAgo? <==> 2 <= n < 7) && (t.WeeksAgo? <==> 7 <= n < 30) && (t.MonthsAgo? <==> n >= 30)
    // the count shown is the whole number of weeks or months in the span
    ensures t.DaysAgo? ==> t.days == DaysApart(now, date)
    ensures t.WeeksAgo? ==> 1 <= t.weeks <= 4 && 7 * t.weeks <= DaysApart(now, date) < 7 * (t.weeks + 1)
    ensures t.MonthsAgo? ==> t.months >= 1 && 30 * t.months <= DaysApart(now, date) < 30 * (t.months + 1)
    ensures !t.YearsAgo?
  {
    var n := DaysApart(now, date);
    if n == 0 then Today
    else if n == 1 then Yesterday
    else if n < 7 then DaysAgo(n)
    else if n < 30 then WeeksAgo(n / 7)
    else MonthsAgo(n / 30)
  }

  /** A date in the future is labelled like the same span in the past. */
  lemma RelativeDateIgnoresDirection(now: int, date: int)
    ensures DaysApart(now, date) == DaysApart(date, now)
    ensures FormatRelativeDate(now, date) == FormatRelativeDate(date, now)
  {
  }

  // ---------------------------------------------------------------------
  // Quick insights

  /** The fixed messages; `SomeOnTrack` carries its two counts. */
  datatype QuickInsight =
    | SavingMomentum                              // monthly savings above 500
    | SaveMore                                    // monthly savings below 200
    | AllOnTrack                                  // every active goal on track
    | SomeOnTrack(onTrack: nat, active: nat)      // "progress on N out of M goals"
    | SpendingControlled                          // monthly spending below 2000
    | SpendingHigh                                // monthly spending above 4000
    | MajorMilestone                              // total saved above 10000
    | HalfwayToTenK                               // total saved above 5000

  const MaxQuickInsights: nat := 4

  /** `(target - saved) / daysRemaining <= 50` in JavaScript arithmetic.
      With 0 days left the quotient is an infinity or NaN, and the sign of
      the zero matters: `Math.ceil` of a value in (-1, 0) is -0, so once the
      target date has passed (by less than a day) the quotient is -Infinity
      for a goal still short of its target, which counts as on track; at the
      target date to the millisecond the zero is +0 and only an over-funded
      goal (-Infinity) is on track. */
  predicate OnTrack(g: Goal, now: int): (b: bool)
    ensures DaysRemaining(g.targetDate, now) > 0 ==>
      (b <==> g.target - g.saved <= 50.0 * DaysRemaining(g.targetDate, now) as real)
    ensures DaysRemaining(g.targetDate, now) < 0 ==>
      (b <==> g.target - g.saved >= 50.0 * DaysRemaining(g.targetDate, now) as real)
    ensures DaysRemaining(g.targetDate, now) == 0 && g.targetDate < now ==> (b <==> g.saved < g.target)
    ensures DaysRemaining(g.targetDate, now) == 0 && g.targetDate >= now ==> (b <==> g.saved > g.target)
  {
    var days := DaysRemaining(g.targetDate, now);
    var remaining := g.target - g.saved;
    QuotientAtMost(remaining, days as real, 50.0);
    if days == 0 then
      // -0 when the date has passed, +0 when it is exactly now
      if g.targetDate < now then remaining > 0.0 else remaining < 0.0
    else remaining / days as real <= 50.0
  }

  /** The due-day case: half a day after the target date, a goal with
      nothing saved towards it is on track and a fully funded one is not. */
  lemma DueDayShortGoalIsOnTrack(g: Goal, now: int)
    requires g.targetDate < now < g.targetDate + MsPerDay
    ensures g.saved < g.target ==> OnTrack(g, now)
    ensures g.saved >= g.target ==> !OnTrack(g, now)
  {
    var days := DaysRemaining(g.targetDate, now);
    assert (days - 1) * MsPerDay < 0;
    assert days == 0;
  }

  /** Clearing the denominator of a quotient bound; a negative one turns
      the comparison round. */
  lemma QuotientAtMost(x: real, d: real, c: real)
    ensures d > 0.0 ==> (x / d <= c <==> x <= c * d)
    ensures d < 0.0 ==> (x / d <= c <==> x >= c * d)
  {
    if d != 0.0 {
      var q := x / d;
      assert x == q * d;
      if d > 0.0 {
        assert q <= c ==> q * d <= c * d;
        assert q > c ==> q * d > c * d;
      } else {
        assert q <= c ==> q * d >= c * d;
        assert q > c ==> q * d < c * d;
      }
    }
  }

  /** `goals.filter(goal => goal.isActive)`. */
  function ActiveGoals(goals: seq<Goal>): (r: seq<Goal>)
    ensures forall g :: g in r <==> g in goals && g.isActive
    ensures |r| > 0 <==> exists g :: g in goals && g.isActive
  {
    var r := Filter(goals, (g: Goal) => g.isActive);
    assert |r| > 0 ==> r[0] in r;
    r
  }

  /** The active goals that are on track. */
  function OnTrackGoals(goals: seq<Goal>, now: int): (r: seq<Goal>)
    ensures forall g :: g in r <==> g in goals && g.isActive && OnTrack(g, now)
    ensures |r| <= |ActiveGoals(goals)|
    ensures |r| == |ActiveGoals(goals)| <==> forall g :: g in goals && g.isActive ==> OnTrack(g, now)
  {
    var active := ActiveGoals(goals);
    FilterKeepsAllIff(active, (g: Goal) => OnTrack(g, now));
    Filter(active, (g: Goal) => OnTrack(g, now))
  }

  function SavingsMessage(monthlyGrowth: real): seq<QuickInsight>
  {
    if monthlyGrowth > 500.0 then [SavingMomentum] else if monthlyGrowth < 200.0 then [SaveMore] else []
  }

  function GoalMessage(onTrack: nat, active: nat): seq<QuickInsight>
  {
    if onTrack == active && active > 0 then [AllOnTrack] else if active > 0 then [SomeOnTrack(onTrack, active)] else []
  }

  function SpendingMessage(monthlyExpenses: real): seq<QuickInsight>
  {
    if monthlyExpenses < 2000.0 then [SpendingControlled] else if monthlyExpenses > 4000.0 then [SpendingHigh] else []
  }

  function MilestoneMessage(totalSaved: real): seq<QuickInsight>
  {
    if totalSaved > 10000.0 then [MajorMilestone] else if totalSaved > 5000.0 then [HalfwayToTenK] else []
  }

  /** The messages in the order they are pushed, before the cap. */
  function AllQuickInsights(totalSaved: real, monthlyGrowth: real, monthlyExpenses: real, onTrack: nat, active: nat)
    : seq<QuickInsight>
  {
    SavingsMessage(monthlyGrowth) + GoalMessage(onTrack, active) +
    SpendingMessage(monthlyExpenses) + MilestoneMessage(totalSaved)
  }

  /** `generateQuickInsights(...)`, `slice(0, 4)` included. Each group
      pushes at most one message, so the cap never drops one. `yearlyGrowth`
      is passed in by the dashboard but plays no part. */
  function QuickInsights(totalSaved: real, monthlyGrowth: real, yearlyGrowth: real, monthlyExpenses: real,
                         goals: seq<Goal>, now: int): (r: seq<QuickInsight>)
    ensures |r| <= MaxQuickInsights
    ensures r == AllQuickInsights(totalSaved, monthlyGrowth, monthlyExpenses,
                                  |OnTrackGoals(goals, now)|, |ActiveGoals(goals)|)
  {
    var all := AllQuickInsights(totalSaved, monthlyGrowth, monthlyExpenses,
                                |OnTrackGoals(goals, now)|, |ActiveGoals(goals)|);
    assert |all| <= MaxQuickInsights;
    assert all[..if |all| < MaxQuickInsights then |all| else MaxQuickInsights] == all;
    all[..if |all| < MaxQuickInsights then |all| else MaxQuickInsights]
  }

  /** Which group a message belongs to. */
  predicate IsSavingsMessage(q: QuickInsight) { q.SavingMomentum? || q.SaveMore? }
  predicate IsGoalMessage(q: QuickInsight) { q.AllOnTrack? || q.SomeOnTrack? }
  predicate IsSpendingMessage(q: QuickInsight) { q.SpendingControlled? || q.SpendingHigh? }
  predicate IsMilestoneMessage(q: QuickInsight) { q.MajorMilestone? || q.HalfwayToTenK? }

  /** A message of one group in the insights comes from that group's choice. */
  lemma GroupOf(totalSaved: real, monthlyGrowth: real, monthlyExpenses: real, onTrack: nat, active: nat,
                q: QuickInsight)
    ensures var r := AllQuickInsights(totalSaved, monthlyGrowth, monthlyExpenses, onTrack, active);
      (IsSavingsMessage(q) ==> (q in r <==> q in SavingsMessage(monthlyGrowth))) &&
      (IsGoalMessage(q) ==> (q in r <==> q in GoalMessage(onTrack, active))) &&
      (IsSpendingMessage(q) ==> (q in r <==> q in SpendingMessage(monthlyExpenses))) &&
      (IsMilestoneMessage(q) ==> (q in r <==> q in MilestoneMessage(totalSaved)))
  {
    var savings := SavingsMessage(monthlyGrowth);
    var goalMsg := GoalMessage(onTrack, active);
    var spending := SpendingMessage(monthlyExpenses);
    var milestone := MilestoneMessage(totalSaved);
    assert q in savings + goalMsg + spending + milestone <==>
      q in savings || q in goalMsg || q in spending || q in milestone;
  }

  /** Savings growth: "great job" above 500, "save more" below 200, neither in between. */
  lemma SavingsGrowthMessage(totalSaved: real, monthlyGrowth: real, yearlyGrowth: real, monthlyExpenses: real,
                             goals: seq<Goal>, now: int)
    ensures var r := QuickInsights(totalSaved, monthlyGrowth, yearlyGrowth, monthlyExpenses, goals, now);
      (SavingMomentum in r <==> monthlyGrowth > 500.0) && (SaveMore in r <==> monthlyGrowth < 200.0) &&
      !(SavingMomentum in r && SaveMore in r)
  {
    GroupOf(totalSaved, monthlyGrowth, monthlyExpenses, |OnTrackGoals(goals, now)|, |ActiveGoals(goals)|, SavingMomentum);
    GroupOf(totalSaved, monthlyGrowth, monthlyExpenses, |OnTrackGoals(goals, now)|, |ActiveGoals(goals)|, SaveMore);
  }

  /** Goals: "all on track" exactly when there are active goals and every
      one is on track; otherwise, with active goals, how many of how many. */
  lemma GoalProgressMessage(totalSaved: real, monthlyGrowth: real, yearlyGrowth: real, monthlyExpenses: real,
                            goals: seq<Goal>, now: int)
    ensures var r := QuickInsights(totalSaved, monthlyGrowth, yearlyGrowth, monthlyExpenses, goals, now);
      (AllOnTrack in r <==>
         (exists g :: g in goals && g.isActive) && forall g :: g in goals && g.isActive ==> OnTrack(g, now)) &&
      (forall n: nat, m: nat :: SomeOnTrack(n, m) in r ==>
         m == |ActiveGoals(goals)| && n == |OnTrackGoals(goals, now)| && n < m) &&
      ((exists g :: g in goals && g.isActive) ==>
         AllOnTrack in r || SomeOnTrack(|OnTrackGoals(goals, now)|, |ActiveGoals(goals)|) in r)
  {
    GroupOf(totalSaved, monthlyGrowth, monthlyExpenses, |OnTrackGoals(goals, now)|, |ActiveGoals(goals)|, AllOnTrack);
    GroupOf(totalSaved, monthlyGrowth, monthlyExpenses, |OnTrackGoals(goals, now)|, |ActiveGoals(goals)|,
            SomeOnTrack(|OnTrackGoals(goals, now)|, |ActiveGoals(goals)|));
    forall n: nat, m: nat | SomeOnTrack(n, m) in QuickInsights(totalSaved, monthlyGrowth, yearlyGrowth, monthlyExpenses, goals, now)
      ensures m == |ActiveGoals(goals)| && n == |OnTrackGoals(goals, now)| && n < m
    {
      GroupOf(totalSaved, monthlyGrowth, monthlyExpenses, |OnTrackGoals(goals, now)|, |ActiveGoals(goals)|, SomeOnTrack(n, m));
    }
  }

  /** Spending: "well controlled" below 2000, "high" above 4000. */
  lemma SpendingLevelMessage(totalSaved: real, monthlyGrowth: real, yearlyGrowth: real, monthlyExpenses: real,
                             goals: seq<Goal>, now: int)
    ensures var r := QuickInsights(totalSaved, monthlyGrowth, yearlyGrowth, monthlyExpenses, goals, now);
      (SpendingControlled in r <==> monthlyExpenses < 2000.0) && (SpendingHigh in r <==> monthlyExpenses > 4000.0)
  {
    GroupOf(totalSaved, monthlyGrowth, monthlyExpenses, |OnTrackGoals(goals, now)|, |ActiveGoals(goals)|, SpendingControlled);
    GroupOf(totalSaved, monthlyGrowth, monthlyExpenses, |OnTrackGoals(goals, now)|, |ActiveGoals(goals)|, SpendingHigh);
  }

  /** Savings milestones: above 10000 the major one and only it; the
      halfway one only between 5000 and 10000. */
  lemma MilestoneMessagesExclusive(totalSaved: real, monthlyGrowth: real, yearlyGrowth: real, monthlyExpenses: real,
                                   goals: seq<Goal>, now: int)
    ensures var r := QuickInsights(totalSaved, monthlyGrowth, yearlyGrowth, monthlyExpenses, goals, now);
      (MajorMilestone in r <==> totalSaved > 10000.0) && (HalfwayToTenK in r <==> 5000.0 < totalSaved <= 10000.0)
  {
    GroupOf(totalSaved, monthlyGrowth, monthlyExpenses, |OnTrackGoals(goals, now)|, |ActiveGoals(goals)|, MajorMilestone);
    GroupOf(totalSaved, monthlyGrowth, monthlyExpenses, |OnTrackGoals(goals, now)|, |ActiveGoals(goals)|, HalfwayToTenK);
  }

  /** The function as the controller writes it: an array filled by pushes, then sliced. */
  method GenerateQuickInsights(totalSaved: real, monthlyGrowth: real, yearlyGrowth: real, monthlyExpenses: real,
                               goals: seq<Goal>, now: int) returns (insights: seq<QuickInsight>)
    ensures insights == QuickInsights(totalSaved, monthlyGrowth, yearlyGrowth, monthlyExpenses, goals, now)
  {
    insights := [];
    if monthlyGrowth > 500.0 {
      insights := insights + [SavingMomentum];
    } else if monthlyGrowth < 200.0 {
      insights := insights + [SaveMore];
    }
    assert insights == SavingsMessage(monthlyGrowth);
    var activeGoals := ActiveGoals(goals);
    var onTrackGoals := OnTrackGoals(goals, now);
    if |onTrackGoals| == |activeGoals| && |activeGoals| > 0 {
      insights := insights + [AllOnTrack];
    } else if |activeGoals| > 0 {
      insights := insights + [SomeOnTrack(|onTrackGoals|, |activeGoals|)];
    }
    assert insights == SavingsMessage(monthlyGrowth) + GoalMessage(|onTrackGoals|, |activeGoals|);
    if monthlyExpenses < 2000.0 {
      insights := insights + [SpendingControlled];
    } else if monthlyExpenses > 4000.0 {
      insights := insights + [SpendingHigh];
    }
    assert insights == SavingsMessage(monthlyGrowth) + GoalMessage(|onTrackGoals|, |activeGoals|) +
                       SpendingMessage(monthlyExpenses);
    if totalSaved > 10000.0 {
      insights := insights + [MajorMilestone];
    } else if totalSaved > 5000.0 {
      insights := insights + [HalfwayToTenK];
    }
    assert insights == AllQuickInsights(totalSaved, monthlyGrowth, monthlyExpenses, |onTrackGoals|, |activeGoals|);
    ghost var capped := QuickInsights(totalSaved, monthlyGrowth, yearlyGrowth, monthlyExpenses, goals, now);
    assert insights == capped;
    insights := insights[..if |insights| < MaxQuickInsights then |insights| else MaxQuickInsights];
  }

  // ---------------------------------------------------------------------
  // Row mappings

  /** An AI suggestion as the dashboard lists it. */
  datatype Suggestion = Suggestion(insightType: InsightType, impact: Level, potentialSavings: real)

  /** `potentialSavings: insight.potentialSavings || 0`. */
  function SuggestionOf(i: Insight): (s: Suggestion)
    ensures s.insightType == i.insightType && s.impact == i.impact
    ensures i.potentialSavings.None? ==> s.potentialSavings == 0.0
    ensures i.potentialSavings.Some? ==> s.potentialSavings == i.potentialSavings.value
  {
    Suggestion(i.insightType, i.impact, OrZero(i.potentialSavings))
  }

  /** A category's share of the period's spending, in percent: 0 when
      nothing was spent. */
  function CategoryPercentage(categorySum: Option<real>, totalSpent: real): (p: real)
    ensures totalSpent == 0.0 ==> p == 0.0
    ensures totalSpent != 0.0 ==> p * totalSpent == OrZero(categorySum) * 100.0
    ensures totalSpent > 0.0 && 0.0 <= OrZero(categorySum) <= totalSpent ==> 0.0 <= p <= 100.0
  {
    if totalSpent != 0.0 then OrZero(categorySum) / totalSpent * 100.0 else 0.0
  }
}
