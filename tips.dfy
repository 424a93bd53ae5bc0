/** The advisory-tip rules run after a wallet deposit or a goal
    contribution. A tip keeps its kind, type, impact and the figures its
    message quotes; the message text itself is not modelled. The data the
    generators fetch from the store (goals, wallet) is passed in, and
    `queryFails` stands for that fetch throwing, which the generators catch
    by returning a single fallback tip. */
module Tips {
  import opened Common
  import opened Store

  datatype TipKind =
    | DepositCheer(amount: real)
    | FundTopGoals(left: real)
    | SplitAllocation(first: int, second: int, kept: real)
    | SingleGoalBoost(allocation: real, kept: real)
    | MilestoneReached(milestone: int)
    | FinancialOverview
    | DepositFallback
    | GoalAchieved
    | AlmostThere(progress: real)
    | HalfwayThere(progress: real)
    | ProgressUpdate(progress: real)
    | AheadOfSchedule(dailyNeed: real)
    | OnTrack(dailyNeed: real)
    | IncreasePace(dailyNeed: real)
    | LeadingThePack(progress: real)
    | KeepMomentum(topOtherProgress: real)
    | ContributionFallback

  datatype Tip = Tip(kind: TipKind, tipType: InsightType, impact: Level, potentialSavings: Option<real>)

  /** Both generators return at most this many tips. */
  const MaxTips: nat := 3

  function Cap(tips: seq<Tip>): seq<Tip>
  {
    if |tips| <= MaxTips then tips else tips[..MaxTips]
  }

  // ---------------------------------------------------------------------
  // Deposit tips

  /** The first deposit tip, chosen by the size of the deposit. */
  function DepositCheerTip(amount: real): (t: Tip)
    ensures t.kind == DepositCheer(amount) && t.potentialSavings.None?
    ensures amount >= 10000.0 ==> t.tipType == ACHIEVEMENT && t.impact == HIGH
    ensures 1000.0 <= amount < 10000.0 ==> t.tipType == SAVING && t.impact == MEDIUM
    ensures amount < 1000.0 ==> t.tipType == SAVING && t.impact == LOW
  {
    if amount >= 10000.0 then Tip(DepositCheer(amount), ACHIEVEMENT, HIGH, None)
    else if amount >= 1000.0 then Tip(DepositCheer(amount), SAVING, MEDIUM, None)
    else Tip(DepositCheer(amount), SAVING, LOW, None)
  }

  /** What the first one or two goals still need, `sum(target - saved)`. */
  function NeededForTopGoals(goals: seq<Goal>): real
  {
    if goals == [] then 0.0
    else if |goals| == 1 then Remaining(goals[0])
    else Remaining(goals[0]) + Remaining(goals[1])
  }

  /** 40% (rounded down) to each of the top two goals, the rest kept. */
  function Split(amount: real): (r: (int, int, real))
    ensures r.0 == r.1 && r.0 as real <= amount * 0.4 < r.0 as real + 1.0
    ensures r.0 as real + r.1 as real + r.2 == amount
    ensures amount >= 0.0 ==> r.2 >= amount * 0.2
  {
    var a := (amount * 0.4).Floor;
    (a, a, amount - a as real - a as real)
  }

  /** 60% of the deposit, but no more than the goal still needs. */
  function SingleGoalAllocation(amount: real, g: Goal): (allocation: real)
    ensures allocation <= amount * 0.6 && allocation <= Remaining(g)
    ensures allocation == amount * 0.6 || allocation == Remaining(g)
  {
    Min(amount * 0.6, Remaining(g))
  }

  /** The second deposit tip, when the user has active goals (listed highest priority first). */
  function AllocationTip(amount: real, goals: seq<Goal>): (t: Tip)
    requires |goals| > 0
    ensures t.tipType == GOAL
    ensures amount >= NeededForTopGoals(goals) ==>
      t == Tip(FundTopGoals(amount - NeededForTopGoals(goals)), GOAL, HIGH, Some(amount - NeededForTopGoals(goals)))
    ensures amount < NeededForTopGoals(goals) && |goals| >= 2 ==>
      t.kind == SplitAllocation(Split(amount).0, Split(amount).1, Split(amount).2) &&
      t.impact == MEDIUM && t.potentialSavings == Some(t.kind.kept) &&
      t.kind.first as real + t.kind.second as real + t.kind.kept == amount
    ensures amount < NeededForTopGoals(goals) && |goals| == 1 ==>
      t.kind.SingleGoalBoost? && t.impact == MEDIUM && t.potentialSavings.None? &&
      t.kind.allocation == Min(amount * 0.6, Remaining(goals[0])) &&
      t.kind.allocation + t.kind.kept == amount
  {
    var needed := NeededForTopGoals(goals);
    if amount >= needed then Tip(FundTopGoals(amount - needed), GOAL, HIGH, Some(amount - needed))
    else if |goals| >= 2 then
      var (a1, a2, kept) := Split(amount);
      Tip(SplitAllocation(a1, a2, kept), GOAL, MEDIUM, Some(kept))
    else
      var allocation := SingleGoalAllocation(amount, goals[0]);
      Tip(SingleGoalBoost(allocation, amount - allocation), GOAL, MEDIUM, None)
  }

  const Milestones: seq<int> := [1000, 5000, 10000, 25000, 50000, 100000, 250000, 500000, 1000000]

  predicate Crossed(m: int, previous: real, current: real)
  {
    previous < m as real <= current
  }

  /** `milestones.find(m => m > previous && m <= current)`. */
  function FirstCrossed(ms: seq<int>, previous: real, current: real): (r: Option<int>)
    ensures r.Some? ==>
      exists i :: 0 <= i < |ms| && ms[i] == r.value && Crossed(ms[i], previous, current) &&
        forall j :: 0 <= j < i ==> !Crossed(ms[j], previous, current)
    ensures r.None? <==> forall i :: 0 <= i < |ms| ==> !Crossed(ms[i], previous, current)
  {
    if ms == [] then None
    else if Crossed(ms[0], previous, current) then Some(ms[0])
    else
      var r := FirstCrossed(ms[1..], previous, current);
      if r.Some? then
        var i :| 0 <= i < |ms[1..]| && ms[1..][i] == r.value && Crossed(ms[1..][i], previous, current) &&
          forall j :: 0 <= j < i ==> !Crossed(ms[1..][j], previous, current);
        assert ms[i + 1] == r.value;
        r
      else r
  }

  /** The third deposit tip: a milestone the balance just crossed, else an overview when there are goals. */
  function BalanceTip(amount: real, goals: seq<Goal>, w: Wallet): (r: Option<Tip>)
    ensures var crossed := FirstCrossed(Milestones, w.balance - amount, w.balance);
      (crossed.Some? ==> r == Some(Tip(MilestoneReached(crossed.value), ACHIEVEMENT, HIGH, None))) &&
      (crossed.None? ==> (r.Some? <==> |goals| > 0) && (r.Some? ==> r.value == Tip(FinancialOverview, SAVING, MEDIUM, None)))
    // a reported milestone lies above the balance before the deposit and within the balance after it
    ensures r.Some? && r.value.kind.MilestoneReached? ==>
      r.value.kind.milestone in Milestones && w.balance - amount < r.value.kind.milestone as real <= w.balance
  {
    match FirstCrossed(Milestones, w.balance - amount, w.balance)
    case Some(m) => Some(Tip(MilestoneReached(m), ACHIEVEMENT, HIGH, None))
    case None => if |goals| > 0 then Some(Tip(FinancialOverview, SAVING, MEDIUM, None)) else None
  }

  function Optional(t: Option<Tip>): seq<Tip>
  {
    if t.Some? then [t.value] else []
  }

  /** The tips for a deposit of `amount` into wallet `wallet` (already
      credited), given the user's active goals highest priority first. */
  function DepositTips(amount: real, goals: seq<Goal>, wallet: Option<Wallet>, queryFails: bool): (tips: seq<Tip>)
    ensures 1 <= |tips| <= MaxTips
    ensures queryFails ==> tips == [Tip(DepositFallback, SAVING, MEDIUM, None)]
    ensures !queryFails ==> tips[0] == DepositCheerTip(amount)
    ensures !queryFails && |goals| > 0 ==> |tips| >= 2 && tips[1] == AllocationTip(amount, goals)
    ensures !queryFails && wallet.Some? ==>
      (FirstCrossed(Milestones, wallet.value.balance - amount, wallet.value.balance).Some? <==>
       exists t :: t in tips && t.kind.MilestoneReached?)
  {
    if queryFails then [Tip(DepositFallback, SAVING, MEDIUM, None)]
    else
      var second := if |goals| > 0 then [AllocationTip(amount, goals)] else [];
      var third := if wallet.Some? then Optional(BalanceTip(amount, goals, wallet.value)) else [];
      Cap([DepositCheerTip(amount)] + second + third)
  }

  /** The third deposit tip: the first milestone the deposit crossed, else
      the overview when there are goals; none without a wallet. */
  lemma DepositTipsLayout(amount: real, goals: seq<Goal>, wallet: Option<Wallet>)
    ensures var tips := DepositTips(amount, goals, wallet, false);
      wallet.Some? ==>
        forall t :: t in tips && t.kind.MilestoneReached? ==>
          FirstCrossed(Milestones, wallet.value.balance - amount, wallet.value.balance) == Some(t.kind.milestone) &&
          t.tipType == ACHIEVEMENT && t.impact == HIGH
    ensures var tips := DepositTips(amount, goals, wallet, false);
      (wallet.Some? && |goals| > 0 &&
       FirstCrossed(Milestones, wallet.value.balance - amount, wallet.value.balance).None?) ==>
        |tips| == 3 && tips[2] == Tip(FinancialOverview, SAVING, MEDIUM, None)
    ensures wallet.None? ==> |DepositTips(amount, goals, wallet, false)| == (if |goals| > 0 then 2 else 1)
  {
  }

  /** The generator as the service writes it: tips pushed one after another, then capped. */
  method GenerateDepositTips(amount: real, goals: seq<Goal>, wallet: Option<Wallet>, queryFails: bool)
    returns (tips: seq<Tip>)
    ensures tips == DepositTips(amount, goals, wallet, queryFails)
  {
    if queryFails {
      return [Tip(DepositFallback, SAVING, MEDIUM, None)];
    }
    tips := [];
    tips := tips + [DepositCheerTip(amount)];
    if |goals| > 0 {
      tips := tips + [AllocationTip(amount, goals)];
    }
    if wallet.Some? {
      var crossed := FirstCrossed(Milestones, wallet.value.balance - amount, wallet.value.balance);
      if crossed.Some? {
        tips := tips + [Tip(MilestoneReached(crossed.value), ACHIEVEMENT, HIGH, None)];
      } else if |goals| > 0 {
        tips := tips + [Tip(FinancialOverview, SAVING, MEDIUM, None)];
      }
    }
    assert tips == [DepositCheerTip(amount)] + (if |goals| > 0 then [AllocationTip(amount, goals)] else []) +
      (if wallet.Some? then Optional(BalanceTip(amount, goals, wallet.value)) else []);
    tips := Cap(tips);
  }

  // ---------------------------------------------------------------------
  // Goal-contribution tips

  /** The first goal tip, chosen by the goal's progress. */
  function ProgressTip(progress: real): (t: Tip)
    ensures progress >= 100.0 ==> t.kind == GoalAchieved && t.tipType == ACHIEVEMENT && t.impact == HIGH
    ensures 75.0 <= progress < 100.0 ==> t.kind == AlmostThere(progress) && t.tipType == GOAL && t.impact == HIGH
    ensures 50.0 <= progress < 75.0 ==> t.kind == HalfwayThere(progress) && t.tipType == GOAL && t.impact == MEDIUM
    ensures progress < 50.0 ==> t.kind == ProgressUpdate(progress) && t.tipType == GOAL && t.impact == MEDIUM
  {
    if progress >= 100.0 then Tip(GoalAchieved, ACHIEVEMENT, HIGH, None)
    else if progress >= 75.0 then Tip(AlmostThere(progress), GOAL, HIGH, None)
    else if progress >= 50.0 then Tip(HalfwayThere(progress), GOAL, MEDIUM, None)
    else Tip(ProgressUpdate(progress), GOAL, MEDIUM, None)
  }

  /** The pace tip, given what is left to save and the whole days left. */
  function TimelineTip(remaining: real, daysRemaining: int): (t: Option<Tip>)
    ensures t.Some? <==> daysRemaining > 0 && remaining > 0.0
    ensures t.Some? ==>
      t.value.impact == MEDIUM && (t.value.tipType == WARNING <==> remaining / daysRemaining as real > 50.0)
    // the three paces, each quoting what has to be saved per day
    ensures t.Some? ==>
      var need := remaining / daysRemaining as real;
      (need <= 10.0 ==> t.value.kind == AheadOfSchedule(need) && t.value.tipType == SAVING) &&
      (10.0 < need <= 50.0 ==> t.value.kind == OnTrack(need) && t.value.tipType == SAVING) &&
      (need > 50.0 ==> t.value.kind == IncreasePace(need))
  {
    if daysRemaining > 0 && remaining > 0.0 then
      var dailyNeed := remaining / daysRemaining as real;
      if dailyNeed <= 10.0 then Some(Tip(AheadOfSchedule(dailyNeed), SAVING, MEDIUM, None))
      else if dailyNeed <= 50.0 then Some(Tip(OnTrack(dailyNeed), SAVING, MEDIUM, None))
      else Some(Tip(IncreasePace(dailyNeed), WARNING, MEDIUM, None))
    else None
  }

  /** The progress of every goal other than `goalId`. */
  function OtherProgress(allGoals: seq<Goal>, goalId: GoalId): (ps: seq<real>)
    ensures |ps| <= |allGoals|
    ensures forall g :: g in allGoals && g.id != goalId ==> Progress(g) in ps
    ensures forall p :: p in ps ==> exists g :: g in allGoals && g.id != goalId && p == Progress(g)
  {
    if allGoals == [] then []
    else
      var rest := OtherProgress(allGoals[1..], goalId);
      if allGoals[0].id != goalId then [Progress(allGoals[0])] + rest else rest
  }

  /** The head of the list sorted by descending progress: its largest value. */
  function Largest(ps: seq<real>): (m: real)
    requires |ps| > 0
    ensures m in ps && forall p :: p in ps ==> p <= m
  {
    if |ps| == 1 then ps[0]
    else
      var rest := Largest(ps[1..]);
      assert forall p :: p in ps ==> p == ps[0] || p in ps[1..];
      Max(ps[0], rest)
  }

  /** The comparison tip, when the user has other active goals. */
  function ComparisonTip(progress: real, allGoals: seq<Goal>, goalId: GoalId): (t: Option<Tip>)
    ensures t.Some? ==> |allGoals| > 1
    ensures t.Some? && t.value.kind.LeadingThePack? ==>
      forall g :: g in allGoals && g.id != goalId ==> Progress(g) < progress
    ensures t.Some? && t.value.kind.KeepMomentum? ==>
      exists g :: g in allGoals && g.id != goalId && Progress(g) >= progress
    ensures t.Some? <==> |allGoals| > 1 && exists g :: g in allGoals && g.id != goalId
    // the two tips the comparison can give, with their figures
    ensures t.Some? ==>
      |OtherProgress(allGoals, goalId)| > 0 &&
      (t.value == Tip(LeadingThePack(progress), ACHIEVEMENT, MEDIUM, None) ||
       t.value == Tip(KeepMomentum(Largest(OtherProgress(allGoals, goalId))), SAVING, LOW, None))
  {
    if |allGoals| > 1 then
      var others := OtherProgress(allGoals, goalId);
      if |others| > 0 then
        var top := Largest(others);
        if progress > top then Some(Tip(LeadingThePack(progress), ACHIEVEMENT, MEDIUM, None))
        else Some(Tip(KeepMomentum(top), SAVING, LOW, None))
      else None
    else None
  }

  /** Progress the tips report for `goal` after a contribution of `amount`:
      the contribution is added to `goal.saved` here again. */
  function ContributionProgress(goal: Goal, amount: real): (p: real)
    ensures p == Progress(goal.(saved := goal.saved + amount))
  {
    (goal.saved + amount) / goal.target * 100.0
  }

  /** The contribution raises the reported progress by its own share of
      the target. */
  lemma ContributionRaisesProgress(goal: Goal, amount: real)
    ensures ContributionProgress(goal, amount) - Progress(goal) == amount / goal.target * 100.0
  {
  }

  /** The tips for a contribution of `amount` to goal `goalId`, given the
      goal as the store returns it (`None` when it is gone) and the user's
      active goals, at time `now`. */
  function GoalTips(goal: Option<Goal>, allGoals: seq<Goal>, goalId: GoalId, amount: real, now: int, queryFails: bool)
    : (tips: seq<Tip>)
    ensures |tips| <= MaxTips
    ensures queryFails ==> tips == [Tip(ContributionFallback, GOAL, MEDIUM, None)]
    ensures !queryFails && goal.None? ==> tips == []
    ensures !queryFails && goal.Some? ==>
      |tips| >= 1 && tips[0] == ProgressTip(ContributionProgress(goal.value, amount))
    ensures !queryFails && goal.Some? ==>
      var remaining := goal.value.target - (goal.value.saved + amount);
      var days := DaysRemaining(goal.value.targetDate, now);
      ((exists t :: t in tips && t.tipType == SAVING && t.impact == MEDIUM) || (exists t :: t in tips && t.tipType == WARNING))
        ==> days > 0 && remaining > 0.0
  {
    if queryFails then [Tip(ContributionFallback, GOAL, MEDIUM, None)]
    else if goal.None? then []
    else
      var g := goal.value;
      var progress := ContributionProgress(g, amount);
      var remaining := g.target - (g.saved + amount);
      var days := DaysRemaining(g.targetDate, now);
      var comparison := ComparisonTip(progress, allGoals, goalId);
      assert comparison.Some? ==> comparison.value.impact != MEDIUM || comparison.value.tipType != SAVING;
      Cap([ProgressTip(progress)] + Optional(TimelineTip(remaining, days)) + Optional(comparison))
  }

  /** The layout of the goal tips: the progress tip, then the pace tip
      whenever days and money remain, then the comparison tip when there is
      one; the cap never cuts any of them. */
  lemma GoalTipsLayout(g: Goal, allGoals: seq<Goal>, goalId: GoalId, amount: real, now: int)
    ensures var tips := GoalTips(Some(g), allGoals, goalId, amount, now, false);
      var remaining := g.target - (g.saved + amount);
      var days := DaysRemaining(g.targetDate, now);
      var c := ComparisonTip(ContributionProgress(g, amount), allGoals, goalId);
      |tips| == 1 + (if days > 0 && remaining > 0.0 then 1 else 0) + (if c.Some? then 1 else 0) &&
      (days > 0 && remaining > 0.0 ==> tips[1] == TimelineTip(remaining, days).value) &&
      (c.Some? ==> tips[|tips| - 1] == c.value)
  {
  }

  /** The comparison step of the goal generator: pushes the leading or
      momentum tip when the user has other goals. */
  method PushComparison(tips: seq<Tip>, progress: real, allGoals: seq<Goal>, goalId: GoalId)
    returns (r: seq<Tip>)
    ensures r == tips + Optional(ComparisonTip(progress, allGoals, goalId))
  {
    r := tips;
    if |allGoals| > 1 {
      var others := OtherProgress(allGoals, goalId);
      if |others| > 0 {
        var top := Largest(others);
        if progress > top {
          r := r + [Tip(LeadingThePack(progress), ACHIEVEMENT, MEDIUM, None)];
        } else {
          r := r + [Tip(KeepMomentum(top), SAVING, LOW, None)];
        }
      }
    }
  }

  /** The generator as the service writes it: tips pushed one after another, then capped. */
  method GenerateGoalTips(goal: Option<Goal>, allGoals: seq<Goal>, goalId: GoalId, amount: real, now: int, queryFails: bool)
    returns (tips: seq<Tip>)
    ensures tips == GoalTips(goal, allGoals, goalId, amount, now, queryFails)
  {
    if queryFails {
      return [Tip(ContributionFallback, GOAL, MEDIUM, None)];
    }
    tips := [];
    if goal.None? {
      return;
    }
    var g := goal.value;
    var newSaved := g.saved + amount;
    var progress := newSaved / g.target * 100.0;
    var remaining := g.target - newSaved;
    tips := tips + [ProgressTip(progress)];
    var days := DaysRemaining(g.targetDate, now);
    if days > 0 && remaining > 0.0 {
      tips := tips + [TimelineTip(remaining, days).value];
    }
    assert tips == [ProgressTip(ContributionProgress(g, amount))] + Optional(TimelineTip(remaining, days));
    tips := PushComparison(tips, progress, allGoals, goalId);
    assert progress == ContributionProgress(g, amount);
    tips := Cap(tips);
  }

  // ---------------------------------------------------------------------
  // Storing tips as insights

  /** The insight row written for one tip: unread, same type, impact and savings figure. */
  function InsightFor(user: UserId, t: Tip): Insight
  {
    Insight(user, t.tipType, t.impact, t.potentialSavings, false)
  }

  /** How many of the inserts before position `i` succeed. */
  function Surviving(failed: set<nat>, i: nat): (n: nat)
    ensures n <= i
    ensures (forall j :: 0 <= j < i ==> j !in failed) ==> n == i
  {
    if i == 0 then 0 else Surviving(failed, i - 1) + (if i - 1 in failed then 0 else 1)
  }

  /** The rows `storeTipsAsInsights` leaves behind when the inserts at the
      positions in `failed` throw (the others still complete). */
  function InsightRows(user: UserId, tips: seq<Tip>, failed: set<nat>): (rows: seq<Insight>)
    ensures |rows| == Surviving(failed, |tips|) <= |tips|
    ensures forall r :: r in rows ==> r.owner == user && !r.isRead
    ensures forall r :: r in rows ==> exists t :: t in tips && r == InsightFor(user, t)
  {
    if tips == [] then []
    else
      var n := |tips| - 1;
      var init := InsightRows(user, tips[..n], failed);
      assert forall t :: t in tips[..n] ==> t in tips;
      init + (if n in failed then [] else [InsightFor(user, tips[n])])
  }

  /** One row per successful insert, in the order of the tips: the tip at
      position `i` lands at the position counting the successes before it. */
  lemma {:induction false} InsightRowsInOrder(user: UserId, tips: seq<Tip>, failed: set<nat>, i: nat)
    requires i < |tips| && i !in failed
    ensures Surviving(failed, i) < |InsightRows(user, tips, failed)|
    ensures InsightRows(user, tips, failed)[Surviving(failed, i)] == InsightFor(user, tips[i])
  {
    var n := |tips| - 1;
    if i < n {
      InsightRowsInOrder(user, tips[..n], failed, i);
      assert tips[..n][i] == tips[i];
    }
  }

  /** When no insert fails, every tip is stored, in order. */
  lemma AllInsightsStored(user: UserId, tips: seq<Tip>, failed: set<nat>)
    requires forall i :: 0 <= i < |tips| ==> i !in failed
    ensures |InsightRows(user, tips, failed)| == |tips|
    ensures forall i :: 0 <= i < |tips| ==> InsightRows(user, tips, failed)[i] == InsightFor(user, tips[i])
  {
    forall i | 0 <= i < |tips| ensures InsightRows(user, tips, failed)[i] == InsightFor(user, tips[i]) {
      InsightRowsInOrder(user, tips, failed, i);
      assert Surviving(failed, i) == i;
    }
  }
}
