/** The rows the backend keeps in its database (users' wallets, savings goals
    and the audit records written beside them), and the read-only
    goal-progress view computed from goal rows. */
module Store {
  import opened Common

  type UserId = string
  type GoalId = string

  /** Goal priority and insight impact share one three-level scale. */
  datatype Level = LOW | MEDIUM | HIGH

  datatype SavingType = MANUAL | AUTOMATIC | ROUND_UP | GOAL_CONTRIBUTION

  datatype InsightType = SAVING | SPENDING | WARNING | GOAL | ACHIEVEMENT

  datatype TxType = DEPOSIT | WITHDRAWAL

  datatype TxStatus = COMPLETED

  /** A savings goal. `target` is positive by the goal schemas; `saved` may
      exceed it (over-funding is reported as more than 100% progress).
      Dates are milliseconds since the epoch. */
  datatype Goal = Goal(
    id: GoalId,
    owner: UserId,
    name: string,
    description: Option<string>,
    target: Positive,
    saved: real,
    targetDate: int,
    priority: Level,
    emoji: Option<string>,
    isActive: bool)

  /** A user's wallet; every user has at most one. Ids come from a counter. */
  datatype Wallet = Wallet(id: nat, owner: UserId, balance: real, currency: string)

  datatype Transaction = Transaction(
    amount: real,
    currency: string,
    txType: TxType,
    status: TxStatus,
    description: string,
    senderWalletId: Option<nat>,
    senderUserId: Option<UserId>,
    receiverWalletId: Option<nat>,
    receiverUserId: Option<UserId>)

  datatype Saving = Saving(amount: real, savingType: SavingType, date: int, owner: UserId)

  datatype Expense = Expense(description: string, amount: real, category: string, date: int, owner: UserId)

  /** A stored advisory insight; its title and description text are not modelled. */
  datatype Insight = Insight(
    owner: UserId,
    insightType: InsightType,
    impact: Level,
    potentialSavings: Option<real>,
    isRead: bool)

  // ---------------------------------------------------------------------
  // Goal progress

  /** `saved / target * 100`. */
  function Progress(g: Goal): real
  {
    g.saved / g.target * 100.0
  }

  /** `target - saved`; negative once the goal is over-funded. */
  function Remaining(g: Goal): real
  {
    g.target - g.saved
  }

  /** `Math.ceil((targetDate - now) / msPerDay)`: whole days left, rounded up. */
  function DaysRemaining(targetDate: int, now: int): (d: int)
    ensures (d - 1) * MsPerDay < targetDate - now <= d * MsPerDay
  {
    CeilDiv(targetDate - now, MsPerDay)
  }

  /** A goal is complete (100% or more) exactly when nothing remains to save. */
  lemma ProgressReachesHundredIffNothingRemains(g: Goal)
    ensures Progress(g) >= 100.0 <==> Remaining(g) <= 0.0
  {
    var t := g.target as real;
    assert Progress(g) * t == g.saved * 100.0;
  }

  datatype ProgressRow = ProgressRow(goal: Goal, progress: real, remaining: real, daysRemaining: int)

  predicate ActiveGoalOf(g: Goal, user: UserId)
  {
    g.owner == user && g.isActive
  }

  function ProgressRowOf(g: Goal, now: int): ProgressRow
  {
    ProgressRow(g, Progress(g), Remaining(g), DaysRemaining(g.targetDate, now))
  }

  /** The goal-progress view: one row per active goal of `user`, in the
      order the store lists them, each with its progress, remaining amount
      and days left. */
  function ProgressRows(goals: seq<Goal>, user: UserId, now: int): (rows: seq<ProgressRow>)
    ensures |rows| <= |goals|
    ensures forall r :: r in rows ==> r.goal in goals && ActiveGoalOf(r.goal, user)
    ensures forall g :: g in goals && ActiveGoalOf(g, user) ==> exists r :: r in rows && r.goal == g
    ensures forall r :: r in rows ==>
      r.progress == r.goal.saved / r.goal.target * 100.0 &&
      r.remaining == r.goal.target - r.goal.saved &&
      (r.daysRemaining - 1) * MsPerDay < r.goal.targetDate - now <= r.daysRemaining * MsPerDay
    ensures forall r :: r in rows ==> (r.progress >= 100.0 <==> r.remaining <= 0.0)
    // one row per active goal, in the store's order
    ensures |rows| == |ActiveGoalsOf(goals, user)|
    ensures forall i :: 0 <= i < |rows| ==> rows[i].goal == ActiveGoalsOf(goals, user)[i]
  {
    if goals == [] then []
    else
      var g := goals[0];
      var rest := ProgressRows(goals[1..], user, now);
      if ActiveGoalOf(g, user) then
        ProgressReachesHundredIffNothingRemains(g);
        assert ProgressRowOf(g, now).goal == g;
        assert ActiveGoalsOf(goals, user) == [g] + ActiveGoalsOf(goals[1..], user);
        [ProgressRowOf(g, now)] + rest
      else
        assert ActiveGoalsOf(goals, user) == ActiveGoalsOf(goals[1..], user);
        rest
  }

  // ---------------------------------------------------------------------
  // Finding goals by id

  predicate UniqueGoalIds(goals: seq<Goal>)
  {
    forall i, j :: 0 <= i < j < |goals| ==> goals[i].id != goals[j].id
  }

  /** The position of the goal with this id, if any (`findUnique` by id). */
  function IndexOfGoal(goals: seq<Goal>, id: GoalId): (r: Option<nat>)
    ensures r.Some? ==> r.value < |goals| && goals[r.value].id == id
    ensures r.Some? ==> forall k :: 0 <= k < r.value ==> goals[k].id != id
    ensures r.None? <==> forall k :: 0 <= k < |goals| ==> goals[k].id != id
  {
    if goals == [] then None
    else if goals[0].id == id then Some(0)
    else
      match IndexOfGoal(goals[1..], id)
      case None => None
      case Some(k) => Some(k + 1)
  }

  /** `findFirst({ id, userId })`: the position of goal `id` when `user` owns it. */
  function IndexOfOwnedGoal(goals: seq<Goal>, id: GoalId, user: UserId): (r: Option<nat>)
    requires UniqueGoalIds(goals)
    ensures r.Some? ==> r.value < |goals| && goals[r.value].id == id && goals[r.value].owner == user
    ensures r.None? <==> forall k :: 0 <= k < |goals| ==> !(goals[k].id == id && goals[k].owner == user)
  {
    match IndexOfGoal(goals, id)
    case None => None
    case Some(k) => if goals[k].owner == user then Some(k) else None
  }

  /** Removing the goal at position k keeps every other goal, in order. */
  function RemoveAt(goals: seq<Goal>, k: nat): (r: seq<Goal>)
    requires k < |goals|
    ensures |r| == |goals| - 1
    ensures forall i :: 0 <= i < k ==> r[i] == goals[i]
    ensures forall i :: k <= i < |r| ==> r[i] == goals[i + 1]
  {
    goals[..k] + goals[k + 1..]
  }

  lemma RemoveAtKeepsUniqueIds(goals: seq<Goal>, k: nat)
    requires k < |goals| && UniqueGoalIds(goals)
    ensures UniqueGoalIds(RemoveAt(goals, k))
    ensures forall g :: g in RemoveAt(goals, k) ==> g.id != goals[k].id
  {
    var r := RemoveAt(goals, k);
    forall g | g in r ensures g.id != goals[k].id {
      var i :| 0 <= i < |r| && r[i] == g;
      if i < k { assert goals[i] == g; } else { assert goals[i + 1] == g; }
    }
  }

  /** The goal with this id, wherever it sits (`findUnique({ id })`). */
  function GoalById(goals: seq<Goal>, id: GoalId): (r: Option<Goal>)
    ensures r.Some? ==> r.value in goals && r.value.id == id
    ensures r.None? <==> forall g :: g in goals ==> g.id != id
  {
    match IndexOfGoal(goals, id)
    case None => None
    case Some(k) => Some(goals[k])
  }

  /** The user's active goals in store order (`findMany({ userId, isActive: true })`). */
  function ActiveGoalsOf(goals: seq<Goal>, user: UserId): (r: seq<Goal>)
    ensures |r| <= |goals|
    ensures forall g :: g in r <==> g in goals && ActiveGoalOf(g, user)
  {
    if goals == [] then []
    else (if ActiveGoalOf(goals[0], user) then [goals[0]] else []) + ActiveGoalsOf(goals[1..], user)
  }

  /** Deleting goal `id` on behalf of `user`: refused (None) unless the
      user owns it; otherwise exactly that goal disappears. */
  function DeleteOwned(goals: seq<Goal>, id: GoalId, user: UserId): (r: Option<seq<Goal>>)
    requires UniqueGoalIds(goals)
    ensures r.None? <==> forall g :: g in goals ==> !(g.id == id && g.owner == user)
    ensures r.Some? ==> UniqueGoalIds(r.value) && |r.value| == |goals| - 1
    ensures r.Some? ==> forall g :: g in r.value <==> g in goals && g.id != id
  {
    match IndexOfOwnedGoal(goals, id, user)
    case None => None
    case Some(k) =>
      RemoveAtKeepsUniqueIds(goals, k);
      var r := RemoveAt(goals, k);
      assert forall g :: g in goals && g.id != id ==> g in r by {
        forall g | g in goals && g.id != id ensures g in r {
          var i :| 0 <= i < |goals| && goals[i] == g;
          if i < k { assert r[i] == g; } else { assert i != k; assert r[i - 1] == g; }
        }
      }
      Some(r)
  }

  /** Sum of `saved` over a list of goals. */
  function TotalSaved(goals: seq<Goal>): real
  {
    if goals == [] then 0.0 else goals[0].saved + TotalSaved(goals[1..])
  }

  /** Changing one goal's `saved` by delta changes the total by delta. */
  lemma {:induction false} TotalSavedUpdate(goals: seq<Goal>, k: nat, g: Goal)
    requires k < |goals|
    ensures TotalSaved(goals[k := g]) == TotalSaved(goals) - goals[k].saved + g.saved
  {
    if k > 0 {
      TotalSavedUpdate(goals[1..], k - 1, g);
      assert goals[k := g][1..] == goals[1..][k - 1 := g];
    }
  }
}
