/** The older goal handlers, written before wallets existed: a contribution
    simply raises the goal's `saved` figure and logs a Saving, in two
    separate writes with no transaction around them. */
module LegacyGoals {
  import opened Common
  import opened Store
  import GoalLedger

  datatype LegacyOutcome =
    | Credited(goal: Goal)   // 200, the goal after the contribution
    | Deleted
    | BadAmount              // 400 'Amount must be greater than 0'
    | NotFound               // 404 'Goal not found'
    | ServerError            // 500, the store threw

  /** The two tables these handlers touch. */
  datatype Tables = Tables(goals: seq<Goal>, savings: seq<Saving>)

  predicate TablesOk(t: Tables)
  {
    UniqueGoalIds(t.goals) && forall i :: 0 <= i < |t.goals| ==> t.goals[i].saved >= 0.0
  }

  /** addToGoal without a wallet: the goal update and the Saving insert are
      separate writes, so when the insert throws the goal stays credited
      with no Saving to show for it. */
  function AddToGoalSpec(t: Tables, user: UserId, id: GoalId, amount: Option<real>, now: int,
                         fault: GoalLedger.Fault): (res: (Tables, LegacyOutcome))
    requires TablesOk(t)
    ensures TablesOk(res.0)
    ensures !GoalLedger.AmountOk(amount) ==> res == (t, BadAmount)
    ensures res.1 == NotFound <==>
      GoalLedger.AmountOk(amount) && fault != GoalLedger.ReadFails &&
      forall g :: g in t.goals ==> !(g.id == id && g.owner == user)
    ensures !res.1.Credited? && !(res.1.ServerError? && fault == GoalLedger.RecordWriteFails) ==> res.0 == t
    // the goal is credited whenever its write succeeds; the Saving only when its insert succeeds too
    ensures res.0 != t ==>
      GoalLedger.AmountOk(amount) && IndexOfOwnedGoal(t.goals, id, user).Some? &&
      var k := IndexOfOwnedGoal(t.goals, id, user).value;
      res.0.goals == t.goals[k := t.goals[k].(saved := t.goals[k].saved + amount.value)] &&
      TotalSaved(res.0.goals) == TotalSaved(t.goals) + amount.value &&
      (res.1.Credited? ==>
         res.1.goal == res.0.goals[k] &&
         res.0.savings == t.savings + [Saving(amount.value, GOAL_CONTRIBUTION, now, user)]) &&
      (res.1.ServerError? ==> res.0.savings == t.savings)
    ensures res.1.Credited? ==> res.0 != t
    // an owned goal whose write succeeds is credited; with the Saving insert succeeding too, the answer is Credited
    ensures (GoalLedger.AmountOk(amount) && fault != GoalLedger.ReadFails && fault != GoalLedger.GoalWriteFails &&
      IndexOfOwnedGoal(t.goals, id, user).Some?) ==>
      var k := IndexOfOwnedGoal(t.goals, id, user).value;
      res.0.goals == t.goals[k := t.goals[k].(saved := t.goals[k].saved + amount.value)] &&
      (fault != GoalLedger.RecordWriteFails ==> res.1 == Credited(res.0.goals[k]))
  {
    if !GoalLedger.AmountOk(amount) then (t, BadAmount)
    else if fault == GoalLedger.ReadFails then (t, ServerError)
    else match IndexOfOwnedGoal(t.goals, id, user)
      case None => (t, NotFound)
      case Some(k) =>
        if fault == GoalLedger.GoalWriteFails then (t, ServerError)
        else
          var a := amount.value;
          var g' := t.goals[k].(saved := t.goals[k].saved + a);
          TotalSavedUpdate(t.goals, k, g');
          var credited := t.(goals := t.goals[k := g']);
          if fault == GoalLedger.RecordWriteFails then (credited, ServerError)
          else
            var t' := credited.(savings := t.savings + [Saving(a, GOAL_CONTRIBUTION, now, user)]);
            assert t' != t by { assert |t'.savings| != |t.savings|; }
            (t', Credited(g'))
  }

  function DeleteGoalSpec(t: Tables, user: UserId, id: GoalId, fault: GoalLedger.Fault): (res: (Tables, LegacyOutcome))
    requires TablesOk(t)
    ensures TablesOk(res.0)
    ensures !res.1.Deleted? ==> res.0 == t
    ensures res.1 == NotFound <==>
      fault != GoalLedger.ReadFails && forall g :: g in t.goals ==> !(g.id == id && g.owner == user)
    ensures res.1.Deleted? ==>
      res.0.savings == t.savings && (forall g :: g in res.0.goals <==> g in t.goals && g.id != id) &&
      exists g :: g in t.goals && g.id == id && g.owner == user
  {
    if fault == GoalLedger.ReadFails then (t, ServerError)
    else match DeleteOwned(t.goals, id, user)
      case None => (t, NotFound)
      case Some(rest) =>
        if fault == GoalLedger.GoalWriteFails then (t, ServerError)
        else
          assert forall i :: 0 <= i < |rest| ==> rest[i].saved >= 0.0 by {
            forall i | 0 <= i < |rest| ensures rest[i].saved >= 0.0 {
              assert rest[i] in t.goals;
            }
          }
          (t.(goals := rest), Deleted)
  }

  /** Unlike the wallet-backed handler, this one can leave a goal credited
      with no Saving logged: the goals' total grows while the log does not. */
  lemma ContributionCanGoUnlogged(t: Tables, user: UserId, id: GoalId, a: real, now: int)
    requires TablesOk(t) && a > 0.0 && IndexOfOwnedGoal(t.goals, id, user).Some?
    ensures var r := AddToGoalSpec(t, user, id, Some(a), now, GoalLedger.RecordWriteFails);
            r.1 == ServerError && r.0.savings == t.savings && TotalSaved(r.0.goals) == TotalSaved(t.goals) + a
  {
  }

  /** The legacy goal handlers as an object over the two tables. */
  class LegacyGoalStore {
    var goals: seq<Goal>
    var savings: seq<Saving>

    function Snapshot(): Tables
      reads this
    {
      Tables(goals, savings)
    }

    predicate Valid()
      reads this
    {
      TablesOk(Snapshot())
    }

    constructor ()
      ensures Valid() && Snapshot() == Tables([], [])
    {
      goals, savings := [], [];
    }

    method AddToGoal(user: UserId, id: GoalId, amount: Option<real>, now: int, fault: GoalLedger.Fault)
      returns (r: LegacyOutcome)
      requires Valid()
      modifies this
      ensures (Snapshot(), r) == AddToGoalSpec(old(Snapshot()), user, id, amount, now, fault)
      ensures Valid()
    {
      if amount.None? || amount.value <= 0.0 {
        return BadAmount;
      }
      if fault == GoalLedger.ReadFails {
        return ServerError;
      }
      var found := IndexOfOwnedGoal(goals, id, user);
      if found.None? {
        return NotFound;
      }
      if fault == GoalLedger.GoalWriteFails {
        return ServerError;
      }
      var k := found.value;
      var a := amount.value;
      var updated := goals[k].(saved := goals[k].saved + a);
      goals := goals[k := updated];
      if fault == GoalLedger.RecordWriteFails {
        return ServerError;
      }
      savings := savings + [Saving(a, GOAL_CONTRIBUTION, now, user)];
      r := Credited(updated);
    }

    method DeleteGoal(user: UserId, id: GoalId, fault: GoalLedger.Fault) returns (r: LegacyOutcome)
      requires Valid()
      modifies this
      ensures (Snapshot(), r) == DeleteGoalSpec(old(Snapshot()), user, id, fault)
      ensures Valid()
    {
      if fault == GoalLedger.ReadFails {
        return ServerError;
      }
      var found := IndexOfOwnedGoal(goals, id, user);
      if found.None? {
        return NotFound;
      }
      if fault == GoalLedger.GoalWriteFails {
        return ServerError;
      }
      goals := RemoveAt(goals, found.value);
      r := Deleted;
    }
  }
}
