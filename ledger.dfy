/** The goal handlers of the backend: moving money between a user's wallet
    and their savings goals, paying out of a goal (directly or through a
    scanned QR code), editing and deleting goals. Every handler is a method
    of `Ledger`, whose fields are the tables it touches, and is proved equal
    to a specification function on a snapshot of those tables; the
    properties of each handler are stated and proved about that function.

    A handler receives the authenticated user id, the request fields (an
    absent or `null` field is `None`), the current time and a `Fault` saying
    which store call, if any, throws. A `prisma.$transaction` is
    all-or-nothing; writes outside one stand or fall separately. */
module GoalLedger {
  import opened Common
  import opened Store
  import opened Schemas
  import opened Tips

  /** Which store call throws during a request, if any. A handler ignores
      the faults that name a call it does not make. */
  datatype Fault =
    | NoFault
    | ReadFails          // a lookup throws before anything is written
    | WalletCreateFails  // creating the missing wallet throws
    | CommitFails        // the `$transaction` throws and is rolled back
    | GoalWriteFails     // a stand-alone write of the goal row throws
    | RecordWriteFails   // a stand-alone insert of the Saving/Expense row throws

  /** Faults inside the advisory-tip hook that runs after a contribution. */
  datatype TipFault =
    | NoTipFault
    | TipQueryFails                         // the generator's own lookups throw
    | InsightWritesFail(failed: set<nat>)   // these insight inserts throw

  function FailedInserts(f: TipFault): set<nat>
  {
    if f.InsightWritesFail? then f.failed else {}
  }

  datatype Shortfall = Shortfall(required: real, available: real)

  /** What a handler answers. */
  datatype Outcome =
    | Funded(goal: Goal, wallet: Wallet)                 // 200, goal and wallet after the move
    | Paid(goal: Goal)                                   // 200, goal after a payment
    | QrPaid(goal: Goal, amountPaid: real, qrData: string)
    | Updated(goal: Goal)
    | Deleted
    | BadAmount                                          // 400 'Amount must be greater than 0'
    | MissingField                                       // 400 'Goal ID, amount, and QR data are required'
    | NotFound                                           // 404 'Goal not found'
    | Insufficient(shortfall: Option<Shortfall>)         // 400 'Insufficient ...'
    | ServerError                                        // 500, the store threw

  /** The tables as one value. */
  datatype State = State(
    wallets: map<UserId, Wallet>,
    goals: seq<Goal>,
    transactions: seq<Transaction>,
    savings: seq<Saving>,
    expenses: seq<Expense>,
    insights: seq<Insight>,
    nextWalletId: nat)

  /** What every handler preserves: goal ids are unique, no wallet balance
      and no goal's `saved` is negative, each user's wallet is theirs and
      wallet ids are distinct and below the id counter. */
  predicate Consistent(s: State)
  {
    UniqueGoalIds(s.goals)
    && (forall i :: 0 <= i < |s.goals| ==> s.goals[i].saved >= 0.0)
    && (forall u :: u in s.wallets ==>
          s.wallets[u].owner == u && s.wallets[u].balance >= 0.0 && s.wallets[u].id < s.nextWalletId)
    && (forall u, v :: u in s.wallets && v in s.wallets && u != v ==> s.wallets[u].id != s.wallets[v].id)
  }

  /** `!amount || amount <= 0` rejects the request. */
  predicate AmountOk(amount: Option<real>)
  {
    amount.Some? && amount.value > 0.0
  }

  /** The state after `findUnique` + `create` of the user's wallet: a new
      wallet with balance 0 in USD when the user has none. */
  function WithWallet(s: State, user: UserId): (s': State)
    requires Consistent(s)
    ensures Consistent(s') && user in s'.wallets
    ensures user in s.wallets ==> s' == s
    ensures user !in s.wallets ==>
      s' == s.(wallets := s.wallets[user := Wallet(s.nextWalletId, user, 0.0, "USD")],
               nextWalletId := s.nextWalletId + 1)
  {
    if user in s.wallets then s
    else s.(wallets := s.wallets[user := Wallet(s.nextWalletId, user, 0.0, "USD")],
            nextWalletId := s.nextWalletId + 1)
  }

  /** The same state with goal k replaced by g. */
  function SetGoal(s: State, k: nat, g: Goal): (s': State)
    requires Consistent(s) && k < |s.goals| && g.id == s.goals[k].id && g.saved >= 0.0
    ensures Consistent(s')
    ensures s' == s.(goals := s.goals[k := g])
  {
    s.(goals := s.goals[k := g])
  }

  /** Everything outside the goal table and the wallet of `user` is as before. */
  predicate SameLogs(s: State, t: State)
  {
    t.transactions == s.transactions && t.savings == s.savings &&
    t.expenses == s.expenses && t.insights == s.insights
  }

  // ---------------------------------------------------------------------
  // addToGoal

  /** The `$transaction` of addToGoal: debit the wallet, credit the goal,
      log one Saving and one Transaction. */
  function Contribute(s: State, k: nat, user: UserId, a: real, now: int): (s': State)
    requires Consistent(s) && k < |s.goals| && user in s.wallets
    requires a > 0.0 && s.wallets[user].balance >= a
    ensures Consistent(s')
    ensures s'.wallets == s.wallets[user := s.wallets[user].(balance := s.wallets[user].balance - a)]
    ensures s'.goals == s.goals[k := s.goals[k].(saved := s.goals[k].saved + a)]
    ensures s'.savings == s.savings + [Saving(a, GOAL_CONTRIBUTION, now, user)]
    ensures s'.transactions == s.transactions + [Transaction(a, s.wallets[user].currency, WITHDRAWAL, COMPLETED,
      "Added to " + s.goals[k].name, Some(s.wallets[user].id), Some(user), None, None)]
    ensures s'.expenses == s.expenses && s'.insights == s.insights && s'.nextWalletId == s.nextWalletId
    ensures s'.wallets[user].balance + TotalSaved(s'.goals) == s.wallets[user].balance + TotalSaved(s.goals)
  {
    var w := s.wallets[user];
    var g := s.goals[k];
    TotalSavedUpdate(s.goals, k, g.(saved := g.saved + a));
    var s1 := SetGoal(s, k, g.(saved := g.saved + a));
    s1.(wallets := s.wallets[user := w.(balance := w.balance - a)],
        savings := s.savings + [Saving(a, GOAL_CONTRIBUTION, now, user)],
        transactions := s.transactions + [Transaction(a, w.currency, WITHDRAWAL, COMPLETED,
          "Added to " + g.name, Some(w.id), Some(user), None, None)])
  }

  /** The advisory-tip hook after a committed contribution: the tips for
      the goal as it now stands, stored as unread insights. Whatever fails
      in it is swallowed; it only ever appends insights. */
  function TipHook(s: State, user: UserId, id: GoalId, a: real, now: int, tipFault: TipFault): (s': State)
    ensures s' == s.(insights := s'.insights)
    ensures |s'.insights| >= |s.insights| && s'.insights[..|s.insights|] == s.insights
    ensures forall i :: |s.insights| <= i < |s'.insights| ==> s'.insights[i].owner == user && !s'.insights[i].isRead
    ensures |s'.insights| <= |s.insights| + MaxTips
  {
    var tips := GoalTips(GoalById(s.goals, id), ActiveGoalsOf(s.goals, user), id, a, now, tipFault == TipQueryFails);
    var rows := InsightRows(user, tips, FailedInserts(tipFault));
    var s' := s.(insights := s.insights + rows);
    assert s'.insights[..|s.insights|] == s.insights;
    assert forall i :: |s.insights| <= i < |s'.insights| ==> s'.insights[i] in rows;
    s'
  }

  /** addToGoal up to and including its `$transaction`, without the tip hook. */
  function AddToGoalCommit(s: State, user: UserId, id: GoalId, amount: Option<real>, now: int, fault: Fault)
    : (res: (State, Outcome))
    requires Consistent(s)
    ensures Consistent(res.0)
    // a bad amount is refused before anything is read
    ensures !AmountOk(amount) ==> res == (s, BadAmount)
    // someone else's goal, or no goal: nothing changes
    ensures AmountOk(amount) && fault != ReadFails && IndexOfOwnedGoal(s.goals, id, user).None? ==> res == (s, NotFound)
    ensures res.1 == NotFound ==> forall g :: g in s.goals ==> !(g.id == id && g.owner == user)
    // every refusal leaves the store as it was, apart from the lazily created wallet
    ensures !res.1.Funded? ==> res.0 == s || res.0 == WithWallet(s, user)
    // too little in the wallet
    ensures res.1.Insufficient? ==>
      AmountOk(amount) && res.0 == WithWallet(s, user) && res.0.wallets[user].balance < amount.value &&
      res.1.shortfall == Some(Shortfall(amount.value, res.0.wallets[user].balance))
    // an owned goal whose wallet lookup succeeds: refused exactly when the wallet holds too little,
    // and funded exactly when it holds enough and the commit goes through
    ensures (AmountOk(amount) && IndexOfOwnedGoal(s.goals, id, user).Some? &&
      fault != ReadFails && !(user !in s.wallets && fault == WalletCreateFails)) ==>
      (res.1.Insufficient? <==> WithWallet(s, user).wallets[user].balance < amount.value)
    ensures (AmountOk(amount) && IndexOfOwnedGoal(s.goals, id, user).Some? &&
      fault != ReadFails && fault != WalletCreateFails && fault != CommitFails) ==>
      (res.1.Funded? <==> WithWallet(s, user).wallets[user].balance >= amount.value)
    // the server fails only when a store call throws
    ensures fault == NoFault ==> !res.1.ServerError?
    // success: the committed transaction of an owned goal, paid for from the wallet
    ensures res.1.Funded? ==>
      AmountOk(amount) && IndexOfOwnedGoal(s.goals, id, user).Some? &&
      WithWallet(s, user).wallets[user].balance >= amount.value &&
      var k := IndexOfOwnedGoal(s.goals, id, user).value;
      res.0 == Contribute(WithWallet(s, user), k, user, amount.value, now) &&
      res.1 == Funded(res.0.goals[k], res.0.wallets[user])
  {
    if !AmountOk(amount) then (s, BadAmount)
    else if fault == ReadFails then (s, ServerError)
    else match IndexOfOwnedGoal(s.goals, id, user)
      case None => (s, NotFound)
      case Some(k) =>
        if user !in s.wallets && fault == WalletCreateFails then (s, ServerError)
        else
          var s1 := WithWallet(s, user);
          var a := amount.value;
          var w := s1.wallets[user];
          if w.balance < a then (s1, Insufficient(Some(Shortfall(a, w.balance))))
          else if fault == CommitFails then (s1, ServerError)
          else
            var s2 := Contribute(s1, k, user, a, now);
            (s2, Funded(s2.goals[k], s2.wallets[user]))
  }

  /** addToGoal: the committed contribution followed, on success only, by
      the tip hook, which adds insights and nothing else. */
  function AddToGoalSpec(s: State, user: UserId, id: GoalId, amount: Option<real>, now: int,
                         fault: Fault, tipFault: TipFault): (res: (State, Outcome))
    requires Consistent(s)
    ensures Consistent(res.0)
    ensures var c := AddToGoalCommit(s, user, id, amount, now, fault);
      res.1 == c.1 && res.0 == c.0.(insights := res.0.insights) &&
      (!res.1.Funded? ==> res.0 == c.0) &&
      |res.0.insights| >= |c.0.insights| && res.0.insights[..|c.0.insights|] == c.0.insights
    // the new insights belong to the user and are unread
    ensures forall i :: |s.insights| <= i < |res.0.insights| ==>
      res.0.insights[i].owner == user && !res.0.insights[i].isRead
  {
    var c := AddToGoalCommit(s, user, id, amount, now, fault);
    if c.1.Funded? then (TipHook(c.0, user, id, amount.value, now, tipFault), c.1) else c
  }

  /** Whatever goes wrong while generating or storing tips, the answer to
      addToGoal and every table except the insights are the same. */
  lemma TipFaultsNeverChangeTheOutcome(s: State, user: UserId, id: GoalId, amount: Option<real>, now: int,
                                       fault: Fault, t1: TipFault, t2: TipFault)
    requires Consistent(s)
    ensures var r1 := AddToGoalSpec(s, user, id, amount, now, fault, t1);
            var r2 := AddToGoalSpec(s, user, id, amount, now, fault, t2);
            r1.1 == r2.1 && r1.0.(insights := []) == r2.0.(insights := [])
  {
  }

  /** With no tip fault, the first insight the hook stores is the progress
      tip of the goal it looks up, with the amount added to that goal. */
  lemma HookStoresProgressTipFirst(s: State, user: UserId, id: GoalId, a: real, now: int, g: Goal)
    requires GoalById(s.goals, id) == Some(g)
    ensures var s' := TipHook(s, user, id, a, now, NoTipFault);
      |s'.insights| > |s.insights| &&
      s'.insights[|s.insights|] == InsightFor(user, ProgressTip(ContributionProgress(g, a)))
  {
    var tips := GoalTips(Some(g), ActiveGoalsOf(s.goals, user), id, a, now, false);
    var rows := InsightRows(user, tips, FailedInserts(NoTipFault));
    AllInsightsStored(user, tips, {});
    assert rows[0] == InsightFor(user, tips[0]);
    assert TipHook(s, user, id, a, now, NoTipFault).insights == s.insights + rows;
  }

  /** The committed contribution keeps the goal at its place, credited, and
      leaves the insights alone. */
  lemma CommittedGoal(s: State, user: UserId, id: GoalId, a: real, now: int, fault: Fault)
    requires Consistent(s) && IndexOfOwnedGoal(s.goals, id, user).Some?
    requires AddToGoalCommit(s, user, id, Some(a), now, fault).1.Funded?
    ensures var c := AddToGoalCommit(s, user, id, Some(a), now, fault);
      var g := s.goals[IndexOfOwnedGoal(s.goals, id, user).value];
      GoalById(c.0.goals, id) == Some(g.(saved := g.saved + a)) && c.0.insights == s.insights
  {
    var c := AddToGoalCommit(s, user, id, Some(a), now, fault);
    var k := IndexOfOwnedGoal(s.goals, id, user).value;
    assert c.0 == Contribute(WithWallet(s, user), k, user, a, now);
    assert IndexOfGoal(s.goals, id) == Some(k);
    assert forall j :: 0 <= j < k ==> c.0.goals[j].id == s.goals[j].id;
    assert IndexOfGoal(c.0.goals, id) == Some(k);
  }

  /** The progress the generator computes from the committed goal is that
      of the goal before the contribution with the amount added twice. */
  lemma DoubleCounted(g: Goal, a: real)
    ensures ContributionProgress(g.(saved := g.saved + a), a) == Progress(g.(saved := g.saved + a + a))
  {
  }

  /** For every successful contribution, the first insight the hook stores
      is the progress tip of the committed goal (already holding the
      amount) with the amount added once more; by DoubleCounted that is the
      progress of the stored goal with the amount counted twice. */
  lemma HookCountsContributionTwice(s: State, user: UserId, id: GoalId, a: real, now: int, fault: Fault)
    requires Consistent(s) && IndexOfOwnedGoal(s.goals, id, user).Some?
    requires AddToGoalCommit(s, user, id, Some(a), now, fault).1.Funded?
    ensures var r := AddToGoalSpec(s, user, id, Some(a), now, fault, NoTipFault);
      var g := s.goals[IndexOfOwnedGoal(s.goals, id, user).value];
      |r.0.insights| > |s.insights| &&
      r.0.insights[|s.insights|] == InsightFor(user, ProgressTip(ContributionProgress(g.(saved := g.saved + a), a)))
  {
    var c := AddToGoalCommit(s, user, id, Some(a), now, fault);
    var g := s.goals[IndexOfOwnedGoal(s.goals, id, user).value];
    CommittedGoal(s, user, id, a, now, fault);
    HookStoresProgressTipFirst(c.0, user, id, a, now, g.(saved := g.saved + a));
    var r := AddToGoalSpec(s, user, id, Some(a), now, fault, NoTipFault);
    assert r.0 == TipHook(c.0, user, id, a, now, NoTipFault);
  }

  // ---------------------------------------------------------------------
  // withdrawFromGoal

  /** The `$transaction` of withdrawFromGoal: debit the goal, credit the
      wallet, log one DEPOSIT Transaction received by the wallet. */
  function Withdraw(s: State, k: nat, user: UserId, a: real): (s': State)
    requires Consistent(s) && k < |s.goals| && user in s.wallets
    requires a > 0.0 && s.goals[k].saved >= a
    ensures Consistent(s')
    ensures s'.wallets == s.wallets[user := s.wallets[user].(balance := s.wallets[user].balance + a)]
    ensures s'.goals == s.goals[k := s.goals[k].(saved := s.goals[k].saved - a)]
    ensures s'.transactions == s.transactions + [Transaction(a, s.wallets[user].currency, DEPOSIT, COMPLETED,
      "Withdrawn from " + s.goals[k].name, None, None, Some(s.wallets[user].id), Some(user))]
    ensures s'.savings == s.savings && s'.expenses == s.expenses && s'.insights == s.insights
    ensures s'.nextWalletId == s.nextWalletId
    ensures s'.wallets[user].balance + TotalSaved(s'.goals) == s.wallets[user].balance + TotalSaved(s.goals)
  {
    var w := s.wallets[user];
    var g := s.goals[k];
    TotalSavedUpdate(s.goals, k, g.(saved := g.saved - a));
    var s1 := SetGoal(s, k, g.(saved := g.saved - a));
    s1.(wallets := s.wallets[user := w.(balance := w.balance + a)],
        transactions := s.transactions + [Transaction(a, w.currency, DEPOSIT, COMPLETED,
          "Withdrawn from " + g.name, None, None, Some(w.id), Some(user))])
  }

  function WithdrawFromGoalSpec(s: State, user: UserId, id: GoalId, amount: Option<real>, fault: Fault)
    : (res: (State, Outcome))
    requires Consistent(s)
    ensures Consistent(res.0)
    ensures !AmountOk(amount) ==> res == (s, BadAmount)
    ensures AmountOk(amount) && fault != ReadFails && IndexOfOwnedGoal(s.goals, id, user).None? ==> res == (s, NotFound)
    ensures res.1 == NotFound ==> forall g :: g in s.goals ==> !(g.id == id && g.owner == user)
    // every refusal leaves the store as it was, apart from the lazily created wallet
    ensures !res.1.Funded? ==> res.0 == s || res.0 == WithWallet(s, user)
    // too little in the goal: refused before the wallet is looked up, nothing changes
    ensures res.1.Insufficient? ==>
      AmountOk(amount) && IndexOfOwnedGoal(s.goals, id, user).Some? && res.0 == s &&
      var k := IndexOfOwnedGoal(s.goals, id, user).value;
      s.goals[k].saved < amount.value && res.1.shortfall == Some(Shortfall(amount.value, s.goals[k].saved))
    // an owned goal: refused exactly when it holds too little, funded exactly when it holds enough
    // and neither the wallet creation nor the commit throws
    ensures AmountOk(amount) && fault != ReadFails && IndexOfOwnedGoal(s.goals, id, user).Some? ==>
      (res.1.Insufficient? <==> s.goals[IndexOfOwnedGoal(s.goals, id, user).value].saved < amount.value)
    ensures (AmountOk(amount) && IndexOfOwnedGoal(s.goals, id, user).Some? &&
      fault != ReadFails && fault != WalletCreateFails && fault != CommitFails) ==>
      (res.1.Funded? <==> s.goals[IndexOfOwnedGoal(s.goals, id, user).value].saved >= amount.value)
    ensures fault == NoFault ==> !res.1.ServerError?
    // success: the committed transaction of an owned goal holding at least the amount
    ensures res.1.Funded? ==>
      AmountOk(amount) && IndexOfOwnedGoal(s.goals, id, user).Some? &&
      var k := IndexOfOwnedGoal(s.goals, id, user).value;
      s.goals[k].saved >= amount.value &&
      res.0 == Withdraw(WithWallet(s, user), k, user, amount.value) &&
      res.1 == Funded(res.0.goals[k], res.0.wallets[user])
  {
    if !AmountOk(amount) then (s, BadAmount)
    else if fault == ReadFails then (s, ServerError)
    else match IndexOfOwnedGoal(s.goals, id, user)
      case None => (s, NotFound)
      case Some(k) =>
        var a := amount.value;
        if s.goals[k].saved < a then (s, Insufficient(Some(Shortfall(a, s.goals[k].saved))))
        else if user !in s.wallets && fault == WalletCreateFails then (s, ServerError)
        else
          var s1 := WithWallet(s, user);
          if fault == CommitFails then (s1, ServerError)
          else
            var s2 := Withdraw(s1, k, user, a);
            (s2, Funded(s2.goals[k], s2.wallets[user]))
  }

  // ---------------------------------------------------------------------
  // makePaymentFromGoal

  /** `description || 'Payment for <name>'`: an empty description counts as none. */
  function PaymentDescription(description: Option<string>, goalName: string): (d: string)
    ensures description.Some? && description.value != "" ==> d == description.value
    ensures description.None? || description.value == "" ==> d == "Payment for " + goalName
  {
    if description.Some? && description.value != "" then description.value else "Payment for " + goalName
  }

  function MakePaymentSpec(s: State, user: UserId, id: GoalId, amount: Option<real>, description: Option<string>,
                           now: int, fault: Fault): (res: (State, Outcome))
    requires Consistent(s)
    ensures Consistent(res.0)
    ensures !AmountOk(amount) ==> res == (s, BadAmount)
    ensures AmountOk(amount) && fault != ReadFails && IndexOfOwnedGoal(s.goals, id, user).None? ==> res == (s, NotFound)
    ensures !res.1.Paid? ==> res.0 == s
    ensures res.1 == NotFound ==> forall g :: g in s.goals ==> !(g.id == id && g.owner == user)
    ensures res.1.Insufficient? ==>
      AmountOk(amount) && IndexOfOwnedGoal(s.goals, id, user).Some? &&
      var k := IndexOfOwnedGoal(s.goals, id, user).value;
      s.goals[k].saved < amount.value && res.1.shortfall == Some(Shortfall(amount.value, s.goals[k].saved))
    // an owned goal: refused exactly when it holds too little, paid exactly when it holds enough
    // and the commit goes through
    ensures AmountOk(amount) && fault != ReadFails && IndexOfOwnedGoal(s.goals, id, user).Some? ==>
      (res.1.Insufficient? <==> s.goals[IndexOfOwnedGoal(s.goals, id, user).value].saved < amount.value)
    ensures AmountOk(amount) && fault != ReadFails && fault != CommitFails && IndexOfOwnedGoal(s.goals, id, user).Some? ==>
      (res.1.Paid? <==> s.goals[IndexOfOwnedGoal(s.goals, id, user).value].saved >= amount.value)
    ensures fault == NoFault ==> !res.1.ServerError?
    // success: only the goal and the expense table change; the wallet and the transaction log do not
    ensures res.1.Paid? ==>
      AmountOk(amount) && IndexOfOwnedGoal(s.goals, id, user).Some? &&
      var k := IndexOfOwnedGoal(s.goals, id, user).value;
      var a := amount.value;
      s.goals[k].saved >= a &&
      res.1.goal == s.goals[k].(saved := s.goals[k].saved - a) &&
      res.0 == s.(goals := s.goals[k := res.1.goal],
                  expenses := s.expenses + [Expense(PaymentDescription(description, s.goals[k].name),
                                                    a, "Goal Payment", now, user)])
  {
    if !AmountOk(amount) then (s, BadAmount)
    else if fault == ReadFails then (s, ServerError)
    else match IndexOfOwnedGoal(s.goals, id, user)
      case None => (s, NotFound)
      case Some(k) =>
        var a := amount.value;
        var g := s.goals[k];
        if g.saved < a then (s, Insufficient(Some(Shortfall(a, g.saved))))
        else if fault == CommitFails then (s, ServerError)
        else
          var g' := g.(saved := g.saved - a);
          var s1 := SetGoal(s, k, g');
          (s1.(expenses := s.expenses + [Expense(PaymentDescription(description, g.name), a, "Goal Payment", now, user)]),
           Paid(g'))
  }

  // ---------------------------------------------------------------------
  // processQRPayment

  /** `!x` on a string field: absent, null or empty. */
  predicate MissingText(x: Option<string>)
  {
    x.None? || x.value == ""
  }

  /** The request passes both field checks: every field present and the amount positive. */
  predicate QrFieldsOk(goalId: Option<GoalId>, amount: Option<real>, qrData: Option<string>)
  {
    !MissingText(goalId) && amount.Some? && amount.value > 0.0 && !MissingText(qrData)
  }

  function QrPaymentSpec(s: State, user: UserId, goalId: Option<GoalId>, amount: Option<real>,
                         qrData: Option<string>, now: int, fault: Fault): (res: (State, Outcome))
    requires Consistent(s)
    ensures Consistent(res.0)
    // a missing field (or an amount of 0) is reported first, a negative amount next
    ensures (MissingText(goalId) || amount.None? || amount == Some(0.0) || MissingText(qrData)) ==> res == (s, MissingField)
    ensures !(MissingText(goalId) || amount.None? || amount == Some(0.0) || MissingText(qrData)) && amount.value < 0.0 ==>
      res == (s, BadAmount)
    ensures res.1.NotFound? ==>
      goalId.Some? && forall g :: g in s.goals ==> !(g.id == goalId.value && g.owner == user)
    // too little in the goal: nothing changes and no figures are reported
    ensures res.1.Insufficient? ==>
      res == (s, Insufficient(None)) && goalId.Some? && amount.Some? &&
      IndexOfOwnedGoal(s.goals, goalId.value, user).Some? &&
      s.goals[IndexOfOwnedGoal(s.goals, goalId.value, user).value].saved < amount.value
    ensures !res.1.QrPaid? && !res.1.ServerError? ==> res.0 == s
    // complete fields and a positive amount: someone else's goal, or no goal, is not found
    ensures (QrFieldsOk(goalId, amount, qrData) && fault != ReadFails &&
      IndexOfOwnedGoal(s.goals, goalId.value, user).None?) ==> res == (s, NotFound)
    // an owned goal: refused exactly when it holds too little, paid exactly when it holds enough
    // and neither write throws
    ensures (QrFieldsOk(goalId, amount, qrData) && fault != ReadFails &&
      IndexOfOwnedGoal(s.goals, goalId.value, user).Some?) ==>
      (res.1.Insufficient? <==> s.goals[IndexOfOwnedGoal(s.goals, goalId.value, user).value].saved < amount.value)
    ensures (QrFieldsOk(goalId, amount, qrData) && fault != ReadFails && fault != GoalWriteFails &&
      fault != RecordWriteFails && IndexOfOwnedGoal(s.goals, goalId.value, user).Some?) ==>
      (res.1.QrPaid? <==> s.goals[IndexOfOwnedGoal(s.goals, goalId.value, user).value].saved >= amount.value)
    ensures fault == NoFault ==> !res.1.ServerError?
    // the expense insert throws after the goal write: the goal stays debited, no expense is logged
    ensures (QrFieldsOk(goalId, amount, qrData) && fault == RecordWriteFails &&
      IndexOfOwnedGoal(s.goals, goalId.value, user).Some? &&
      s.goals[IndexOfOwnedGoal(s.goals, goalId.value, user).value].saved >= amount.value) ==>
      var k := IndexOfOwnedGoal(s.goals, goalId.value, user).value;
      res == (s.(goals := s.goals[k := s.goals[k].(saved := s.goals[k].saved - amount.value)]), ServerError)
    // the two writes are separate: when the expense insert throws, the goal stays debited
    ensures res.1.ServerError? ==> res.0 == s || (fault == RecordWriteFails && res.0.expenses == s.expenses)
    ensures res.0.wallets == s.wallets && res.0.transactions == s.transactions && res.0.savings == s.savings
    ensures res.1.QrPaid? ==>
      goalId.Some? && amount.Some? && qrData.Some? && IndexOfOwnedGoal(s.goals, goalId.value, user).Some? &&
      var k := IndexOfOwnedGoal(s.goals, goalId.value, user).value;
      var a := amount.value;
      a > 0.0 && s.goals[k].saved >= a &&
      res.1 == QrPaid(s.goals[k].(saved := s.goals[k].saved - a), a, qrData.value) &&
      res.0 == s.(goals := s.goals[k := res.1.goal],
                  expenses := s.expenses + [Expense("QR Payment from " + s.goals[k].name, a, "Payment", now, user)])
  {
    if MissingText(goalId) || amount.None? || amount == Some(0.0) || MissingText(qrData) then (s, MissingField)
    else if amount.value <= 0.0 then (s, BadAmount)
    else if fault == ReadFails then (s, ServerError)
    else match IndexOfOwnedGoal(s.goals, goalId.value, user)
      case None => (s, NotFound)
      case Some(k) =>
        var a := amount.value;
        var g := s.goals[k];
        if g.saved < a then (s, Insufficient(None))
        else if fault == GoalWriteFails then (s, ServerError)
        else
          var g' := g.(saved := g.saved - a);
          var s1 := SetGoal(s, k, g');
          if fault == RecordWriteFails then (s1, ServerError)
          else (s1.(expenses := s.expenses + [Expense("QR Payment from " + g.name, a, "Payment", now, user)]),
                QrPaid(g', a, qrData.value))
  }

  // ---------------------------------------------------------------------
  // updateGoal and deleteGoal

  /** The goal after `prisma.goal.update` with the validated patch: each
      field the patch carries replaces the stored one; `targetDate` is
      converted with `dateOf` (`new Date(..)`). */
  function ApplyPatch(g: Goal, p: GoalUpdate, dateOf: string -> int): (g': Goal)
    ensures g'.id == g.id && g'.owner == g.owner
    ensures g'.saved == (if p.saved.Some? then p.saved.value else g.saved)
    ensures g'.target == (if p.target.Some? then p.target.value else g.target)
    ensures g'.isActive == (if p.isActive.Some? then p.isActive.value else g.isActive)
    ensures g'.name == (if p.name.Some? then p.name.value else g.name)
    ensures g'.description == (if p.description.Some? then p.description else g.description)
    ensures g'.targetDate == (if p.targetDate.Some? then dateOf(p.targetDate.value) else g.targetDate)
    ensures g'.priority == (if p.priority.Some? then p.priority.value else g.priority)
    ensures g'.emoji == (if p.emoji.Some? then p.emoji else g.emoji)
    ensures p == GoalUpdate(None, None, None, None, None, None, None, None) ==> g' == g
  {
    g.(name := if p.name.Some? then p.name.value else g.name,
       description := if p.description.Some? then p.description else g.description,
       target := if p.target.Some? then p.target.value else g.target,
       targetDate := if p.targetDate.Some? then dateOf(p.targetDate.value) else g.targetDate,
       priority := if p.priority.Some? then p.priority.value else g.priority,
       emoji := if p.emoji.Some? then p.emoji else g.emoji,
       saved := if p.saved.Some? then p.saved.value else g.saved,
       isActive := if p.isActive.Some? then p.isActive.value else g.isActive)
  }

  function UpdateGoalSpec(s: State, user: UserId, id: GoalId, patch: GoalUpdate, dateOf: string -> int, fault: Fault)
    : (res: (State, Outcome))
    requires Consistent(s)
    ensures Consistent(res.0)
    ensures !res.1.Updated? ==> res.0 == s
    ensures res.1 == NotFound <==> fault != ReadFails && IndexOfOwnedGoal(s.goals, id, user).None?
    ensures res.1.Updated? ==>
      IndexOfOwnedGoal(s.goals, id, user).Some? &&
      var k := IndexOfOwnedGoal(s.goals, id, user).value;
      res.1.goal == ApplyPatch(s.goals[k], patch, dateOf) && res.0 == s.(goals := s.goals[k := res.1.goal])
  {
    if fault == ReadFails then (s, ServerError)
    else match IndexOfOwnedGoal(s.goals, id, user)
      case None => (s, NotFound)
      case Some(k) =>
        if fault == GoalWriteFails then (s, ServerError)
        else
          var g' := ApplyPatch(s.goals[k], patch, dateOf);
          (SetGoal(s, k, g'), Updated(g'))
  }

  function DeleteGoalSpec(s: State, user: UserId, id: GoalId, fault: Fault): (res: (State, Outcome))
    requires Consistent(s)
    ensures Consistent(res.0)
    ensures !res.1.Deleted? ==> res.0 == s
    ensures res.1 == NotFound <==> fault != ReadFails && forall g :: g in s.goals ==> !(g.id == id && g.owner == user)
    ensures res.1.Deleted? ==>
      res.0 == s.(goals := res.0.goals) && (forall g :: g in res.0.goals <==> g in s.goals && g.id != id) &&
      exists g :: g in s.goals && g.id == id && g.owner == user
  {
    if fault == ReadFails then (s, ServerError)
    else match DeleteOwned(s.goals, id, user)
      case None => (s, NotFound)
      case Some(rest) =>
        if fault == GoalWriteFails then (s, ServerError)
        else
          var s' := s.(goals := rest);
          assert Consistent(s') by {
            forall i | 0 <= i < |rest| ensures rest[i].saved >= 0.0 {
              assert rest[i] in s.goals;
            }
          }
          (s', Deleted)
  }

  // ---------------------------------------------------------------------
  // Properties relating several requests

  /** Undoing a committed contribution with a withdrawal of the same
      amount restores the goal table and the wallets. */
  lemma WithdrawUndoesContribute(s: State, k: nat, user: UserId, a: real, now: int)
    requires Consistent(s) && k < |s.goals| && user in s.wallets && a > 0.0 && s.wallets[user].balance >= a
    ensures var s1 := Contribute(s, k, user, a, now);
            s1.goals[k].saved >= a &&
            Withdraw(s1, k, user, a).goals == s.goals && Withdraw(s1, k, user, a).wallets == s.wallets
  {
    var s1 := Contribute(s, k, user, a, now);
    var s2 := Withdraw(s1, k, user, a);
    assert s2.goals[k] == s.goals[k];
    assert s2.wallets[user] == s.wallets[user];
  }

  /** Moving an amount into a goal and straight back out leaves the wallet
      balance and every goal exactly as they were (only the logs grow).
      The tip hook in between only adds insights, which a withdrawal does
      not read. */
  lemma AddThenWithdrawRestoresBalances(s: State, user: UserId, id: GoalId, a: real, now: int)
    requires Consistent(s)
    requires AddToGoalCommit(s, user, id, Some(a), now, NoFault).1.Funded?
    ensures var s1 := AddToGoalCommit(s, user, id, Some(a), now, NoFault).0;
            var r2 := WithdrawFromGoalSpec(s1, user, id, Some(a), NoFault);
            r2.1.Funded? && r2.0.goals == s.goals && r2.0.wallets == WithWallet(s, user).wallets
  {
    var k := IndexOfOwnedGoal(s.goals, id, user).value;
    var s0 := WithWallet(s, user);
    var s1 := AddToGoalCommit(s, user, id, Some(a), now, NoFault).0;
    assert s1 == Contribute(s0, k, user, a, now);
    WithdrawUndoesContribute(s0, k, user, a, now);
    // the goal is found at the same place after the contribution
    assert s1.goals[k].id == id && s1.goals[k].owner == user;
    assert IndexOfOwnedGoal(s1.goals, id, user) == Some(k);
  }

  /** A goal at 0 of 500 and a wallet holding 200: contributing 150 leaves
      50 in the wallet and 150 in the goal, and logs one Saving and one
      Transaction. */
  lemma ContributionScenario(now: int, targetDate: int)
    ensures var goal := Goal("g1", "u1", "Vacation", None, 500.0, 0.0, targetDate, MEDIUM, None, true);
            var s := State(map["u1" := Wallet(0, "u1", 200.0, "USD")], [goal], [], [], [], [], 1);
            var r := AddToGoalSpec(s, "u1", "g1", Some(150.0), now, NoFault, NoTipFault);
            Consistent(s) &&
            r.1 == Funded(goal.(saved := 150.0), Wallet(0, "u1", 50.0, "USD")) &&
            r.0.goals == [goal.(saved := 150.0)] &&
            |r.0.savings| == 1 && |r.0.transactions| == 1
  {
    var goal := Goal("g1", "u1", "Vacation", None, 500.0, 0.0, targetDate, MEDIUM, None, true);
    var s := State(map["u1" := Wallet(0, "u1", 200.0, "USD")], [goal], [], [], [], [], 1);
    assert Consistent(s);
    assert IndexOfOwnedGoal(s.goals, "g1", "u1") == Some(0);
    var c := AddToGoalCommit(s, "u1", "g1", Some(150.0), now, NoFault);
    assert WithWallet(s, "u1") == s;
    var s2 := Contribute(s, 0, "u1", 150.0, now);
    assert s2.goals == [goal.(saved := 150.0)];
    assert s2.wallets["u1"] == Wallet(0, "u1", 50.0, "USD");
    assert c == (s2, Funded(s2.goals[0], s2.wallets["u1"]));
  }

  /** In the same scenario the tip hook reports 60%, not 30%: the goal it
      reads already includes the contribution, which it then adds again. */
  lemma ContributionTipCountsTwice(now: int, targetDate: int)
    ensures var goal := Goal("g1", "u1", "Vacation", None, 500.0, 0.0, targetDate, MEDIUM, None, true);
            var s := State(map["u1" := Wallet(0, "u1", 200.0, "USD")], [goal], [], [], [], [], 1);
            var r := AddToGoalSpec(s, "u1", "g1", Some(150.0), now, NoFault, NoTipFault);
            Consistent(s) &&
            GoalTips(GoalById(r.0.goals, "g1"), ActiveGoalsOf(r.0.goals, "u1"), "g1", 150.0, now, false)[0].kind
              == HalfwayThere(60.0)
  {
    ContributionScenario(now, targetDate);
    var goal := Goal("g1", "u1", "Vacation", None, 500.0, 0.0, targetDate, MEDIUM, None, true);
    var g' := goal.(saved := 150.0);
    assert GoalById([g'], "g1") == Some(g') by {
      assert IndexOfGoal([g'], "g1") == Some(0);
    }
    assert g'.saved + 150.0 == 300.0 && g'.target == 500.0;
    assert 300.0 / 500.0 * 100.0 == 60.0;
    assert ContributionProgress(g', 150.0) == 60.0;
  }

  /** A goal holding 80 of 100: paying 80 out of it leaves 0 and one
      "Goal Payment" expense; paying 1 more is then refused. */
  lemma PaymentScenario(now: int, targetDate: int)
    ensures var goal := Goal("g1", "u1", "Laptop", None, 100.0, 80.0, targetDate, MEDIUM, None, true);
            var s := State(map[], [goal], [], [], [], [], 0);
            var r1 := MakePaymentSpec(s, "u1", "g1", Some(80.0), None, now, NoFault);
            var r2 := MakePaymentSpec(r1.0, "u1", "g1", Some(1.0), None, now, NoFault);
            Consistent(s) &&
            r1.1 == Paid(goal.(saved := 0.0)) &&
            r1.0.expenses == [Expense("Payment for Laptop", 80.0, "Goal Payment", now, "u1")] &&
            r2 == (r1.0, Insufficient(Some(Shortfall(1.0, 0.0))))
  {
    var goal := Goal("g1", "u1", "Laptop", None, 100.0, 80.0, targetDate, MEDIUM, None, true);
    var s := State(map[], [goal], [], [], [], [], 0);
    assert Consistent(s);
    assert IndexOfOwnedGoal(s.goals, "g1", "u1") == Some(0);
    var r1 := MakePaymentSpec(s, "u1", "g1", Some(80.0), None, now, NoFault);
    assert PaymentDescription(None, "Laptop") == "Payment for Laptop" by {
      assert "Payment for " + "Laptop" == "Payment for Laptop";
    }
    assert r1.1 == Paid(goal.(saved := 0.0));
    assert r1.0.goals == [goal.(saved := 0.0)];
    assert r1.0.expenses == [Expense("Payment for Laptop", 80.0, "Goal Payment", now, "u1")];
    assert IndexOfOwnedGoal(r1.0.goals, "g1", "u1") == Some(0);
    var r2 := MakePaymentSpec(r1.0, "u1", "g1", Some(1.0), None, now, NoFault);
    assert r2 == (r1.0, Insufficient(Some(Shortfall(1.0, 0.0))));
  }

  // ---------------------------------------------------------------------
  // The store as an object

  class Ledger {
    var wallets: map<UserId, Wallet>
    var goals: seq<Goal>
    var transactions: seq<Transaction>
    var savings: seq<Saving>
    var expenses: seq<Expense>
    var insights: seq<Insight>
    var nextWalletId: nat

    function Snapshot(): State
      reads this
    {
      State(wallets, goals, transactions, savings, expenses, insights, nextWalletId)
    }

    predicate Valid()
      reads this
    {
      Consistent(Snapshot())
    }

    constructor ()
      ensures Valid() && Snapshot() == State(map[], [], [], [], [], [], 0)
    {
      wallets, goals, transactions, savings, expenses, insights, nextWalletId := map[], [], [], [], [], [], 0;
    }

    /** `prisma.wallet.findUnique({ userId })`, then `prisma.wallet.create({
        userId, balance: 0, currency: 'USD' })` when there is none; `None`
        when that create throws. */
    method FindOrCreateWallet(user: UserId, createFails: bool) returns (w: Option<Wallet>)
      requires Valid()
      modifies this
      ensures Valid()
      ensures w.None? <==> old(user !in wallets) && createFails
      ensures w.None? ==> Snapshot() == old(Snapshot())
      ensures w.Some? ==> Snapshot() == WithWallet(old(Snapshot()), user) && w.value == wallets[user]
    {
      if user in wallets {
        return Some(wallets[user]);
      }
      if createFails {
        return None;
      }
      var created := Wallet(nextWalletId, user, 0.0, "USD");
      wallets := wallets[user := created];
      nextWalletId := nextWalletId + 1;
      w := Some(created);
    }

    /** The `$transaction` of addToGoal. */
    method CommitContribution(k: nat, user: UserId, a: real, now: int)
      requires Valid() && k < |goals| && user in wallets && a > 0.0 && wallets[user].balance >= a
      modifies this
      ensures Snapshot() == Contribute(old(Snapshot()), k, user, a, now)
      ensures Valid()
    {
      var w := wallets[user];
      var g := goals[k];
      wallets := wallets[user := w.(balance := w.balance - a)];
      goals := goals[k := g.(saved := g.saved + a)];
      savings := savings + [Saving(a, GOAL_CONTRIBUTION, now, user)];
      transactions := transactions + [Transaction(a, w.currency, WITHDRAWAL, COMPLETED,
        "Added to " + g.name, Some(w.id), Some(user), None, None)];
    }

    /** The `$transaction` of withdrawFromGoal. */
    method CommitWithdrawal(k: nat, user: UserId, a: real)
      requires Valid() && k < |goals| && user in wallets && a > 0.0 && goals[k].saved >= a
      modifies this
      ensures Snapshot() == Withdraw(old(Snapshot()), k, user, a)
      ensures Valid()
    {
      var w := wallets[user];
      var g := goals[k];
      goals := goals[k := g.(saved := g.saved - a)];
      wallets := wallets[user := w.(balance := w.balance + a)];
      transactions := transactions + [Transaction(a, w.currency, DEPOSIT, COMPLETED,
        "Withdrawn from " + g.name, None, None, Some(w.id), Some(user))];
    }

    /** `storeTipsAsInsights`: one unread insight per tip whose insert does not throw. */
    method StoreTipsAsInsights(user: UserId, tips: seq<Tip>, failed: set<nat>)
      requires Valid()
      modifies this
      ensures Snapshot() == old(Snapshot()).(insights := old(insights) + InsightRows(user, tips, failed))
      ensures Valid()
    {
      insights := insights + InsightRows(user, tips, failed);
    }

    /** The tip hook run after a committed contribution: the tips for the
        goal as it now stands, stored as insights. */
    method RunTipHook(user: UserId, id: GoalId, a: real, now: int, tipFault: TipFault)
      requires Valid()
      modifies this
      ensures Snapshot() == TipHook(old(Snapshot()), user, id, a, now, tipFault)
      ensures Valid()
    {
      var tips := GenerateGoalTips(GoalById(goals, id), ActiveGoalsOf(goals, user), id, a, now, tipFault == TipQueryFails);
      StoreTipsAsInsights(user, tips, FailedInserts(tipFault));
    }

    /** addToGoal up to its committed transaction. */
    method AddToGoalCommitted(user: UserId, id: GoalId, amount: Option<real>, now: int, fault: Fault)
      returns (r: Outcome)
      requires Valid()
      modifies this
      ensures (Snapshot(), r) == AddToGoalCommit(old(Snapshot()), user, id, amount, now, fault)
      ensures Valid()
    {
      ghost var s0 := Snapshot();
      ghost var spec := AddToGoalCommit(s0, user, id, amount, now, fault);
      if amount.None? || amount.value <= 0.0 {
        return BadAmount;
      }
      if fault == ReadFails {
        return ServerError;
      }
      var found := IndexOfOwnedGoal(goals, id, user);
      if found.None? {
        return NotFound;
      }
      var k := found.value;
      var w := FindOrCreateWallet(user, fault == WalletCreateFails);
      if w.None? {
        assert spec == (s0, ServerError);
        return ServerError;
      }
      ghost var s1 := Snapshot();
      assert s1 == WithWallet(s0, user);
      var a := amount.value;
      if w.value.balance < a {
        assert spec == (s1, Insufficient(Some(Shortfall(a, w.value.balance))));
        return Insufficient(Some(Shortfall(a, w.value.balance)));
      }
      if fault == CommitFails {
        assert spec == (s1, ServerError);
        return ServerError;
      }
      CommitContribution(k, user, a, now);
      assert spec.0 == Snapshot();
      r := Funded(goals[k], wallets[user]);
    }

    method AddToGoal(user: UserId, id: GoalId, amount: Option<real>, now: int, fault: Fault, tipFault: TipFault)
      returns (r: Outcome)
      requires Valid()
      modifies this
      ensures (Snapshot(), r) == AddToGoalSpec(old(Snapshot()), user, id, amount, now, fault, tipFault)
      ensures Valid()
    {
      r := AddToGoalCommitted(user, id, amount, now, fault);
      if r.Funded? {
        RunTipHook(user, id, amount.value, now, tipFault);
      }
    }

    method WithdrawFromGoal(user: UserId, id: GoalId, amount: Option<real>, fault: Fault) returns (r: Outcome)
      requires Valid()
      modifies this
      ensures (Snapshot(), r) == WithdrawFromGoalSpec(old(Snapshot()), user, id, amount, fault)
      ensures Valid()
    {
      ghost var s0 := Snapshot();
      ghost var spec := WithdrawFromGoalSpec(s0, user, id, amount, fault);
      if amount.None? || amount.value <= 0.0 {
        return BadAmount;
      }
      if fault == ReadFails {
        return ServerError;
      }
      var found := IndexOfOwnedGoal(goals, id, user);
      if found.None? {
        return NotFound;
      }
      var k := found.value;
      var a := amount.value;
      if goals[k].saved < a {
        return Insufficient(Some(Shortfall(a, goals[k].saved)));
      }
      var w := FindOrCreateWallet(user, fault == WalletCreateFails);
      if w.None? {
        return ServerError;
      }
      if fault == CommitFails {
        return ServerError;
      }
      CommitWithdrawal(k, user, a);
      assert spec.0 == Snapshot();
      r := Funded(goals[k], wallets[user]);
    }

    method MakePaymentFromGoal(user: UserId, id: GoalId, amount: Option<real>, description: Option<string>,
                               now: int, fault: Fault) returns (r: Outcome)
      requires Valid()
      modifies this
      ensures (Snapshot(), r) == MakePaymentSpec(old(Snapshot()), user, id, amount, description, now, fault)
      ensures Valid()
    {
      ghost var s0 := Snapshot();
      ghost var spec := MakePaymentSpec(s0, user, id, amount, description, now, fault);
      if amount.None? || amount.value <= 0.0 {
        return BadAmount;
      }
      if fault == ReadFails {
        return ServerError;
      }
      var found := IndexOfOwnedGoal(goals, id, user);
      if found.None? {
        return NotFound;
      }
      var k := found.value;
      var g := goals[k];
      var a := amount.value;
      if g.saved < a {
        return Insufficient(Some(Shortfall(a, g.saved)));
      }
      if fault == CommitFails {
        return ServerError;
      }
      var g' := g.(saved := g.saved - a);
      goals := goals[k := g'];
      expenses := expenses + [Expense(PaymentDescription(description, g.name), a, "Goal Payment", now, user)];
      r := Paid(g');
      assert Snapshot() == SetGoal(s0, k, g').(expenses := s0.expenses + [Expense(PaymentDescription(description, g.name), a, "Goal Payment", now, user)]);
    }

    method ProcessQrPayment(user: UserId, goalId: Option<GoalId>, amount: Option<real>, qrData: Option<string>,
                            now: int, fault: Fault) returns (r: Outcome)
      requires Valid()
      modifies this
      ensures (Snapshot(), r) == QrPaymentSpec(old(Snapshot()), user, goalId, amount, qrData, now, fault)
      ensures Valid()
    {
      if MissingText(goalId) || amount.None? || amount == Some(0.0) || MissingText(qrData) {
        return MissingField;
      }
      var a := amount.value;
      if a <= 0.0 {
        return BadAmount;
      }
      if fault == ReadFails {
        return ServerError;
      }
      var found := IndexOfOwnedGoal(goals, goalId.value, user);
      if found.None? {
        return NotFound;
      }
      var k := found.value;
      var g := goals[k];
      if g.saved < a {
        return Insufficient(None);
      }
      if fault == GoalWriteFails {
        return ServerError;
      }
      var g' := g.(saved := g.saved - a);
      goals := goals[k := g'];
      if fault == RecordWriteFails {
        return ServerError;
      }
      expenses := expenses + [Expense("QR Payment from " + g.name, a, "Payment", now, user)];
      r := QrPaid(g', a, qrData.value);
    }

    method UpdateGoal(user: UserId, id: GoalId, patch: GoalUpdate, dateOf: string -> int, fault: Fault)
      returns (r: Outcome)
      requires Valid()
      modifies this
      ensures (Snapshot(), r) == UpdateGoalSpec(old(Snapshot()), user, id, patch, dateOf, fault)
      ensures Valid()
    {
      if fault == ReadFails {
        return ServerError;
      }
      var found := IndexOfOwnedGoal(goals, id, user);
      if found.None? {
        return NotFound;
      }
      if fault == GoalWriteFails {
        return ServerError;
      }
      var g' := ApplyPatch(goals[found.value], patch, dateOf);
      goals := goals[found.value := g'];
      r := Updated(g');
    }

    method DeleteGoal(user: UserId, id: GoalId, fault: Fault) returns (r: Outcome)
      requires Valid()
      modifies this
      ensures (Snapshot(), r) == DeleteGoalSpec(old(Snapshot()), user, id, fault)
      ensures Valid()
    {
      if fault == ReadFails {
        return ServerError;
      }
      var found := IndexOfOwnedGoal(goals, id, user);
      if found.None? {
        return NotFound;
      }
      if fault == GoalWriteFails {
        return ServerError;
      }
      goals := RemoveAt(goals, found.value);
      r := Deleted;
    }
  }
}
