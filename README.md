# Piggy Bank AI: goal ledger, tips, validators and formatters in Dafny

This project models the core of Piggy Bank AI, a personal-savings app, and proves
properties of that model. A user keeps a wallet and a set of savings goals. The
backend moves money between the wallet and a goal:

- `addToGoal` debits the wallet, credits the goal, and logs a Saving and a
  WITHDRAWAL transaction inside one `$transaction`.
- `withdrawFromGoal` does the reverse.
- `makePaymentFromGoal` spends from a goal into an expense.
- `processQRPayment` does the same for a scanned QR code, with two separate writes.

After a successful contribution, a tip generator produces up to three advisory
tips and stores them as unread AI insights. Around this sit:

- the zod request schemas;
- the older walletless goal handlers;
- the dashboard's helper rules: budget, relative dates, the four quick-insight
  groups, suggestion rows and category shares;
- the mobile app's formatters: currency and number with thousands separators,
  percentages, truncation and relative time;
- the resume and job-description text matcher: tokenising, skill extraction,
  term frequencies and the weighted match score.

Modules:

- `Common`: rounding as JavaScript does it, digit strings, `includes`, `filter`,
  and relative-time labels.
- `Store`: the Prisma records (Goal, Wallet, Transaction, Saving, Expense,
  Insight) and the goal-progress rows.
- `Schemas`: each zod schema as a parse function from a JSON body to an accepted
  value or a set of failing keys.
- `Tips`: `generateDepositTips`, `generateGoalTips` and the insight rows that
  `storeTipsAsInsights` writes.
- `GoalLedger`: the wallet-backed goal handlers, as specification functions on a
  `State` of all tables, and the class `Ledger` whose methods update that state
  in place.
- `LegacyGoals`: the walletless `addToGoal` and `deleteGoal` of the older
  backend, and the class `LegacyGoalStore`.
- `Dashboard`: the dashboard controller's pure helpers.
- `Formatters`: the mobile formatters.
- `TextMatch`: the text processor.

Each handler method of `Ledger` and `LegacyGoalStore` is proved equal to its
specification function on the state snapshot. The properties are stated on
those functions and in lemmas:

- refusals leave the store untouched;
- ownership is checked;
- a contribution conserves wallet plus goal money;
- a withdrawal of the same amount restores the goal and wallet balances;
- tip failures never change the answer.

A storage failure is a `Fault` parameter naming the call that throws. A
`$transaction` that throws is rolled back. A sequence of separate writes keeps
the writes made before the one that throws.

Behaviour of the code worth knowing:

- `processQRPayment` does not store the QR payload with the expense. It only
  echoes it in the response.
- `updateGoal` accepts a `saved` field (`GoalUpdateSchema` extends the create
  schema with `saved` and `isActive`), so a goal's balance is not changed only
  by the ledger handlers.
- The tip hook reads the goal after the contribution has been committed and then
  adds the amount again. A contribution of 150 to a goal at 0 of 500 is reported
  as 60% progress, not 30% (`GoalLedger.ContributionTipCountsTwice`).
- The formatter comments speak of Indian numbering. The regular expression groups
  digits in threes (`1,234,567`), which is what the model does.
- On the day a goal falls due, the dashboard's on-track rule divides by a zero
  number of days. Once the date has passed, `Math.ceil` gives `-0` and the
  quotient of a goal still short of its target is `-Infinity`, which counts as
  on track (`Dashboard.DueDayShortGoalIsOnTrack`).
- The dashboard's relative date takes the absolute difference and rounds days up,
  and has no years. The mobile relative time rounds down, keeps the sign and has
  years. The two agree on whole days and differ on partial days
  (`Formatters.LabelsAgreeOnWholeDays`, `Formatters.LabelsDisagreeOnPartialDays`).

## Model

| member | source | states |
|---|---|---|
| Common.RoundHalfUp | piggybank-mobile/src/utils/formatters.ts:91 | `Math.round`: the result is the integer within half a unit of the input, ties going up |
| Common.CeilDiv | Piggy-Bank-AI/backend/src/controllers/goalsController.ts:329 | `Math.ceil` of a quotient: the least r with x <= r*d |
| Common.DigitsValueOfNatToString | piggybank-mobile/src/utils/formatters.ts:14 | the decimal text `toFixed(0)` prints for a natural number reads back as that number |
| Common.IncludesMeansOccurs | src/utils/textProcessor.ts:49 | `String.includes` holds exactly when the needle occurs at some index of the haystack |
| Common.FilterPartition | src/utils/textProcessor.ts:94-95 | filtering by a predicate and by its negation splits the list: the multisets add up to the original |
| Common.FilterSelects | src/utils/textProcessor.ts:34-36 | a filter keeps the passing elements as a subsequence, each as often as in the input, and drops the others |
| Store.DaysRemaining | Piggy-Bank-AI/backend/src/controllers/goalsController.ts:329 | days to the target date, rounded up: (d-1) days < time left <= d days |
| Store.ProgressReachesHundredIffNothingRemains | Piggy-Bank-AI/backend/src/controllers/goalsController.ts:327-328 | progress is at least 100% exactly when the remaining amount is at most 0 |
| Store.ProgressRows | Piggy-Bank-AI/backend/src/controllers/goalsController.ts:301-343 | getGoalProgress has one row per active goal of the user, in store order, the i-th row for the i-th such goal, each with its progress, remaining amount and days left; progress >= 100 iff remaining <= 0 |
| Store.IndexOfOwnedGoal | Piggy-Bank-AI/backend/src/controllers/goalsController.ts:200-212 | the lookup `findFirst({id, userId})` finds a goal with both the id and the owner, and fails exactly when none has both |
| Store.RemoveAtKeepsUniqueIds | Piggy-Bank-AI/backend/src/controllers/goalsController.ts:168-170 | deleting a goal row keeps goal ids unique and removes the deleted id |
| Store.ActiveGoalsOf | Piggy-Bank-AI/backend/src/services/tipGenerationService.ts:26-29 | the user's active goals are exactly the goals owned by the user and marked active |
| Store.DeleteOwned | Piggy-Bank-AI/backend/src/controllers/goalsController.ts:154-170 | deletion fails exactly when the user owns no goal with the id; otherwise exactly that goal is gone and ids stay unique |
| Store.TotalSavedUpdate | backend/src/controllers/goalsController.ts:213-218 | replacing one goal changes the sum of `saved` by the difference of that goal's old and new `saved` |
| Schemas.ReqString | Piggy-Bank-AI/backend/src/types/index.ts:21 | a required string field passes iff it is present, a string, and at least the minimum length |
| Schemas.OptString | Piggy-Bank-AI/backend/src/types/index.ts:22 | an optional string passes iff absent or a string; absent yields None, a present string is the one sent |
| Schemas.FormattedString | Piggy-Bank-AI/backend/src/types/index.ts:5 | `z.string().email()`-style field: passes iff present, a string, and well formed |
| Schemas.PositiveNumber | Piggy-Bank-AI/backend/src/types/index.ts:23 | `z.number().positive()`: passes iff present, a number, and > 0 |
| Schemas.OptPositiveNumber | Piggy-Bank-AI/backend/src/types/index.ts:32 | optional positive number: passes iff absent or a number > 0; a present number is the one sent |
| Schemas.OptNonNegativeNumber | Piggy-Bank-AI/backend/src/types/index.ts:33 | optional `min(0)` number: passes iff absent or a number >= 0; a present number is the one sent |
| Schemas.OptNumber | Piggy-Bank-AI/backend/src/types/index.ts:67 | optional number: passes iff absent or a number; a present number is the one sent |
| Schemas.OptBool | Piggy-Bank-AI/backend/src/types/index.ts:34 | optional boolean: passes iff absent or a boolean; a present boolean is the one sent |
| Schemas.LevelWithDefault | Piggy-Bank-AI/backend/src/types/index.ts:28 | `z.enum([...]).default('MEDIUM')`: absent gives MEDIUM; present passes iff it names a level, and the level's name is the input |
| Schemas.OptLevel | Piggy-Bank-AI/backend/src/types/index.ts:32 | the partial schema's level: absent gives None; present passes iff it names a level |
| Schemas.ParseUserRegister | Piggy-Bank-AI/backend/src/types/index.ts:4-9 | accepted iff the email is an email-shaped string, the password a string of at least 8 characters and each sent name a string; the value is the sent email, password and names (absent names stay absent); rejections name only the schema's keys |
| Schemas.ParseGoalCreate | Piggy-Bank-AI/backend/src/types/index.ts:20-30 | accepted iff every field check passes; the value is the sent name, target, targetDate string, description and emoji (absent ones absent); rejections name only the schema's keys |
| Schemas.OptNonEmptyString | Piggy-Bank-AI/backend/src/types/index.ts:32 | the partial schema's name: passes iff absent or a string of length >= 1; a present name is the one sent |
| Schemas.OptFormattedString | Piggy-Bank-AI/backend/src/types/index.ts:32 | the partial schema's target date: passes iff absent or a string that parses as a date; a present date is the string sent |
| Schemas.ParseGoalUpdate | Piggy-Bank-AI/backend/src/types/index.ts:32-35 | every field the patch carries is carried iff sent and is the sent value (name, target, description, target date, emoji, `saved`, `isActive`); a sent priority is the level named; a sent target is positive; priority is not defaulted; rejections name only the known keys |
| Schemas.GoalUpdateAcceptedIff | Piggy-Bank-AI/backend/src/types/index.ts:20-35 | an update is accepted iff every field it carries is valid: non-empty name, string description and emoji, positive target, parseable date, known priority, non-negative saved, boolean isActive |
| Schemas.UpdateMaySetSavedAndActivity | Piggy-Bank-AI/backend/src/types/index.ts:32-35 | a body with only a non-negative `saved` is an accepted update setting it, a negative one is rejected on `saved`, and a body with only `isActive` is accepted |
| Schemas.EmptyUpdateAccepted | Piggy-Bank-AI/backend/src/types/index.ts:32-35 | the empty body is a valid update that changes nothing |
| Schemas.CreateBodyIsValidUpdate | Piggy-Bank-AI/backend/src/types/index.ts:32-35 | every body the create schema accepts is also accepted by the update schema |
| Schemas.PriorityDefaultsToMedium | Piggy-Bank-AI/backend/src/types/index.ts:28 | a created goal's priority is MEDIUM when none is sent and the sent one otherwise |
| Schemas.ParseExpenseCreate | Piggy-Bank-AI/backend/src/types/index.ts:41-46 | accepted iff description and category are non-empty strings, amount is a positive number and date an ISO date-time; the value is the sent description, amount, category and date; rejections name only the schema's keys |
| Schemas.ParseSavingCreate | Piggy-Bank-AI/backend/src/types/index.ts:54-58 | accepted iff the amount is a positive number, the type one of the four saving types and the date an ISO date-time; the value is the sent amount, type and date; rejections name only the schema's keys |
| Schemas.ParseInsightCreate | Piggy-Bank-AI/backend/src/types/index.ts:63-69 | accepted iff the type is one of the five insight types, title and description are non-empty strings, a sent potentialSavings is a number and a sent impact names a level; the value is the sent fields, impact defaulting to MEDIUM; rejections name only the schema's keys |
| Tips.DepositCheerTip | Piggy-Bank-AI/backend/src/services/tipGenerationService.ts:34-55 | the first deposit tip by tier: >= 10000 ACHIEVEMENT/HIGH, >= 1000 SAVING/MEDIUM, else SAVING/LOW |
| Tips.Split | Piggy-Bank-AI/backend/src/services/tipGenerationService.ts:73-75 | the two floored 40% allocations are equal and the three parts add up to the amount; the rest is at least 20% |
| Tips.SingleGoalAllocation | Piggy-Bank-AI/backend/src/services/tipGenerationService.ts:86 | the allocation is the smaller of 60% of the amount and what the goal still needs |
| Tips.AllocationTip | Piggy-Bank-AI/backend/src/services/tipGenerationService.ts:57-96 | enough for the top two goals: the leftover, HIGH; too little with two or more goals: the floored 40% parts of Split and the rest kept; one goal: the smaller of 60% and what it needs, the rest kept |
| Tips.FirstCrossed | Piggy-Bank-AI/backend/src/services/tipGenerationService.ts:102-103 | `milestones.find`: the first milestone strictly above the old balance and at most the new one; None iff no milestone is crossed |
| Tips.BalanceTip | Piggy-Bank-AI/backend/src/services/tipGenerationService.ts:98-125 | the first milestone crossed gives an ACHIEVEMENT/HIGH milestone tip with a milestone the deposit moved the balance across; otherwise the SAVING/MEDIUM overview iff there are goals |
| Tips.DepositTips | Piggy-Bank-AI/backend/src/services/tipGenerationService.ts:20-137 | one to three tips; the fallback tip when the lookups throw; otherwise the tier tip first, then the allocation tip when there are goals; a milestone tip iff the deposit crossed a milestone |
| Tips.DepositTipsLayout | Piggy-Bank-AI/backend/src/services/tipGenerationService.ts:98-128 | a reported milestone is the first one the deposit crossed; with none crossed and some goals the overview is the third tip; without a wallet there are one or two tips |
| Tips.GenerateDepositTips | Piggy-Bank-AI/backend/src/services/tipGenerationService.ts:20-137 | the push-and-slice method computes exactly DepositTips |
| Tips.ProgressTip | Piggy-Bank-AI/backend/src/services/tipGenerationService.ts:157-186 | progress tiers: >= 100 achieved/HIGH, >= 75 almost there/HIGH, >= 50 halfway/MEDIUM, else an update/MEDIUM |
| Tips.ContributionProgress | Piggy-Bank-AI/backend/src/services/tipGenerationService.ts:153-154 | the reported progress is the progress of the goal with the amount added to its saved figure |
| Tips.ContributionRaisesProgress | Piggy-Bank-AI/backend/src/services/tipGenerationService.ts:153-154 | the reported progress exceeds the goal's stored progress by exactly the amount's share of the target |
| Tips.TimelineTip | Piggy-Bank-AI/backend/src/services/tipGenerationService.ts:188-218 | a pace tip exists iff days and money remain; it quotes the daily need remaining/days and is "ahead of schedule" up to 10, "on track" up to 50 (both SAVING), else an "increase pace" WARNING |
| Tips.OtherProgress | Piggy-Bank-AI/backend/src/services/tipGenerationService.ts:222-224 | the progress of every other active goal, and nothing else |
| Tips.Largest | Piggy-Bank-AI/backend/src/services/tipGenerationService.ts:225-228 | the head of the descending sort: a member of the list no smaller than any other |
| Tips.ComparisonTip | Piggy-Bank-AI/backend/src/services/tipGenerationService.ts:220-246 | a comparison tip iff there is more than one goal and some other goal; it is either "leading" (ACHIEVEMENT/MEDIUM, only when the progress beats every other goal's) or "keep going" (SAVING/LOW, naming the largest other progress) |
| Tips.GoalTips | Piggy-Bank-AI/backend/src/services/tipGenerationService.ts:142-258 | at most three tips; the fallback on a failed lookup; none for a missing goal; otherwise the progress tip first, computed from saved + amount, and a timeline tip only when days and money remain |
| Tips.GoalTipsLayout | Piggy-Bank-AI/backend/src/services/tipGenerationService.ts:142-258 | the progress tip, then the pace tip exactly when days and money remain, then the comparison tip when there is one; the count is 1 + those present, so the cap cuts nothing |
| Tips.PushComparison | Piggy-Bank-AI/backend/src/services/tipGenerationService.ts:220-246 | the comparison step appends exactly the ComparisonTip, when there is one |
| Tips.GenerateGoalTips | Piggy-Bank-AI/backend/src/services/tipGenerationService.ts:142-258 | the push-and-slice method computes exactly GoalTips |
| Tips.InsightRows | Piggy-Bank-AI/backend/src/services/tipGenerationService.ts:263-283 | as many rows as inserts that succeed; every row is an unread insight of the user made from one of the tips |
| Tips.InsightRowsInOrder | Piggy-Bank-AI/backend/src/services/tipGenerationService.ts:263-283 | the tip at position i whose insert succeeds is stored at the position counting the successes before it, so rows keep tip order |
| Tips.AllInsightsStored | Piggy-Bank-AI/backend/src/services/tipGenerationService.ts:263-283 | when no insert fails, the i-th row is the insight of the i-th tip, for every tip |
| GoalLedger.WithWallet | Piggy-Bank-AI/backend/src/controllers/goalsController.ts:215-224 | the wallet is created with balance 0 only when missing, with a fresh id; an existing wallet leaves the state unchanged |
| GoalLedger.Contribute | Piggy-Bank-AI/backend/src/controllers/goalsController.ts:238-275 | the committed contribution: wallet down by a, goal up by a, one GOAL_CONTRIBUTION saving and one WITHDRAWAL transaction; wallet plus goals is conserved |
| GoalLedger.TipHook | Piggy-Bank-AI/backend/src/controllers/goalsController.ts:277-284 | the tip hook only appends at most three unread insights owned by the user and changes nothing else |
| GoalLedger.AddToGoalCommit | Piggy-Bank-AI/backend/src/controllers/goalsController.ts:185-275 | bad amount refused first; another user's goal is NotFound; for an owned goal, Insufficient with required and available iff the wallet holds less than the amount, and Funded iff it holds enough and nothing throws; no ServerError without a fault; success is exactly Contribute; refusals change nothing but the lazily created wallet |
| GoalLedger.AddToGoalSpec | Piggy-Bank-AI/backend/src/controllers/goalsController.ts:185-299 | the answer is the commit's answer; the tip hook runs only after success and only appends the user's unread insights |
| GoalLedger.TipFaultsNeverChangeTheOutcome | Piggy-Bank-AI/backend/src/controllers/goalsController.ts:277-284 | failures inside tip generation or storage change neither the response nor any table but the insights |
| GoalLedger.HookCountsContributionTwice | Piggy-Bank-AI/backend/src/controllers/goalsController.ts:277-284 | for every successful contribution, the first insight stored is the progress tip computed from the committed goal (already credited) with the amount added again |
| GoalLedger.DoubleCounted | Piggy-Bank-AI/backend/src/services/tipGenerationService.ts:153-154 | the progress computed from a credited goal equals that of the original goal with the amount counted twice |
| GoalLedger.HookStoresProgressTipFirst | Piggy-Bank-AI/backend/src/services/tipGenerationService.ts:142-186 | for a goal that exists, the hook's first stored insight is the progress tip of that goal with the amount added |
| GoalLedger.CommittedGoal | Piggy-Bank-AI/backend/src/controllers/goalsController.ts:185-275 | after a funded commit the goal with that id is the owned goal with the amount added to its saved figure, and no insight has yet been stored |
| GoalLedger.Withdraw | Piggy-Bank-AI/backend/src/controllers/goalsController.ts:397-424 | the committed withdrawal: goal down by a, wallet up by a, one DEPOSIT transaction, no saving; wallet plus goals is conserved |
| GoalLedger.WithdrawFromGoalSpec | Piggy-Bank-AI/backend/src/controllers/goalsController.ts:345-439 | bad amount first; NotFound for a goal the user does not own; for an owned goal, Insufficient with figures iff it holds less than the amount (nothing touched), Funded iff it holds enough and nothing throws; no ServerError without a fault; success is exactly Withdraw |
| GoalLedger.PaymentDescription | Piggy-Bank-AI/backend/src/controllers/goalsController.ts:492 | an empty or missing description becomes "Payment for " and the goal's name |
| GoalLedger.MakePaymentSpec | Piggy-Bank-AI/backend/src/controllers/goalsController.ts:441-515 | bad amount first; NotFound for a goal the user does not own; for an owned goal, Insufficient with figures iff it holds less than the amount, Paid iff it holds enough and the commit goes through; no ServerError without a fault; success lowers the goal and adds one "Goal Payment" expense, wallet and transactions untouched |
| GoalLedger.QrPaymentSpec | Piggy-Bank-AI/backend/src/controllers/qrPaymentController.ts:6-85 | a missing field or zero amount is refused first, a negative amount next; then NotFound for a goal the user does not own; for an owned goal, Insufficient (no figures) iff it holds less, QrPaid iff it holds enough and neither write throws; a failed expense insert leaves exactly the goal debited; success lowers the goal and adds one "Payment" expense |
| GoalLedger.ApplyPatch | Piggy-Bank-AI/backend/src/controllers/goalsController.ts:124-132 | each of name, description, target, targetDate (through `new Date`), priority, emoji, saved and isActive is the patch's value when it carries one and the stored one otherwise; id and owner never change; the empty patch changes nothing |
| GoalLedger.UpdateGoalSpec | Piggy-Bank-AI/backend/src/controllers/goalsController.ts:102-146 | NotFound exactly when the user owns no goal with the id; success replaces that goal by the patched one and nothing else |
| GoalLedger.DeleteGoalSpec | Piggy-Bank-AI/backend/src/controllers/goalsController.ts:148-183 | NotFound exactly when the user owns no such goal; success removes exactly that goal and leaves other tables unchanged |
| GoalLedger.WithdrawUndoesContribute | Piggy-Bank-AI/backend/src/controllers/goalsController.ts:397-424 | withdrawing what was just contributed restores the goal table and the wallets |
| GoalLedger.AddThenWithdrawRestoresBalances | Piggy-Bank-AI/backend/src/controllers/goalsController.ts:345-439 | a successful addToGoal followed by withdrawFromGoal of the same amount succeeds and restores the goals and wallets |
| GoalLedger.ContributionScenario | Piggy-Bank-AI/backend/src/controllers/goalsController.ts:185-299 | 150 into a goal at 0 of 500 from a wallet of 200 leaves 50 in the wallet, 150 in the goal, one saving and one transaction |
| GoalLedger.ContributionTipCountsTwice | Piggy-Bank-AI/backend/src/services/tipGenerationService.ts:153-154 | in that scenario the tip generator reports 60% progress: the contribution is counted twice |
| GoalLedger.PaymentScenario | Piggy-Bank-AI/backend/src/controllers/goalsController.ts:441-515 | paying 80 from a goal holding 80 of 100 empties it and logs one expense; paying 1 more is refused |
| GoalLedger.Ledger.constructor | Piggy-Bank-AI/backend/src/controllers/goalsController.ts:185-299 | an empty store is consistent |
| GoalLedger.Ledger.FindOrCreateWallet | Piggy-Bank-AI/backend/src/controllers/goalsController.ts:215-224 | the wallet lookup creates a missing wallet (WithWallet), and on a failed create changes nothing |
| GoalLedger.Ledger.CommitContribution | Piggy-Bank-AI/backend/src/controllers/goalsController.ts:238-275 | the in-place commit is exactly Contribute |
| GoalLedger.Ledger.CommitWithdrawal | Piggy-Bank-AI/backend/src/controllers/goalsController.ts:397-424 | the in-place commit is exactly Withdraw |
| GoalLedger.Ledger.StoreTipsAsInsights | Piggy-Bank-AI/backend/src/services/tipGenerationService.ts:263-283 | appends InsightRows of the tips and nothing else, keeping the store consistent |
| GoalLedger.Ledger.RunTipHook | Piggy-Bank-AI/backend/src/controllers/goalsController.ts:277-284 | the hook's effect on the store is TipHook, and the store stays consistent |
| GoalLedger.Ledger.AddToGoalCommitted | Piggy-Bank-AI/backend/src/controllers/goalsController.ts:185-275 | the handler up to its commit is AddToGoalCommit on the store and keeps it consistent |
| GoalLedger.Ledger.AddToGoal | Piggy-Bank-AI/backend/src/controllers/goalsController.ts:185-299 | the whole handler is AddToGoalSpec on the store |
| GoalLedger.Ledger.WithdrawFromGoal | Piggy-Bank-AI/backend/src/controllers/goalsController.ts:345-439 | the handler is WithdrawFromGoalSpec on the store |
| GoalLedger.Ledger.MakePaymentFromGoal | Piggy-Bank-AI/backend/src/controllers/goalsController.ts:441-515 | the handler is MakePaymentSpec on the store |
| GoalLedger.Ledger.ProcessQrPayment | Piggy-Bank-AI/backend/src/controllers/qrPaymentController.ts:6-85 | the handler is QrPaymentSpec on the store |
| GoalLedger.Ledger.UpdateGoal | Piggy-Bank-AI/backend/src/controllers/goalsController.ts:102-146 | the handler is UpdateGoalSpec on the store |
| GoalLedger.Ledger.DeleteGoal | Piggy-Bank-AI/backend/src/controllers/goalsController.ts:148-183 | the handler is DeleteGoalSpec on the store |
| LegacyGoals.AddToGoalSpec | backend/src/controllers/goalsController.ts:184-242 | bad amount first; NotFound exactly for a goal the user does not own; for an owned goal whose write succeeds the goal is credited by the amount, and the answer is Credited unless the separate Saving insert throws, which leaves no Saving logged |
| LegacyGoals.DeleteGoalSpec | backend/src/controllers/goalsController.ts:147-182 | NotFound exactly when the user owns no such goal; success removes exactly that goal |
| LegacyGoals.ContributionCanGoUnlogged | backend/src/controllers/goalsController.ts:213-228 | when the Saving insert throws, the goals' total grows by the amount while no Saving is logged |
| LegacyGoals.LegacyGoalStore.constructor | backend/src/controllers/goalsController.ts:184-242 | an empty store satisfies the table invariant |
| LegacyGoals.LegacyGoalStore.AddToGoal | backend/src/controllers/goalsController.ts:184-242 | the handler is LegacyGoals.AddToGoalSpec on the two tables |
| LegacyGoals.LegacyGoalStore.DeleteGoal | backend/src/controllers/goalsController.ts:147-182 | the handler is LegacyGoals.DeleteGoalSpec on the two tables |
| Dashboard.MonthlyBudget | Piggy-Bank-AI/backend/src/controllers/dashboardController.ts:100-101 | the budget is the larger of 120% of the month's expenses and 2500 |
| Dashboard.DaysApart | Piggy-Bank-AI/backend/src/controllers/dashboardController.ts:204-205 | whole days between the two dates, rounded up, regardless of direction |
| Dashboard.FormatRelativeDate | Piggy-Bank-AI/backend/src/controllers/dashboardController.ts:202-212 | Today for 0 days, Yesterday for 1, days under 7, weeks under 30, months otherwise; never years |
| Dashboard.RelativeDateIgnoresDirection | Piggy-Bank-AI/backend/src/controllers/dashboardController.ts:204 | a date in the future gets the same label as one equally far in the past |
| Dashboard.ActiveGoals | Piggy-Bank-AI/backend/src/controllers/dashboardController.ts:231 | exactly the active goals |
| Dashboard.OnTrackGoals | Piggy-Bank-AI/backend/src/controllers/dashboardController.ts:232-237 | exactly the active goals on track; all are on track iff the two counts are equal |
| Dashboard.OnTrack | Piggy-Bank-AI/backend/src/controllers/dashboardController.ts:233-237 | with days left, on track iff what remains is at most 50 per day; with the date passed by a day or more the comparison turns round; on the due day, once the date has passed (Math.ceil gives -0) iff the goal is still short, at the exact date iff it is over-funded |
| Dashboard.DueDayShortGoalIsOnTrack | Piggy-Bank-AI/backend/src/controllers/dashboardController.ts:234-236 | less than a day after the target date, a goal short of its target counts as on track and a funded one does not |
| Dashboard.QuickInsights | Piggy-Bank-AI/backend/src/controllers/dashboardController.ts:214-260 | at most four messages: the four groups in order, cut at four |
| Dashboard.GroupOf | Piggy-Bank-AI/backend/src/controllers/dashboardController.ts:224-257 | a message of a group is produced exactly when that group's rule produces it |
| Dashboard.SavingsGrowthMessage | Piggy-Bank-AI/backend/src/controllers/dashboardController.ts:224-228 | momentum above 500 of monthly growth, a nudge below 200, nothing in between |
| Dashboard.GoalProgressMessage | Piggy-Bank-AI/backend/src/controllers/dashboardController.ts:239-243 | "all on track" iff some goal is active and all are on track; otherwise the counts when some goal is active |
| Dashboard.SpendingLevelMessage | Piggy-Bank-AI/backend/src/controllers/dashboardController.ts:246-250 | controlled below 2000, high above 4000, nothing in between |
| Dashboard.MilestoneMessagesExclusive | Piggy-Bank-AI/backend/src/controllers/dashboardController.ts:253-257 | at most one milestone message: major above 10000, halfway above 5000 |
| Dashboard.GenerateQuickInsights | Piggy-Bank-AI/backend/src/controllers/dashboardController.ts:214-260 | the push-and-slice method computes exactly QuickInsights |
| Dashboard.SuggestionOf | Piggy-Bank-AI/backend/src/controllers/dashboardController.ts:135-142 | a suggestion copies type and impact; missing potential savings become 0 |
| Dashboard.CategoryPercentage | Piggy-Bank-AI/backend/src/controllers/dashboardController.ts:301 | 0 when nothing was spent, else the category's share times 100; between 0 and 100 for a part of the total |
| Formatters.RegexGroupsTheDigits | piggybank-mobile/src/utils/formatters.ts:14 | the separator regex leaves a digit-free prefix alone and groups the digit run that follows in threes from the right |
| Formatters.InfinityHasNoSeparators | piggybank-mobile/src/utils/formatters.ts:14 | the regex leaves "Infinity" and "-Infinity" unchanged |
| Formatters.RemoveCommasUndoesGrouping | piggybank-mobile/src/utils/formatters.ts:14 | removing the separators from grouped digits gives back the digits |
| Formatters.SeparatorCount | piggybank-mobile/src/utils/formatters.ts:14 | grouping n digits inserts (n-1)/3 separators |
| Formatters.GroupedNumberReadsBack | piggybank-mobile/src/utils/formatters.ts:14 | a grouped natural number, with its separators removed, reads back as that number |
| Formatters.GroupedFixed | piggybank-mobile/src/utils/formatters.ts:83 | `toFixed(0)` then the regex: the sign, then the rounded magnitude grouped in threes |
| Formatters.FormatCurrency | piggybank-mobile/src/utils/formatters.ts:4-17 | null/undefined/NaN give "₹0"; infinities give "₹Infinity"/"-₹Infinity"; otherwise the sign, ₹ and the rounded magnitude grouped in threes |
| Formatters.ToFixed0 | piggybank-mobile/src/utils/formatters.ts:14 | `toFixed(0)` starts with a minus sign iff the value is negative |
| Formatters.ToFixed0ReadsBack | piggybank-mobile/src/utils/formatters.ts:14 | after the sign come only digits, and they read as the magnitude rounded to within half a unit |
| Formatters.ThousandsRegexOnlyInsertsCommas | piggybank-mobile/src/utils/formatters.ts:14 | the separator regular expression only inserts commas: removing them gives back the input without its own commas |
| Formatters.FormatNumber | piggybank-mobile/src/utils/formatters.ts:78-84 | null/undefined/NaN give "0"; otherwise the sign and the rounded magnitude grouped in threes |
| Formatters.SignedGroupedReadsBack | piggybank-mobile/src/utils/formatters.ts:14 | a sign and a grouped number read back as that sign and number |
| Formatters.CurrencyReadsBack | piggybank-mobile/src/utils/formatters.ts:4-17 | the formatted amount, read back, gives its sign and its magnitude rounded half up |
| Formatters.NumberReadsBack | piggybank-mobile/src/utils/formatters.ts:78-84 | the formatted number, read back, gives its sign and its magnitude rounded half up |
| Formatters.CurrencyIsNumberWithRupeeSign | piggybank-mobile/src/utils/formatters.ts:4-17 | the currency text is the number text with ₹ after the sign |
| Formatters.CalculatePercentage | piggybank-mobile/src/utils/formatters.ts:89-92 | 0 for a zero total; otherwise the rounded percentage capped at 100; 100 iff the share is at least 99.5% |
| Formatters.FullGoalShowsHundred | piggybank-mobile/src/utils/formatters.ts:89-92 | a reached or exceeded goal shows 100 |
| Formatters.TruncateText | piggybank-mobile/src/utils/formatters.ts:97-100 | text within the limit is returned unchanged; longer text is its first maxLength characters followed by "..." |
| Formatters.TruncatedLengthBound | piggybank-mobile/src/utils/formatters.ts:97-100 | the result is at most three longer than the limit and at most two longer than the text |
| Formatters.DaysSince | piggybank-mobile/src/utils/formatters.ts:60-61 | whole days elapsed, rounded down (negative for the future) |
| Formatters.MobileBucket | piggybank-mobile/src/utils/formatters.ts:63-68 | Today, Yesterday, days (including negative), weeks, months and years, each for exactly its range |
| Formatters.FormatRelativeTime | piggybank-mobile/src/utils/formatters.ts:48-73 | "N/A" for a missing or empty string, "Invalid Date" when it does not parse, otherwise the bucket label |
| Formatters.FutureDateShowsNegativeDays | piggybank-mobile/src/utils/formatters.ts:61-65 | a date in the future is labelled with a negative number of days ago |
| Formatters.LabelsAgreeOnWholeDays | piggybank-mobile/src/utils/formatters.ts:61-67 | for a whole number of days under a year, the mobile and dashboard labels agree |
| Formatters.LabelsDisagreeOnPartialDays | piggybank-mobile/src/utils/formatters.ts:61 | a day and a half ago the mobile label says Yesterday while the dashboard says 2 days ago |
| TextMatch.Preprocess | src/utils/textProcessor.ts:25-39 | a word is a token iff it is a word of the cleaned text longer than two characters, not a stop word and not all digits |
| TextMatch.PreprocessTokenShape | src/utils/textProcessor.ts:25-39 | every token is longer than two characters, no stop word, not all digits, and made of lower-case letters, digits and `_` |
| TextMatch.PreprocessKeepsOrder | src/utils/textProcessor.ts:34-36 | the tokens are a subsequence of the cleaned text's words: the text's order is kept |
| TextMatch.PreprocessKeepsRepeats | src/utils/textProcessor.ts:34-36 | a token occurs among the tokens as often as among the text's words |
| TextMatch.AnyWordRelated | src/utils/textProcessor.ts:49 | true iff some token contains the skill or is contained in it |
| TextMatch.AddMatching | src/utils/textProcessor.ts:48-60 | one pass adds each matching skill once, keeping what was found before in order |
| TextMatch.FoundSkills | src/utils/textProcessor.ts:41-63 | each skill at most once; a skill is found iff it is listed and a token relates to it or the lower-cased text contains it |
| TextMatch.SkillsIn | src/utils/textProcessor.ts:41-63 | `extractSkills` as a value: no duplicates; a skill is in it iff it is listed and a token relates to it or the lower-cased text contains it |
| TextMatch.AddMatchingPass | src/utils/textProcessor.ts:48-60 | the `forEach` loop computes AddMatching |
| TextMatch.ExtractSkills | src/utils/textProcessor.ts:41-63 | the result has no duplicates and holds a listed skill iff a token relates to it or the lower-cased text contains it |
| TextMatch.OneLetterSkillMatchesAnyTokenWithIt | src/utils/textProcessor.ts:49 | a one-letter skill is found as soon as any token contains that letter |
| TextMatch.TokenWithLetterRNamesR | src/utils/textProcessor.ts:6-63 | any text with a token containing the letter r is reported as naming the skill "r" |
| TextMatch.CountWords | src/utils/textProcessor.ts:70-72 | the counting loop: a key per distinct word, valued at its number of occurrences |
| TextMatch.CalculateTf | src/utils/textProcessor.ts:65-81 | a key per distinct word, valued at its count divided by the number of words |
| TextMatch.CountsAddUp | src/utils/textProcessor.ts:70-72 | the counts over the distinct words add up to the number of words |
| TextMatch.TermFrequenciesSumToOne | src/utils/textProcessor.ts:65-81 | over a non-empty word list the frequencies add up to 1 |
| TextMatch.Partition | src/utils/textProcessor.ts:94-95 | matched and missing skills split the description's skills: matched iff the resume has it, together a permutation |
| TextMatch.CommonWords | src/utils/textProcessor.ts:101 | resume tokens also in the description; all kept iff every resume token occurs in the description |
| TextMatch.CommonWordsKeepOrderAndRepeats | src/utils/textProcessor.ts:101 | the shared tokens keep the resume's order, and each occurs as often as in the resume when the description has it, else never |
| TextMatch.SkillsScore | src/utils/textProcessor.ts:98 | between 0 and 100; 0 for no skills; 100 iff every skill matched |
| TextMatch.WordScore | src/utils/textProcessor.ts:102 | common tokens per description token, in percent; 0 for an empty description |
| TextMatch.WordScoreCanExceedHundred | src/utils/textProcessor.ts:101-102 | the word score can pass 100 when the resume repeats a shared token |
| TextMatch.WeightedScore | src/utils/textProcessor.ts:105-108 | 70/30 blend rounded half up and capped at 100; 100 iff the blend is at least 99.5 |
| TextMatch.Compare | src/utils/textProcessor.ts:94-114 | matched and missing partition the description's skills; counts are the lengths; the score is the capped 70/30 blend of the skill and word scores, in 0..100, 0 when the description has nothing |
| TextMatch.MatchResumeToJD | src/utils/textProcessor.ts:83-115 | a skill is matched iff both texts name it and missing iff only the description does; totals and word counts are those of the two texts; score in 0..100 |
| TextMatch.NothingMissing | src/utils/textProcessor.ts:95 | when the resume has every skill, none is missing |
| TextMatch.SelfMatchScore | src/utils/textProcessor.ts:83-115 | a text compared with itself scores 70 for having skills plus 30 for having words |

## Left out

- User interfaces (web and mobile screens), routing and authentication are not
  modelled. The user id is a trusted parameter. `processQRPayment` reads
  `req.userId` while the auth middleware sets `req.user`; the model assumes the
  id is present.
- The route for `updateGoal` is not part of this model. `UpdateGoal` takes a patch
  that has already passed `Schemas.ParseGoalUpdate`.
- `createGoal`, `getGoals`, the payments and savings controllers, the AI
  (language model) service and the chat are outside the modelled core.
- `formatDate` is not modelled: it needs calendar arithmetic in the local time
  zone.
- The `UserLogin`, `ExpenseUpdate` and `InsightUpdate` schemas are not modelled.
  They repeat the shapes of the modelled schemas.
- Concurrency is not modelled. Each request runs alone against the store, so lost
  updates between concurrent requests are not captured.
- Floating point is modelled by exact reals: rounding error in money sums and
  in percentages is not captured.
- JSON fields are modelled as a small JSON value type. JavaScript coercions of
  non-numeric amounts (strings in `amount`) are not captured, apart from a
  missing or zero amount.
- Formatters.FormatCurrency: does not model `toFixed` switching to exponent
  notation at 1e21 and above.
- Formatters.FormatNumber: does not model `toFixed` switching to exponent
  notation at 1e21 and above.
- TextMatch.Preprocess: lower-casing maps ASCII letters only. Splitting is
  modelled as the non-empty runs between whitespace, so the empty strings that
  `split` yields at the ends are not kept; the length filter drops them anyway.
- String lengths are counted in characters, not UTF-16 code units.
- TextMatch.MatchResumeToJD: computes no term-frequency maps, because
  `matchResumeToJD` computes two and never reads them.
- Dates are epoch milliseconds. `new Date(...)` parsing and the clock are
  parameters (`parse`, `dateOf`, `now`).
- The database's ordering (`orderBy`), field selection and cascade deletes are
  not modelled. The dashboard's aggregate queries are passed in as values.
- The wording of tips and insights is not modelled. Tips and quick insights are
  kinds with their figures, not text.
- Tips.DepositTips: the balance tip's average-progress figures are not carried,
  only which tip is chosen.
