/** The request-body schemas of the backend (zod object schemas) as parse
    functions from a decoded JSON object to either a typed value or the set
    of keys that failed. Unknown keys are dropped, as zod's default object
    parsing does. Checks that zod delegates to its own string formats
    (e-mail address, ISO date-time, `new Date(..)` parsing) are passed in as
    predicates. */
module Schemas {
  import opened Common
  import opened Store

  /** A decoded JSON value; only the shapes the schemas distinguish. */
  datatype Json = JNull | JBool(b: bool) | JNum(n: real) | JStr(s: string) | JArray | JObject

  /** A decoded JSON object; an absent key is zod's `undefined`. */
  type Body = map<string, Json>

  datatype Parsed<+T> = Accepted(value: T) | Rejected(issues: set<string>)

  /** The outcome of checking one key. */
  datatype Check<+T> = Pass(value: T) | Fail

  // ---------------------------------------------------------------------
  // Field checks

  /** `z.string().min(minLen)`. */
  function ReqString(body: Body, key: string, minLen: nat): (r: Check<string>)
    ensures r.Pass? <==> key in body && body[key].JStr? && |body[key].s| >= minLen
    ensures r.Pass? ==> r.value == body[key].s && |r.value| >= minLen
  {
    if key in body && body[key].JStr? && |body[key].s| >= minLen then Pass(body[key].s) else Fail
  }

  /** `z.string().optional()`: absent, or a string. */
  function OptString(body: Body, key: string): (r: Check<Option<string>>)
    ensures r.Pass? <==> key !in body || body[key].JStr?
    ensures r == Pass(None) <==> key !in body
    ensures key in body && r.Pass? ==> r.value == Some(body[key].s)
  {
    if key !in body then Pass(None)
    else if body[key].JStr? then Pass(Some(body[key].s))
    else Fail
  }

  /** A string that also satisfies a format check (`.email()`, `.datetime()`, `.refine(..)`). */
  function FormattedString(body: Body, key: string, wellFormed: string -> bool): (r: Check<string>)
    ensures r.Pass? <==> key in body && body[key].JStr? && wellFormed(body[key].s)
    ensures r.Pass? ==> r.value == body[key].s
  {
    if key in body && body[key].JStr? && wellFormed(body[key].s) then Pass(body[key].s) else Fail
  }

  /** `z.number().positive()`. */
  function PositiveNumber(body: Body, key: string): (r: Check<Positive>)
    ensures r.Pass? <==> key in body && body[key].JNum? && body[key].n > 0.0
    ensures r.Pass? ==> r.value == body[key].n
  {
    if key in body && body[key].JNum? && body[key].n > 0.0 then Pass(body[key].n) else Fail
  }

  /** `z.number().positive().optional()`. */
  function OptPositiveNumber(body: Body, key: string): (r: Check<Option<Positive>>)
    ensures r.Pass? <==> key !in body || (body[key].JNum? && body[key].n > 0.0)
    ensures r == Pass(None) <==> key !in body
    ensures key in body && r.Pass? ==> r.value == Some(body[key].n)
  {
    if key !in body then Pass(None)
    else if body[key].JNum? && body[key].n > 0.0 then Pass(Some(body[key].n))
    else Fail
  }

  /** `z.number().min(0).optional()`. */
  function OptNonNegativeNumber(body: Body, key: string): (r: Check<Option<NonNegative>>)
    ensures r.Pass? <==> key !in body || (body[key].JNum? && body[key].n >= 0.0)
    ensures r == Pass(None) <==> key !in body
    ensures key in body && r.Pass? ==> r.value == Some(body[key].n)
  {
    if key !in body then Pass(None)
    else if body[key].JNum? && body[key].n >= 0.0 then Pass(Some(body[key].n))
    else Fail
  }

  /** `z.number().optional()`. */
  function OptNumber(body: Body, key: string): (r: Check<Option<real>>)
    ensures r.Pass? <==> key !in body || body[key].JNum?
    ensures r == Pass(None) <==> key !in body
    ensures key in body && r.Pass? ==> r.value == Some(body[key].n)
  {
    if key !in body then Pass(None)
    else if body[key].JNum? then Pass(Some(body[key].n))
    else Fail
  }

  /** `z.boolean().optional()`. */
  function OptBool(body: Body, key: string): (r: Check<Option<bool>>)
    ensures r.Pass? <==> key !in body || body[key].JBool?
    ensures r == Pass(None) <==> key !in body
    ensures key in body && r.Pass? ==> r.value == Some(body[key].b)
  {
    if key !in body then Pass(None)
    else if body[key].JBool? then Pass(Some(body[key].b))
    else Fail
  }

  function LevelNamed(s: string): Option<Level>
  {
    if s == "LOW" then Some(LOW)
    else if s == "MEDIUM" then Some(MEDIUM)
    else if s == "HIGH" then Some(HIGH)
    else None
  }

  function LevelName(l: Level): string
  {
    match l
    case LOW => "LOW"
    case MEDIUM => "MEDIUM"
    case HIGH => "HIGH"
  }

  /** `z.enum(['LOW', 'MEDIUM', 'HIGH']).default('MEDIUM')`. */
  function LevelWithDefault(body: Body, key: string): (r: Check<Level>)
    ensures key !in body ==> r == Pass(MEDIUM)
    ensures key in body ==> (r.Pass? <==> body[key].JStr? && LevelNamed(body[key].s).Some?)
    ensures key in body && r.Pass? ==> LevelName(r.value) == body[key].s
  {
    if key !in body then Pass(MEDIUM)
    else if body[key].JStr? && LevelNamed(body[key].s).Some? then Pass(LevelNamed(body[key].s).value)
    else Fail
  }

  /** The same enum inside `.partial()`: an absent key stays absent (no default). */
  function OptLevel(body: Body, key: string): (r: Check<Option<Level>>)
    ensures r == Pass(None) <==> key !in body
    ensures key in body ==> (r.Pass? <==> body[key].JStr? && LevelNamed(body[key].s).Some?)
    ensures key in body && r.Pass? ==> LevelName(r.value.value) == body[key].s
  {
    if key !in body then Pass(None)
    else if body[key].JStr? && LevelNamed(body[key].s).Some? then Pass(Some(LevelNamed(body[key].s).value))
    else Fail
  }

  /** An optional string field as the body sent it: absent, or that string. */
  predicate SentAs(body: Body, key: string, v: Option<string>)
  {
    if v.Some? then key in body && body[key] == JStr(v.value) else key !in body
  }

  function Issue<T>(key: string, c: Check<T>): set<string>
  {
    if c.Fail? then {key} else {}
  }

  // ---------------------------------------------------------------------
  // UserRegisterSchema

  datatype UserRegister = UserRegister(email: string, password: string, firstName: Option<string>, lastName: Option<string>)

  function ParseUserRegister(body: Body, isEmail: string -> bool): (r: Parsed<UserRegister>)
    ensures r.Accepted? ==> |r.value.password| >= 8 && isEmail(r.value.email)
    ensures r.Accepted? ==>
      "password" in body && body["password"] == JStr(r.value.password) &&
      "email" in body && body["email"] == JStr(r.value.email)
    ensures r.Accepted? ==> SentAs(body, "firstName", r.value.firstName) && SentAs(body, "lastName", r.value.lastName)
    ensures r.Accepted? <==>
      ("email" in body && body["email"].JStr? && isEmail(body["email"].s)) &&
      ("password" in body && body["password"].JStr? && |body["password"].s| >= 8) &&
      ("firstName" !in body || body["firstName"].JStr?) && ("lastName" !in body || body["lastName"].JStr?)
    ensures r.Rejected? ==> r.issues != {} && r.issues <= {"email", "password", "firstName", "lastName"}
    ensures ("password" in body && body["password"].JStr? && |body["password"].s| < 8) ==>
      r.Rejected? && "password" in r.issues
  {
    var email := FormattedString(body, "email", isEmail);
    var password := ReqString(body, "password", 8);
    var firstName := OptString(body, "firstName");
    var lastName := OptString(body, "lastName");
    var issues := Issue("email", email) + Issue("password", password)
      + Issue("firstName", firstName) + Issue("lastName", lastName);
    if issues == {} then Accepted(UserRegister(email.value, password.value, firstName.value, lastName.value))
    else Rejected(issues)
  }

  // ---------------------------------------------------------------------
  // GoalCreateSchema and GoalUpdateSchema

  /** `targetDate` stays the string the client sent; it is a date `new Date(..)` can parse. */
  datatype GoalCreate = GoalCreate(
    name: NonEmptyString,
    description: Option<string>,
    target: Positive,
    targetDate: string,
    priority: Level,
    emoji: Option<string>)

  const GoalCreateKeys: set<string> := {"name", "description", "target", "targetDate", "priority", "emoji"}

  function ParseGoalCreate(body: Body, parsesAsDate: string -> bool): (r: Parsed<GoalCreate>)
    ensures r.Accepted? <==>
      ReqString(body, "name", 1).Pass? && OptString(body, "description").Pass? &&
      PositiveNumber(body, "target").Pass? && FormattedString(body, "targetDate", parsesAsDate).Pass? &&
      LevelWithDefault(body, "priority").Pass? && OptString(body, "emoji").Pass?
    ensures r.Accepted? ==>
      r.value.name == body["name"].s && r.value.target == body["target"].n &&
      parsesAsDate(r.value.targetDate) && body["targetDate"] == JStr(r.value.targetDate)
    ensures r.Accepted? ==> SentAs(body, "description", r.value.description) && SentAs(body, "emoji", r.value.emoji)
    ensures r.Rejected? ==> r.issues != {} && r.issues <= GoalCreateKeys
  {
    var name := ReqString(body, "name", 1);
    var description := OptString(body, "description");
    var target := PositiveNumber(body, "target");
    var targetDate := FormattedString(body, "targetDate", parsesAsDate);
    var priority := LevelWithDefault(body, "priority");
    var emoji := OptString(body, "emoji");
    var issues := Issue("name", name) + Issue("description", description) + Issue("target", target)
      + Issue("targetDate", targetDate) + Issue("priority", priority) + Issue("emoji", emoji);
    if issues == {} then
      Accepted(GoalCreate(name.value, description.value, target.value, targetDate.value, priority.value, emoji.value))
    else Rejected(issues)
  }

  /** Every field of the create schema made optional, plus `saved >= 0` and `isActive`. */
  datatype GoalUpdate = GoalUpdate(
    name: Option<NonEmptyString>,
    description: Option<string>,
    target: Option<Positive>,
    targetDate: Option<string>,
    priority: Option<Level>,
    emoji: Option<string>,
    saved: Option<NonNegative>,
    isActive: Option<bool>)

  function OptNonEmptyString(body: Body, key: string): (r: Check<Option<NonEmptyString>>)
    ensures r.Pass? <==> key !in body || (body[key].JStr? && |body[key].s| >= 1)
    ensures r == Pass(None) <==> key !in body
    ensures key in body && r.Pass? ==> r.value.Some? && r.value.value == body[key].s
  {
    if key !in body then Pass(None)
    else if body[key].JStr? && |body[key].s| >= 1 then
      var s: NonEmptyString := body[key].s;
      Pass(Some(s))
    else Fail
  }

  function OptFormattedString(body: Body, key: string, wellFormed: string -> bool): (r: Check<Option<string>>)
    ensures r.Pass? <==> key !in body || (body[key].JStr? && wellFormed(body[key].s))
    ensures r == Pass(None) <==> key !in body
    ensures key in body && r.Pass? ==> r.value == Some(body[key].s)
  {
    if key !in body then Pass(None)
    else if body[key].JStr? && wellFormed(body[key].s) then Pass(Some(body[key].s))
    else Fail
  }

  function ParseGoalUpdate(body: Body, parsesAsDate: string -> bool): (r: Parsed<GoalUpdate>)
    ensures r.Accepted? ==> (r.value.saved.Some? <==> "saved" in body)
    ensures r.Accepted? && r.value.saved.Some? ==> "saved" in body && body["saved"] == JNum(r.value.saved.value)
    ensures r.Accepted? && r.value.target.Some? ==> r.value.target.value > 0.0
    // every other field the patch carries is the value sent
    ensures r.Accepted? ==>
      (r.value.name.Some? <==> "name" in body) && (r.value.name.Some? ==> body["name"] == JStr(r.value.name.value)) &&
      (r.value.target.Some? <==> "target" in body) && (r.value.target.Some? ==> body["target"] == JNum(r.value.target.value)) &&
      SentAs(body, "description", r.value.description) && SentAs(body, "targetDate", r.value.targetDate) &&
      SentAs(body, "emoji", r.value.emoji) &&
      (r.value.priority.Some? ==> "priority" in body && body["priority"] == JStr(LevelName(r.value.priority.value)))
    ensures r.Accepted? ==> (r.value.priority.None? <==> "priority" !in body)
    ensures r.Accepted? ==> (r.value.isActive.Some? <==> "isActive" in body)
    ensures r.Accepted? && r.value.isActive.Some? ==> body["isActive"] == JBool(r.value.isActive.value)
    ensures r.Rejected? ==> r.issues != {} && r.issues <= GoalCreateKeys + {"saved", "isActive"}
  {
    var name := OptNonEmptyString(body, "name");
    var description := OptString(body, "description");
    var target := OptPositiveNumber(body, "target");
    var targetDate := OptFormattedString(body, "targetDate", parsesAsDate);
    var priority := OptLevel(body, "priority");
    var emoji := OptString(body, "emoji");
    var saved := OptNonNegativeNumber(body, "saved");
    var isActive := OptBool(body, "isActive");
    var issues := Issue("name", name) + Issue("description", description) + Issue("target", target)
      + Issue("targetDate", targetDate) + Issue("priority", priority) + Issue("emoji", emoji)
      + Issue("saved", saved) + Issue("isActive", isActive);
    if issues == {} then
      Accepted(GoalUpdate(name.value, description.value, target.value, targetDate.value,
        priority.value, emoji.value, saved.value, isActive.value))
    else Rejected(issues)
  }

  /** An update is accepted exactly when every field it carries is valid:
      a non-empty name, a positive target, a parseable date, a known
      priority, a non-negative saved amount and a boolean isActive. */
  lemma GoalUpdateAcceptedIff(body: Body, parsesAsDate: string -> bool)
    ensures ParseGoalUpdate(body, parsesAsDate).Accepted? <==>
      ("name" !in body || (body["name"].JStr? && |body["name"].s| >= 1)) &&
      ("description" !in body || body["description"].JStr?) &&
      ("target" !in body || (body["target"].JNum? && body["target"].n > 0.0)) &&
      ("targetDate" !in body || (body["targetDate"].JStr? && parsesAsDate(body["targetDate"].s))) &&
      ("priority" !in body || (body["priority"].JStr? && LevelNamed(body["priority"].s).Some?)) &&
      ("emoji" !in body || body["emoji"].JStr?) &&
      ("saved" !in body || (body["saved"].JNum? && body["saved"].n >= 0.0)) &&
      ("isActive" !in body || body["isActive"].JBool?)
  {
  }

  /** The empty patch is a valid update that changes nothing. */
  lemma EmptyUpdateAccepted(parsesAsDate: string -> bool)
    ensures ParseGoalUpdate(map[], parsesAsDate)
      == Accepted(GoalUpdate(None, None, None, None, None, None, None, None))
  {
  }

  /** The update schema is the create schema made partial: every body the
      create schema accepts (without `saved`/`isActive`) is an accepted
      update carrying the same fields, except that an absent priority stays
      absent instead of defaulting to MEDIUM. */
  lemma CreateBodyIsValidUpdate(body: Body, parsesAsDate: string -> bool)
    requires ParseGoalCreate(body, parsesAsDate).Accepted?
    requires "saved" !in body && "isActive" !in body
    ensures
      var c := ParseGoalCreate(body, parsesAsDate).value;
      ParseGoalUpdate(body, parsesAsDate) == Accepted(GoalUpdate(
        Some(c.name), c.description, Some(c.target), Some(c.targetDate),
        if "priority" in body then Some(c.priority) else None,
        c.emoji, None, None))
  {
  }

  /** Unlike the create schema, the update schema lets a client set a goal's
      `saved` figure (any non-negative number) and switch it on or off; a
      negative `saved` is rejected. */
  lemma UpdateMaySetSavedAndActivity(x: real, b: bool, parsesAsDate: string -> bool)
    ensures x >= 0.0 ==>
      ParseGoalUpdate(map["saved" := JNum(x)], parsesAsDate) ==
      Accepted(GoalUpdate(None, None, None, None, None, None, Some(x), None))
    ensures x < 0.0 ==> ParseGoalUpdate(map["saved" := JNum(x)], parsesAsDate) == Rejected({"saved"})
    ensures ParseGoalUpdate(map["isActive" := JBool(b)], parsesAsDate)
      == Accepted(GoalUpdate(None, None, None, None, None, None, None, Some(b)))
  {
  }

  /** Leaving out the priority gives MEDIUM; any other value than the three
      names is rejected. */
  lemma PriorityDefaultsToMedium(body: Body, parsesAsDate: string -> bool)
    requires ParseGoalCreate(body, parsesAsDate).Accepted?
    ensures "priority" !in body ==> ParseGoalCreate(body, parsesAsDate).value.priority == MEDIUM
    ensures "priority" in body ==> body["priority"] == JStr(LevelName(ParseGoalCreate(body, parsesAsDate).value.priority))
  {
  }

  // ---------------------------------------------------------------------
  // ExpenseCreateSchema

  datatype ExpenseCreate = ExpenseCreate(description: NonEmptyString, amount: Positive, category: NonEmptyString, date: string)

  function ParseExpenseCreate(body: Body, isIsoDateTime: string -> bool): (r: Parsed<ExpenseCreate>)
    ensures r.Accepted? <==>
      ReqString(body, "description", 1).Pass? && PositiveNumber(body, "amount").Pass? &&
      ReqString(body, "category", 1).Pass? && FormattedString(body, "date", isIsoDateTime).Pass?
    ensures r.Accepted? ==>
      r.value.amount == body["amount"].n && r.value.description == body["description"].s &&
      r.value.category == body["category"].s && isIsoDateTime(r.value.date) &&
      body["date"] == JStr(r.value.date)
    ensures r.Rejected? ==> r.issues != {} && r.issues <= {"description", "amount", "category", "date"}
  {
    var description := ReqString(body, "description", 1);
    var amount := PositiveNumber(body, "amount");
    var category := ReqString(body, "category", 1);
    var date := FormattedString(body, "date", isIsoDateTime);
    var issues := Issue("description", description) + Issue("amount", amount)
      + Issue("category", category) + Issue("date", date);
    if issues == {} then Accepted(ExpenseCreate(description.value, amount.value, category.value, date.value))
    else Rejected(issues)
  }

  // ---------------------------------------------------------------------
  // SavingCreateSchema

  function SavingTypeNamed(s: string): Option<SavingType>
  {
    if s == "MANUAL" then Some(MANUAL)
    else if s == "AUTOMATIC" then Some(AUTOMATIC)
    else if s == "ROUND_UP" then Some(ROUND_UP)
    else if s == "GOAL_CONTRIBUTION" then Some(GOAL_CONTRIBUTION)
    else None
  }

  datatype SavingCreate = SavingCreate(amount: Positive, savingType: SavingType, date: string)

  function ParseSavingCreate(body: Body, isIsoDateTime: string -> bool): (r: Parsed<SavingCreate>)
    ensures r.Accepted? ==>
      "amount" in body && body["amount"] == JNum(r.value.amount) &&
      "type" in body && body["type"].JStr? && body["type"].s in {"MANUAL", "AUTOMATIC", "ROUND_UP", "GOAL_CONTRIBUTION"} &&
      SavingTypeNamed(body["type"].s) == Some(r.value.savingType) &&
      "date" in body && body["date"] == JStr(r.value.date) && isIsoDateTime(r.value.date)
    ensures ("type" !in body || !body["type"].JStr? ||
             body["type"].s !in {"MANUAL", "AUTOMATIC", "ROUND_UP", "GOAL_CONTRIBUTION"}) ==>
      r.Rejected? && "type" in r.issues
    ensures r.Accepted? <==>
      ("amount" in body && body["amount"].JNum? && body["amount"].n > 0.0) &&
      ("type" in body && body["type"].JStr? && body["type"].s in {"MANUAL", "AUTOMATIC", "ROUND_UP", "GOAL_CONTRIBUTION"}) &&
      ("date" in body && body["date"].JStr? && isIsoDateTime(body["date"].s))
    ensures r.Rejected? ==> r.issues != {} && r.issues <= {"amount", "type", "date"}
  {
    var amount := PositiveNumber(body, "amount");
    var savingType: Check<SavingType> :=
      if "type" in body && body["type"].JStr? && SavingTypeNamed(body["type"].s).Some?
      then Pass(SavingTypeNamed(body["type"].s).value) else Fail;
    var date := FormattedString(body, "date", isIsoDateTime);
    var issues := Issue("amount", amount) + Issue("type", savingType) + Issue("date", date);
    if issues == {} then Accepted(SavingCreate(amount.value, savingType.value, date.value))
    else Rejected(issues)
  }

  // ---------------------------------------------------------------------
  // InsightCreateSchema

  function InsightTypeNamed(s: string): Option<InsightType>
  {
    if s == "SAVING" then Some(SAVING)
    else if s == "SPENDING" then Some(SPENDING)
    else if s == "WARNING" then Some(WARNING)
    else if s == "GOAL" then Some(GOAL)
    else if s == "ACHIEVEMENT" then Some(ACHIEVEMENT)
    else None
  }

  datatype InsightCreate = InsightCreate(
    insightType: InsightType,
    title: NonEmptyString,
    description: NonEmptyString,
    potentialSavings: Option<real>,
    impact: Level)

  function ParseInsightCreate(body: Body): (r: Parsed<InsightCreate>)
    ensures r.Accepted? ==>
      "type" in body && body["type"].JStr? && body["type"].s in {"SAVING", "SPENDING", "WARNING", "GOAL", "ACHIEVEMENT"} &&
      InsightTypeNamed(body["type"].s) == Some(r.value.insightType)
    ensures r.Accepted? ==> ("impact" !in body ==> r.value.impact == MEDIUM)
    ensures r.Accepted? ==>
      "title" in body && body["title"] == JStr(r.value.title) &&
      "description" in body && body["description"] == JStr(r.value.description) &&
      (r.value.potentialSavings.Some? <==> "potentialSavings" in body) &&
      (r.value.potentialSavings.Some? ==> body["potentialSavings"] == JNum(r.value.potentialSavings.value))
    ensures r.Accepted? && "impact" in body ==> body["impact"] == JStr(LevelName(r.value.impact))
    ensures r.Accepted? <==>
      ("type" in body && body["type"].JStr? && body["type"].s in {"SAVING", "SPENDING", "WARNING", "GOAL", "ACHIEVEMENT"}) &&
      ("title" in body && body["title"].JStr? && |body["title"].s| >= 1) &&
      ("description" in body && body["description"].JStr? && |body["description"].s| >= 1) &&
      ("potentialSavings" !in body || body["potentialSavings"].JNum?) &&
      ("impact" !in body || (body["impact"].JStr? && LevelNamed(body["impact"].s).Some?))
    ensures r.Rejected? ==> r.issues != {} && r.issues <= {"type", "title", "description", "potentialSavings", "impact"}
  {
    var insightType: Check<InsightType> :=
      if "type" in body && body["type"].JStr? && InsightTypeNamed(body["type"].s).Some?
      then Pass(InsightTypeNamed(body["type"].s).value) else Fail;
    var title := ReqString(body, "title", 1);
    var description := ReqString(body, "description", 1);
    var potentialSavings := OptNumber(body, "potentialSavings");
    var impact := LevelWithDefault(body, "impact");
    var issues := Issue("type", insightType) + Issue("title", title) + Issue("description", description)
      + Issue("potentialSavings", potentialSavings) + Issue("impact", impact);
    if issues == {} then
      Accepted(InsightCreate(insightType.value, title.value, description.value, potentialSavings.value, impact.value))
    else Rejected(issues)
  }
}
