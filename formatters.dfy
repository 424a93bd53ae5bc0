/** The display helpers of the mobile app: amounts in rupees with thousands
    separators, plain numbers, percentages, truncated text and "N days ago"
    labels. A JavaScript number is exact here (no floating point); the
    values JavaScript adds to the reals (null, undefined, NaN, the
    infinities) are spelled out because the helpers test for them. */
module Formatters {
  import opened Common
  import Dashboard

  datatype JsNumber =
    | JsNull
    | JsUndefined
    | JsNaN
    | JsInfinity(negative: bool)
    | JsFinite(value: real)

  /** `x === null || x === undefined || isNaN(x)`. */
  predicate Unusable(x: JsNumber)
  {
    x.JsNull? || x.JsUndefined? || x.JsNaN?
  }

  // ---------------------------------------------------------------------
  // Number.prototype.toFixed(0)

  /** `v.toFixed(0)` for a finite v: a minus sign when v is below zero (so
      -0.3 gives "-0"), then the nearest whole number to |v|, halves away
      from zero. */
  function ToFixed0(v: real): (s: string)
    ensures |s| >= 1 && (s[0] == '-' <==> v < 0.0)
  {
    var n := RoundHalfUp(Abs(v));
    (if v < 0.0 then "-" else "") + NatToString(n)
  }

  /** After the sign, toFixed(0) writes digits that read as |v| rounded to
      the nearest whole number. */
  lemma ToFixed0ReadsBack(v: real)
    ensures var s := ToFixed0(v);
      var digits := if v < 0.0 then s[1..] else s;
      |digits| >= 1 && AllDigits(digits) &&
      DigitsValue(digits) as real - 0.5 <= Abs(v) < DigitsValue(digits) as real + 0.5
  {
    var n := RoundHalfUp(Abs(v));
    DigitsValueOfNatToString(n);
    var digits := NatToString(n);
    var s := (if v < 0.0 then "-" else "") + digits;
    assert ToFixed0(v) == s;
    assert (if v < 0.0 then s[1..] else s) == digits;
  }

  /** `String(Infinity)` / `String(-Infinity)`, which toFixed returns as is. */
  function InfinityText(negative: bool): string
  {
    (if negative then "-" else "") + "Infinity"
  }

  // ---------------------------------------------------------------------
  // The thousands-separator regular expression

  /** How many digits run on from position i of s. */
  function DigitRun(s: string, i: nat): (n: nat)
    ensures i + n <= |s| || n == 0
    decreases |s| - i
  {
    if i >= |s| || !IsDigit(s[i]) then 0 else 1 + DigitRun(s, i + 1)
  }

  /** Where `/\B(?=(\d{3})+(?!\d))/` matches: a position inside s that is
      not a word boundary (both neighbours word characters, or both not),
      followed by a run of digits whose length is a positive multiple of
      three. At position 0 the lookahead would need a digit, which makes
      position 0 a boundary, so it never matches there; at the end no
      digits follow. */
  predicate CommaBefore(s: string, i: nat)
  {
    0 < i < |s| && IsWordChar(s[i - 1]) == IsWordChar(s[i]) &&
    DigitRun(s, i) > 0 && DigitRun(s, i) % 3 == 0
  }

  /** `s.replace(/\B(?=(\d{3})+(?!\d))/g, ',')`, from position i on. */
  function ReplaceFrom(s: string, i: nat): string
    requires i <= |s|
    decreases |s| - i
  {
    if i == |s| then ""
    else (if CommaBefore(s, i) then "," else "") + [s[i]] + ReplaceFrom(s, i + 1)
  }

  function ThousandsRegex(s: string): string
  {
    ReplaceFrom(s, 0)
  }

  /** The regular expression inserts separators and changes nothing else. */
  lemma ThousandsRegexOnlyInsertsCommas(s: string)
    ensures |s| <= |ThousandsRegex(s)|
    ensures RemoveCommas(ThousandsRegex(s)) == RemoveCommas(s)
  {
    RegexOnlyInsertsCommas(s, 0);
  }

  lemma {:induction false} RegexOnlyInsertsCommas(s: string, i: nat)
    requires i <= |s|
    ensures |s| - i <= |ReplaceFrom(s, i)|
    ensures RemoveCommas(ReplaceFrom(s, i)) == RemoveCommas(s[i..])
    decreases |s| - i
  {
    if i < |s| {
      RegexOnlyInsertsCommas(s, i + 1);
      var sep: string := if CommaBefore(s, i) then "," else "";
      var rest := ReplaceFrom(s, i + 1);
      assert ReplaceFrom(s, i) == sep + ([s[i]] + rest);
      RemoveCommasAppend(sep, [s[i]] + rest);
      RemoveCommasAppend([s[i]], rest);
      assert s[i..] == [s[i]] + s[i + 1..];
      RemoveCommasAppend([s[i]], s[i + 1..]);
      assert RemoveCommas(sep) == "" by {
        if sep != "" { assert RemoveCommas(sep[1..]) == ""; }
      }
    }
  }

  /** The usual reading of a thousands separator: a run of digits grouped by
      three from the right, the leading group one to three digits long. */
  function GroupThousands(d: string): string
    decreases |d|
  {
    if |d| <= 3 then d else GroupThousands(d[..|d| - 3]) + "," + d[|d| - 3..]
  }

  /** Dropping the separators again. */
  function RemoveCommas(s: string): (r: string)
    ensures |r| <= |s|
  {
    if s == [] then [] else (if s[0] == ',' then [] else [s[0]]) + RemoveCommas(s[1..])
  }

  // The digits-only form of the regular expression, used to connect the two.
  function CommasFrom(d: string, i: nat): string
    requires i <= |d|
    decreases |d| - i
  {
    if i == |d| then ""
    else (if 0 < i && (|d| - i) % 3 == 0 then "," else "") + [d[i]] + CommasFrom(d, i + 1)
  }

  lemma {:induction false} DigitRunOfDigits(s: string, i: nat)
    requires i <= |s| && forall k :: i <= k < |s| ==> IsDigit(s[k])
    ensures DigitRun(s, i) == |s| - i
    decreases |s| - i
  {
    if i < |s| {
      DigitRunOfDigits(s, i + 1);
    }
  }

  /** Over the digits s[start..], the regular expression acts as CommasFrom. */
  lemma {:induction false} ReplaceOverDigits(s: string, start: nat, i: nat)
    requires start <= i <= |s| && forall k :: start <= k < |s| ==> IsDigit(s[k])
    requires start == 0 || !IsWordChar(s[start - 1])
    ensures ReplaceFrom(s, i) == CommasFrom(s[start..], i - start)
    decreases |s| - i
  {
    if i < |s| {
      ReplaceOverDigits(s, start, i + 1);
      DigitRunOfDigits(s, i);
      var d := s[start..];
      assert d[i - start] == s[i];
      assert IsWordChar(s[i]);
      assert i > start ==> IsWordChar(s[i - 1]);
      assert CommaBefore(s, i) <==> i > start && (|d| - (i - start)) % 3 == 0;
    }
  }

  lemma {:induction false} NoCommaBeforeNonDigits(s: string, start: nat, i: nat)
    requires i <= start <= |s| && forall k :: 0 <= k < start ==> !IsDigit(s[k])
    ensures ReplaceFrom(s, i) == s[i..start] + ReplaceFrom(s, start)
    decreases start - i
  {
    if i < start {
      NoCommaBeforeNonDigits(s, start, i + 1);
      assert !IsDigit(s[i]) && DigitRun(s, i) == 0;
      var rest := ReplaceFrom(s, start);
      assert ReplaceFrom(s, i) == [s[i]] + (s[i + 1..start] + rest);
      assert s[i..start] == [s[i]] + s[i + 1..start];
      assert [s[i]] + (s[i + 1..start] + rest) == s[i..start] + rest;
    }
  }

  lemma {:induction false} CommasFromShort(d: string, i: nat)
    requires i <= |d| <= 3
    ensures CommasFrom(d, i) == d[i..]
    decreases |d| - i
  {
    if i < |d| {
      CommasFromShort(d, i + 1);
      assert d[i..] == [d[i]] + d[i + 1..];
    }
  }

  /** The last three digits of d + e get a separator before them. */
  lemma CommasFromLastThree(d: string, e: string)
    requires |e| == 3 && 1 <= |d|
    ensures CommasFrom(d + e, |d|) == "," + e
  {
    var s := d + e;
    assert s[|d|] == e[0] && s[|d| + 1] == e[1] && s[|d| + 2] == e[2];
    assert CommasFrom(s, |d| + 3) == "";
    assert CommasFrom(s, |d| + 2) == [e[2]];
    assert CommasFrom(s, |d| + 1) == [e[1], e[2]];
    assert CommasFrom(s, |d|) == "," + [e[0], e[1], e[2]];
    assert e == [e[0], e[1], e[2]];
  }

  lemma {:induction false} CommasFromAppend(d: string, e: string, i: nat)
    requires |e| == 3 && 1 <= |d| && i <= |d|
    ensures CommasFrom(d + e, i) == CommasFrom(d, i) + "," + e
    decreases |d| - i
  {
    var s := d + e;
    if i == |d| {
      CommasFromLastThree(d, e);
      assert CommasFrom(d, i) == "";
    } else {
      CommasFromAppend(d, e, i + 1);
      var sep: string := if 0 < i && (|d| - i) % 3 == 0 then "," else "";
      assert (|s| - i) % 3 == (|d| - i) % 3;
      assert s[i] == d[i];
      var rest := CommasFrom(d, i + 1);
      assert CommasFrom(s, i) == sep + [d[i]] + (rest + "," + e);
      assert CommasFrom(d, i) == sep + [d[i]] + rest;
      assert sep + [d[i]] + (rest + "," + e) == (sep + [d[i]] + rest) + "," + e;
    }
  }

  /** The regular expression applied to a run of digits groups them by
      three from the right. */
  lemma {:induction false} CommasFromGroups(d: string)
    ensures CommasFrom(d, 0) == GroupThousands(d)
    decreases |d|
  {
    if |d| <= 3 {
      CommasFromShort(d, 0);
    } else {
      var h := d[..|d| - 3];
      var e := d[|d| - 3..];
      CommasFromGroups(h);
      CommasFromAppend(h, e, 0);
      assert h + e == d;
    }
  }

  /** On a string made of a sign or other non-digit prefix (ending in a
      non-word character, as `-` and `₹` do) and a run of digits, the
      regular expression inserts separators between the digits and nowhere
      else. */
  lemma RegexGroupsTheDigits(p: string, d: string)
    requires AllDigits(d)
    requires forall k :: 0 <= k < |p| ==> !IsDigit(p[k])
    requires p == [] || !IsWordChar(p[|p| - 1])
    ensures ThousandsRegex(p + d) == p + GroupThousands(d)
  {
    var s := p + d;
    assert forall k :: |p| <= k < |s| ==> s[k] == d[k - |p|];
    NoCommaBeforeNonDigits(s, |p|, 0);
    ReplaceOverDigits(s, |p|, |p|);
    assert s[..|p|] == p && s[|p|..] == d;
    CommasFromGroups(d);
  }

  /** s holds no digit, checked one character at a time. */
  predicate NoDigits(s: string)
  {
    s == [] || (!IsDigit(s[0]) && NoDigits(s[1..]))
  }

  lemma {:induction false} NoDigitsAt(s: string, k: nat)
    requires NoDigits(s) && k < |s|
    ensures !IsDigit(s[k])
  {
    if k > 0 {
      NoDigitsAt(s[1..], k - 1);
    }
  }

  /** A string without digits passes through unchanged ("Infinity"). */
  lemma {:induction false} RegexLeavesDigitFreeText(s: string, i: nat)
    requires i <= |s| && NoDigits(s)
    ensures ReplaceFrom(s, i) == s[i..]
    decreases |s| - i
  {
    if i < |s| {
      NoDigitsAt(s, i);
      assert DigitRun(s, i) == 0;
      RegexLeavesDigitFreeText(s, i + 1);
      assert s[i..] == [s[i]] + s[i + 1..];
    }
  }

  lemma InfinityHasNoSeparators(negative: bool)
    ensures ThousandsRegex(InfinityText(negative)) == InfinityText(negative)
  {
    var t := InfinityText(negative);
    assert NoDigits("Infinity");
    if negative {
      assert t == "-" + "Infinity";
      assert t[1..] == "Infinity";
      assert NoDigits(t);
    } else {
      assert t == "Infinity";
    }
    RegexLeavesDigitFreeText(t, 0);
  }

  lemma {:induction false} RemoveCommasAppend(a: string, b: string)
    ensures RemoveCommas(a + b) == RemoveCommas(a) + RemoveCommas(b)
    decreases |a|
  {
    if a != [] {
      RemoveCommasAppend(a[1..], b);
      assert (a + b)[0] == a[0];
      assert (a + b)[1..] == a[1..] + b;
    } else {
      assert a + b == b;
    }
  }

  lemma {:induction false} RemoveCommasOfDigits(d: string)
    requires AllDigits(d)
    ensures RemoveCommas(d) == d
    decreases |d|
  {
    if d != [] {
      RemoveCommasOfDigits(d[1..]);
    }
  }

  /** Removing the separators gives back the digits. */
  lemma {:induction false} RemoveCommasUndoesGrouping(d: string)
    requires AllDigits(d)
    ensures RemoveCommas(GroupThousands(d)) == d
    decreases |d|
  {
    if |d| <= 3 {
      RemoveCommasOfDigits(d);
    } else {
      var h := d[..|d| - 3];
      var e := d[|d| - 3..];
      var g := GroupThousands(h);
      assert GroupThousands(d) == g + "," + e;
      calc {
        RemoveCommas(g + "," + e);
        { RemoveCommasAppend(g + ",", e); }
        RemoveCommas(g + ",") + RemoveCommas(e);
        { RemoveCommasAppend(g, ","); }
        RemoveCommas(g) + RemoveCommas(",") + RemoveCommas(e);
        { RemoveCommasUndoesGrouping(h); RemoveCommasOfDigits(e); assert RemoveCommas(",") == []; }
        h + [] + e;
        { assert h + e == d; }
        d;
      }
    }
  }

  /** n digits carry (n - 1) / 3 separators: none below four digits, one
      for four to six, and so on. */
  lemma {:induction false} SeparatorCount(d: string)
    requires |d| >= 1
    ensures |GroupThousands(d)| == |d| + (|d| - 1) / 3
    decreases |d|
  {
    if |d| > 3 {
      SeparatorCount(d[..|d| - 3]);
    }
  }

  // ---------------------------------------------------------------------
  // formatCurrency, formatNumber

  /** The grouped text of a whole number n reads back as n. */
  lemma GroupedNumberReadsBack(n: nat)
    ensures var body := GroupThousands(NatToString(n));
      |body| >= 1 && AllDigits(RemoveCommas(body)) && body == GroupThousands(RemoveCommas(body)) &&
      DigitsValue(RemoveCommas(body)) == n
  {
    var digits := NatToString(n);
    RemoveCommasUndoesGrouping(digits);
    DigitsValueOfNatToString(n);
    SeparatorCount(digits);
  }

  /** `v.toFixed(0).replace(/\B(?=(\d{3})+(?!\d))/g, ',')` for a finite v:
      the sign, then the digits of the rounded magnitude grouped by
      thousands. */
  function GroupedFixed(v: real): (r: string)
    ensures r == (if v < 0.0 then "-" else "") + GroupThousands(NatToString(RoundHalfUp(Abs(v))))
  {
    var sign := if v < 0.0 then "-" else "";
    var digits := NatToString(RoundHalfUp(Abs(v)));
    assert ToFixed0(v) == sign + digits;
    RegexGroupsTheDigits(sign, digits);
    ThousandsRegex(ToFixed0(v))
  }

  /** `Math.abs(x)` on a number that is neither missing nor NaN. */
  function JsAbs(x: JsNumber): (r: JsNumber)
    requires !Unusable(x)
    ensures r == if x.JsFinite? then JsFinite(Abs(x.value)) else JsInfinity(false)
  {
    match x
    case JsFinite(v) => JsFinite(Abs(v))
    case JsInfinity(_) => JsInfinity(false)
  }

  /** `x.toFixed(0)` on a number that is neither missing nor NaN. */
  function ToFixed(x: JsNumber): string
    requires !Unusable(x)
  {
    match x
    case JsFinite(v) => ToFixed0(v)
    case JsInfinity(negative) => InfinityText(negative)
  }

  lemma GroupedMagnitude(v: real)
    ensures GroupedFixed(Abs(v)) == GroupThousands(NatToString(RoundHalfUp(Abs(v))))
  {
    assert Abs(Abs(v)) == Abs(v);
    assert "" + GroupThousands(NatToString(RoundHalfUp(Abs(v)))) ==
      GroupThousands(NatToString(RoundHalfUp(Abs(v))));
  }

  /** `formatCurrency(amount)`: "₹0" for a missing or NaN amount; otherwise
      a minus sign for a negative amount, the rupee sign, and |amount|
      rounded to a whole number with its digits grouped by thousands. */
  function FormatCurrency(amount: JsNumber): (r: string)
    ensures Unusable(amount) ==> r == "₹0"
    ensures amount.JsInfinity? ==> r == (if amount.negative then "-₹" else "₹") + "Infinity"
    ensures amount.JsFinite? ==>
      r == (if amount.value < 0.0 then "-₹" else "₹") +
           GroupThousands(NatToString(RoundHalfUp(Abs(amount.value))))
  {
    if Unusable(amount) then "₹0"
    else
      var isNegative := if amount.JsFinite? then amount.value < 0.0 else amount.negative;
      var formatted := ThousandsRegex(ToFixed(JsAbs(amount)));
      if amount.JsFinite? then
        GroupedMagnitude(amount.value);
        (if isNegative then "-₹" else "₹") + formatted
      else
        InfinityHasNoSeparators(JsAbs(amount).negative);
        (if isNegative then "-₹" else "₹") + formatted
  }

  /** `formatNumber(num)`: "0" for a missing or NaN number; otherwise
      `num.toFixed(0)` with its digits grouped by thousands. */
  function FormatNumber(num: JsNumber): (r: string)
    ensures Unusable(num) ==> r == "0"
    ensures num.JsInfinity? ==> r == InfinityText(num.negative)
    ensures num.JsFinite? ==>
      r == (if num.value < 0.0 then "-" else "") +
           GroupThousands(NatToString(RoundHalfUp(Abs(num.value))))
  {
    match num
    case JsFinite(v) => GroupedFixed(v)
    case JsInfinity(negative) =>
      InfinityHasNoSeparators(negative);
      ThousandsRegex(InfinityText(negative))
    case _ => "0"
  }

  /** r is `sign` followed by the digits of n grouped by thousands: the
      separators sit where grouping puts them, and without them the
      digits read as n. */
  predicate ShowsGrouped(r: string, sign: string, n: int)
  {
    |sign| < |r| && r[..|sign|] == sign &&
    var body := r[|sign|..];
    AllDigits(RemoveCommas(body)) && body == GroupThousands(RemoveCommas(body)) &&
    DigitsValue(RemoveCommas(body)) == n
  }

  lemma SignedGroupedReadsBack(sign: string, n: nat)
    ensures ShowsGrouped(sign + GroupThousands(NatToString(n)), sign, n)
  {
    var body := GroupThousands(NatToString(n));
    GroupedNumberReadsBack(n);
    assert (sign + body)[..|sign|] == sign;
    assert (sign + body)[|sign|..] == body;
  }

  /** A finite amount's currency text reads back, once the sign and the
      separators are taken off, as the amount rounded to a whole number. */
  lemma CurrencyReadsBack(v: real)
    ensures ShowsGrouped(FormatCurrency(JsFinite(v)), if v < 0.0 then "-₹" else "₹", RoundHalfUp(Abs(v)))
  {
    SignedGroupedReadsBack(if v < 0.0 then "-₹" else "₹", RoundHalfUp(Abs(v)));
  }

  /** The same for formatNumber, with a bare minus sign. */
  lemma NumberReadsBack(v: real)
    ensures ShowsGrouped(FormatNumber(JsFinite(v)), if v < 0.0 then "-" else "", RoundHalfUp(Abs(v)))
  {
    SignedGroupedReadsBack(if v < 0.0 then "-" else "", RoundHalfUp(Abs(v)));
  }

  /** The currency text is the plain number's text with the rupee sign put
      after any minus sign. */
  lemma CurrencyIsNumberWithRupeeSign(v: real)
    ensures FormatCurrency(JsFinite(v)) ==
      (if v < 0.0 then "-₹" + FormatNumber(JsFinite(v))[1..] else "₹" + FormatNumber(JsFinite(v)))
  {
    var body := GroupThousands(NatToString(RoundHalfUp(Abs(v))));
    if v < 0.0 {
      assert ("-" + body)[1..] == body;
    } else {
      assert "" + body == body;
    }
  }

  // ---------------------------------------------------------------------
  // calculatePercentage, truncateText

  /** `calculatePercentage(current, total)`: 0 for a zero total, otherwise
      the share in percent rounded to a whole number and capped at 100
      (there is no floor: a negative share stays negative). */
  function CalculatePercentage(current: real, total: real): (r: int)
    ensures total == 0.0 ==> r == 0
    ensures r <= 100
    ensures total != 0.0 ==> (r == 100 <==> current / total * 100.0 >= 99.5)
    ensures total != 0.0 && r < 100 ==>
      r as real - 0.5 <= current / total * 100.0 < r as real + 0.5
    ensures total > 0.0 && current >= 0.0 ==> r >= 0
  {
    if total == 0.0 then 0
    else
      var rounded := RoundHalfUp(current / total * 100.0);
      if rounded <= 100 then rounded else 100
  }

  /** A goal that has reached its target shows 100%, over-funded or not. */
  lemma FullGoalShowsHundred(current: real, total: real)
    requires total > 0.0 && current >= total
    ensures CalculatePercentage(current, total) == 100
  {
    assert current / total >= 1.0;
  }

  /** `truncateText(text, maxLength)`: the text itself when it fits,
      otherwise its first maxLength characters (none for a negative
      maxLength, as `substring` clamps) followed by "...". */
  function TruncateText(text: string, maxLength: int): (r: string)
    ensures |text| <= maxLength ==> r == text
    ensures |text| > maxLength ==>
      var kept := if maxLength < 0 then 0 else maxLength;
      |r| == kept + 3 && r[..kept] == text[..kept] && r[kept..] == "..."
  {
    if |text| <= maxLength then text
    else text[..if maxLength < 0 then 0 else maxLength] + "..."
  }

  /** A truncated text is at most three characters longer than the limit,
      and never longer than needed: it is a prefix of the original or
      a prefix followed by the ellipsis. */
  lemma TruncatedLengthBound(text: string, maxLength: int)
    requires maxLength >= 0
    ensures |TruncateText(text, maxLength)| <= maxLength + 3
    ensures |TruncateText(text, maxLength)| <= |text| + 2
  {
  }

  // ---------------------------------------------------------------------
  // formatRelativeTime

  /** `Math.floor(diffInMs / msPerDay)`: whole days elapsed, rounded down,
      negative for a date in the future. */
  function DaysSince(now: int, date: int): (d: int)
    ensures d * MsPerDay <= now - date < (d + 1) * MsPerDay
  {
    (now - date) / MsPerDay
  }

  /** The mobile app's buckets. Unlike the dashboard it rounds down, adds a
      years bucket, and lets a future date through as a negative number
      of days. */
  function MobileBucket(days: int): (t: RelativeTime)
    ensures (t == Today <==> days == 0) && (t == Yesterday <==> days == 1)
    ensures t.DaysAgo? <==> days < 0 || 2 <= days < 7
    ensures t.DaysAgo? ==> t.days == days
    ensures t.WeeksAgo? <==> 7 <= days < 30
    ensures t.WeeksAgo? ==> 7 * t.weeks <= days < 7 * t.weeks + 7
    ensures t.MonthsAgo? <==> 30 <= days < 365
    ensures t.MonthsAgo? ==> 30 * t.months <= days < 30 * t.months + 30
    ensures t.YearsAgo? <==> days >= 365
    ensures t.YearsAgo? ==> 365 * t.years <= days < 365 * t.years + 365
  {
    if days == 0 then Today
    else if days == 1 then Yesterday
    else if days < 7 then DaysAgo(days)
    else if days < 30 then WeeksAgo(days / 7)
    else if days < 365 then MonthsAgo(days / 30)
    else YearsAgo(days / 365)
  }

  /** `formatRelativeTime(dateString)`: "N/A" without a date string,
      "Invalid Date" when it does not parse, otherwise the bucket label for
      the whole days since that date. `parse` stands for `new Date(s)`
      (None for an invalid date) and `now` for the clock. */
  function FormatRelativeTime(dateString: Option<string>, parse: string -> Option<int>, now: int): (r: string)
    ensures dateString.None? || dateString == Some("") ==> r == "N/A"
    ensures dateString.Some? && dateString.value != "" && parse(dateString.value).None? ==> r == "Invalid Date"
    ensures dateString.Some? && dateString.value != "" && parse(dateString.value).Some? ==>
      var d := DaysSince(now, parse(dateString.value).value);
      r == RelativeText(MobileBucket(d))
  {
    if dateString.None? || dateString.value == "" then "N/A"
    else match parse(dateString.value)
      case None => "Invalid Date"
      case Some(date) => RelativeText(MobileBucket(DaysSince(now, date)))
  }

  /** A date later than now is shown as a negative number of days ago. */
  lemma FutureDateShowsNegativeDays(s: string, parse: string -> Option<int>, now: int)
    requires s != "" && parse(s).Some? && parse(s).value > now
    ensures var r := FormatRelativeTime(Some(s), parse, now);
      r == IntToString(DaysSince(now, parse(s).value)) + " days ago" && r[0] == '-'
  {
    var d := DaysSince(now, parse(s).value);
    assert d < 0 by {
      assert d * MsPerDay < 0;
    }
    assert MobileBucket(d) == DaysAgo(d);
    var digits := IntToString(d);
    assert digits == "-" + NatToString(-d);
    assert (digits + " days ago")[0] == digits[0];
  }

  /** For a date a whole number of days back, less than a year, the mobile
      label and the dashboard label agree. */
  lemma LabelsAgreeOnWholeDays(now: int, n: nat)
    requires n < 365
    ensures Dashboard.FormatRelativeDate(now, now - n * MsPerDay) == MobileBucket(DaysSince(now, now - n * MsPerDay))
  {
    assert DaysSince(now, now - n * MsPerDay) == n;
    assert Dashboard.DaysApart(now, now - n * MsPerDay) == n;
  }

  /** A day and a half back, the dashboard (rounding up) says "2 days ago"
      while the mobile app (rounding down) says "Yesterday". */
  lemma LabelsDisagreeOnPartialDays(now: int)
    ensures var date := now - MsPerDay - MsPerDay / 2;
      Dashboard.FormatRelativeDate(now, date) == DaysAgo(2) && MobileBucket(DaysSince(now, date)) == Yesterday
  {
    var date := now - MsPerDay - MsPerDay / 2;
    assert DaysSince(now, date) == 1;
    assert Dashboard.DaysApart(now, date) == 2;
  }
}
