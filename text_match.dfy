/** The resume / job-description matcher: text is lower-cased, stripped to
    word characters and split into tokens; skills are looked up in a fixed
    list; and the two texts are compared by the share of the description's
    skills and words the resume contains. */
module TextMatch {
  import opened Common

  // ---------------------------------------------------------------------
  // preprocessText

  /** `toLowerCase` on one character; only ASCII letters are mapped. */
  function Lower(c: char): (l: char)
    ensures !('A' <= l <= 'Z')
    ensures 'a' <= c <= 'z' || !IsWordChar(c) ==> l == c
  {
    if 'A' <= c <= 'Z' then (c as int - 'A' as int + 'a' as int) as char else c
  }

  function LowerText(s: string): (r: string)
    ensures |r| == |s| && forall i :: 0 <= i < |s| ==> r[i] == Lower(s[i])
  {
    seq(|s|, i requires 0 <= i < |s| => Lower(s[i]))
  }

  /** The characters of the class `\s`. */
  predicate IsJsSpace(c: char)
  {
    c == ' ' || c == '\t' || c == '\n' || c == '\U{000B}' || c == '\U{000C}' || c == '\r' ||
    c == '\U{00A0}' || c == '\U{1680}' || '\U{2000}' <= c <= '\U{200A}' || c == '\U{2028}' ||
    c == '\U{2029}' || c == '\U{202F}' || c == '\U{205F}' || c == '\U{3000}' || c == '\U{FEFF}'
  }

  /** What a token may be made of: lower-case ASCII letters, digits and `_`. */
  predicate IsTokenChar(c: char)
  {
    'a' <= c <= 'z' || IsDigit(c) || c == '_'
  }

  /** `.replace(/[^\w\s]/g, ' ')` after lower-casing one character. */
  function CleanChar(c: char): (r: char)
    ensures IsJsSpace(r) || IsTokenChar(r)
  {
    var l := Lower(c);
    if IsWordChar(l) || IsJsSpace(l) then l else ' '
  }

  function Clean(text: string): (r: string)
    ensures |r| == |text|
    ensures forall c :: c in r ==> IsJsSpace(c) || IsTokenChar(c)
  {
    seq(|text|, i requires 0 <= i < |text| => CleanChar(text[i]))
  }

  /** How many characters at the front of s are not white space. */
  function TokenLength(s: string): (n: nat)
    ensures n <= |s|
    ensures forall k :: 0 <= k < n ==> !IsJsSpace(s[k])
    ensures n < |s| ==> IsJsSpace(s[n])
  {
    if s == [] || IsJsSpace(s[0]) then 0 else 1 + TokenLength(s[1..])
  }

  /** `split(/\s+/)` without the empty strings it yields for leading or
      trailing white space (the length filter drops those anyway): the
      maximal runs of non-space characters, in order. */
  function Words(s: string): (ws: seq<string>)
    ensures forall w :: w in ws ==> |w| > 0 && forall k :: 0 <= k < |w| ==> !IsJsSpace(w[k]) && w[k] in s
    decreases |s|
  {
    if s == [] then []
    else if IsJsSpace(s[0]) then Words(s[1..])
    else
      var n := TokenLength(s);
      var rest := Words(s[n..]);
      assert forall w :: w in rest ==> forall k :: 0 <= k < |w| ==> w[k] in s by {
        forall w, k | w in rest && 0 <= k < |w| ensures w[k] in s {
          var j :| 0 <= j < |s[n..]| && s[n..][j] == w[k];
          assert s[n + j] == w[k];
        }
      }
      [s[..n]] + rest
  }

  const StopWords: set<string> := {
    "the", "a", "an", "and", "or", "but", "in", "on", "at", "to", "for", "of", "with", "by", "is", "are",
    "was", "were", "be", "been", "have", "has", "had", "do", "does", "did", "will", "would", "could",
    "should", "may", "might", "can", "must", "this", "that", "these", "those", "i", "you", "he", "she",
    "it", "we", "they", "me", "him", "her", "us", "them"}

  /** The token filter: longer than two characters, not a stop word, not
      a number (`/^\d+$/`). */
  predicate Keep(w: string)
  {
    |w| > 2 && w !in StopWords && !AllDigits(w)
  }

  /** `preprocessText(text)`: the cleaned text's words that pass the filter,
      in order, repeats included. */
  function Preprocess(text: string): (tokens: seq<string>)
    ensures forall w :: w in tokens <==> w in Words(Clean(text)) && Keep(w)
  {
    Filter(Words(Clean(text)), Keep)
  }

  /** Every token is longer than two characters, no stop word, no number,
      and made of lower-case letters, digits and `_` only. */
  lemma {:induction false} PreprocessTokenShape(text: string)
    ensures forall w :: w in Preprocess(text) ==> |w| > 2 && w !in StopWords && !AllDigits(w)
    ensures forall w :: w in Preprocess(text) ==> forall k :: 0 <= k < |w| ==> IsTokenChar(w[k])
  {
  }

  /** The tokens keep the text's order. */
  lemma {:induction false} PreprocessKeepsOrder(text: string)
    ensures IsSubsequence(Preprocess(text), Words(Clean(text)))
  {
    FilterSelects(Words(Clean(text)), Keep);
  }

  /** Each kept word is a token as often as the text has it. */
  lemma {:induction false} PreprocessKeepsRepeats(text: string, w: string)
    requires w in Preprocess(text)
    ensures multiset(Preprocess(text))[w] == multiset(Words(Clean(text)))[w]
  {
    var ws := Words(Clean(text));
    FilterSelects(ws, Keep);
    assert Keep(w);
  }

  // ---------------------------------------------------------------------
  // extractSkills

  // The skill categories, each in its listed order.
  const ProgrammingLanguages: seq<string> := [
    "javascript", "python", "java", "typescript", "c++", "c#", "php", "ruby", "go", "rust", "swift",
    "kotlin", "scala", "r", "matlab"]
  const WebTechnologies: seq<string> := [
    "react", "angular", "vue", "nodejs", "express", "nextjs", "html", "css", "sass", "bootstrap", "tailwind"]
  const Databases: seq<string> := [
    "mysql", "postgresql", "mongodb", "redis", "sqlite", "oracle", "dynamodb", "elasticsearch", "neo4j"]
  const CloudAndDevOps: seq<string> := [
    "aws", "azure", "gcp", "docker", "kubernetes", "terraform", "jenkins", "gitlab", "github", "cicd"]
  const DataScienceAndMl: seq<string> := [
    "tensorflow", "pytorch", "sklearn", "pandas", "numpy", "matplotlib", "seaborn", "jupyter", "keras", "opencv"]
  const ToolsAndFrameworks: seq<string> := [
    "git", "jira", "confluence", "slack", "figma", "postman", "webpack", "vite", "jest", "cypress"]

  /** `Object.values(SKILL_CATEGORIES).flat()`. */
  const AllSkills: seq<string> :=
    ProgrammingLanguages + WebTechnologies + Databases + CloudAndDevOps + DataScienceAndMl + ToolsAndFrameworks

  /** `words.some(word => word.includes(skill) || skill.includes(word))`. */
  function AnyWordRelated(words: seq<string>, skill: string): (b: bool)
    ensures b <==> exists w :: w in words && (Includes(w, skill) || Includes(skill, w))
  {
    if words == [] then false
    else
      var here := Includes(words[0], skill) || Includes(skill, words[0]);
      var later := AnyWordRelated(words[1..], skill);
      assert here ==> words[0] in words;
      assert later ==> exists w :: w in words && (Includes(w, skill) || Includes(skill, w)) by {
        if later {
          var w :| w in words[1..] && (Includes(w, skill) || Includes(skill, w));
          assert w in words;
        }
      }
      assert !here && !later ==> forall w :: w in words ==> !(Includes(w, skill) || Includes(skill, w)) by {
        assert words == [words[0]] + words[1..];
      }
      here || later
  }

  /** The two passes: by token, then by the lower-cased text. */
  datatype Rule = ByWord | ByText

  predicate Matches(rule: Rule, words: seq<string>, lower: string, skill: string)
  {
    match rule
    case ByWord => AnyWordRelated(words, skill)
    case ByText => Includes(lower, skill)
  }

  /** One `forEach` pass over `skills`, adding each matching skill to the
      insertion-ordered set `found`. */
  function AddMatching(found: seq<string>, skills: seq<string>, words: seq<string>, lower: string, rule: Rule)
    : (r: seq<string>)
    requires NoDuplicates(found)
    ensures NoDuplicates(r)
    ensures |found| <= |r| && r[..|found|] == found
    ensures forall s :: s in r <==> s in found || (s in skills && Matches(rule, words, lower, s))
    decreases |skills|
  {
    if skills == [] then found
    else
      var before := AddMatching(found, skills[..|skills| - 1], words, lower, rule);
      var last := skills[|skills| - 1];
      assert forall s :: s in skills <==> s in skills[..|skills| - 1] || s == last by {
        assert skills == skills[..|skills| - 1] + [last];
      }
      if Matches(rule, words, lower, last) && last !in before then before + [last] else before
  }

  /** The skills of `list` found by token, then those found only in the
      lower-cased text, each once. */
  function FoundSkills(words: seq<string>, lower: string, list: seq<string>): (skills: seq<string>)
    ensures NoDuplicates(skills)
    ensures forall s :: s in skills <==> s in list && (AnyWordRelated(words, s) || Includes(lower, s))
  {
    AddMatching(AddMatching([], list, words, lower, ByWord), list, words, lower, ByText)
  }

  /** `extractSkills(text)` as a value: FoundSkills over the skill list. */
  function SkillsIn(text: string): (skills: seq<string>)
    ensures NoDuplicates(skills)
    ensures forall s :: s in skills <==>
      s in AllSkills && (AnyWordRelated(Preprocess(text), s) || Includes(LowerText(text), s))
  {
    FoundSkills(Preprocess(text), LowerText(text), AllSkills)
  }

  /** One `allSkills.forEach` pass: each skill of `list` that matches by
      `rule` is added to the set `found`. */
  method AddMatchingPass(found: seq<string>, list: seq<string>, words: seq<string>, lower: string, rule: Rule)
    returns (r: seq<string>)
    requires NoDuplicates(found)
    ensures r == AddMatching(found, list, words, lower, rule)
  {
    r := found;
    for i := 0 to |list|
      invariant r == AddMatching(found, list[..i], words, lower, rule)
    {
      var skill := list[i];
      var matches := if rule == ByWord then AnyWordRelated(words, skill) else Includes(lower, skill);
      if matches && skill !in r {
        r := r + [skill];
      }
      assert list[..i + 1][..i] == list[..i];
    }
    assert list[..|list|] == list;
  }

  /** `extractSkills(text)` as written: a Set filled by a pass by token and
      a pass over the lower-cased text. */
  method ExtractSkills(text: string) returns (skills: seq<string>)
    ensures skills == SkillsIn(text)
    ensures NoDuplicates(skills)
    ensures forall s :: s in skills <==>
      s in AllSkills && (AnyWordRelated(Preprocess(text), s) || Includes(LowerText(text), s))
  {
    var words := Preprocess(text);
    var lower := LowerText(text);
    skills := AddMatchingPass([], AllSkills, words, lower, ByWord);
    skills := AddMatchingPass(skills, AllSkills, words, lower, ByText);
  }

  /** A skill of one letter is found for any token containing that
      letter, since a token that contains a skill counts as a match. */
  lemma OneLetterSkillMatchesAnyTokenWithIt(words: seq<string>, lower: string, list: seq<string>,
                                            w: string, c: char)
    requires [c] in list && w in words && c in w
    ensures [c] in FoundSkills(words, lower, list)
  {
    var i :| 0 <= i < |w| && w[i] == c;
    assert w[i..i + 1] == [c];
    assert OccursAt(w, [c], i);
    IncludesMeansOccurs(w, [c]);
  }

  lemma RIsListed()
    ensures "r" in AllSkills
  {
    assert ProgrammingLanguages[13] == "r";
  }

  /** "r" is one of the skills, so every token with an r in it brings it:
      "career" or "marketing" makes a text name the R language. */
  lemma {:induction false} TokenWithLetterRNamesR(text: string, w: string)
    requires w in Preprocess(text) && 'r' in w
    ensures "r" in SkillsIn(text)
  {
    RIsListed();
    OneLetterSkillMatchesAnyTokenWithIt(Preprocess(text), LowerText(text), AllSkills, w, 'r');
  }

  // ---------------------------------------------------------------------
  // calculateTFIDF

  /** How often t occurs in words. */
  function Count(words: seq<string>, t: string): nat
  {
    multiset(words)[t]
  }

  /** The distinct words in order of first occurrence: the key order of
      the frequency Map. */
  function Distinct(words: seq<string>): (d: seq<string>)
    ensures NoDuplicates(d)
    ensures forall t :: t in d <==> t in words
  {
    if words == [] then []
    else
      var init := words[..|words| - 1];
      var last := words[|words| - 1];
      assert forall t :: t in words <==> t in init || t == last by { assert words == init + [last]; }
      var d := Distinct(init);
      if last in d then d else d + [last]
  }

  lemma CountAppend(init: seq<string>, w: string, t: string)
    ensures Count(init + [w], t) == Count(init, t) + (if t == w then 1 else 0)
  {
    assert multiset(init + [w]) == multiset(init) + multiset{w};
  }

  /** The first pass of `calculateTFIDF`: the count of every word, and the
      distinct words in the order the Map receives them. */
  method CountWords(words: seq<string>) returns (counts: map<string, nat>, terms: seq<string>)
    ensures terms == Distinct(words)
    ensures forall t :: t in counts <==> t in words
    ensures forall t :: t in counts ==> counts[t] == Count(words, t)
  {
    counts, terms := map[], [];
    for i := 0 to |words|
      invariant terms == Distinct(words[..i])
      invariant forall t :: t in counts <==> t in words[..i]
      invariant forall t :: t in counts ==> counts[t] == Count(words[..i], t)
    {
      var w := words[i];
      ghost var prefix := words[..i];
      assert words[..i + 1] == prefix + [w];
      assert Distinct(prefix + [w]) == if w in Distinct(prefix) then Distinct(prefix) else Distinct(prefix) + [w] by {
        assert (prefix + [w])[..|prefix|] == prefix;
      }
      forall t ensures Count(prefix + [w], t) == Count(prefix, t) + (if t == w then 1 else 0) {
        CountAppend(prefix, w, t);
      }
      if w !in counts {
        terms := terms + [w];
      }
      counts := counts[w := (if w in counts then counts[w] else 0) + 1];
    }
    assert words[..|words|] == words;
  }

  /** `calculateTFIDF(words)`: each distinct word mapped to its share of
      the words (the "TF-IDF" is the term frequency alone). The counts are
      gathered in one pass, keys in first-occurrence order; a second pass
      divides by the number of words. */
  method CalculateTf(words: seq<string>) returns (tf: map<string, real>)
    ensures forall t :: t in tf <==> t in words
    ensures forall t :: t in tf ==> tf[t] == Count(words, t) as real / |words| as real
  {
    var counts, terms := CountWords(words);
    tf := map[];
    for j := 0 to |terms|
      invariant forall t :: t in tf <==> t in terms[..j]
      invariant forall t :: t in tf ==> tf[t] == Count(words, t) as real / |words| as real
    {
      var t := terms[j];
      assert terms[..j + 1] == terms[..j] + [t];
      tf := tf[t := counts[t] as real / |words| as real];
    }
    assert terms[..|terms|] == terms;
  }

  /** Sum of the counts of the words ts. */
  function SumCounts(ts: seq<string>, words: seq<string>): nat
  {
    if ts == [] then 0 else SumCounts(ts[..|ts| - 1], words) + Count(words, ts[|ts| - 1])
  }

  lemma {:induction false} SumCountsStep(ts: seq<string>, init: seq<string>, w: string)
    requires NoDuplicates(ts)
    ensures SumCounts(ts, init + [w]) == SumCounts(ts, init) + (if w in ts then 1 else 0)
  {
    if ts != [] {
      var front := ts[..|ts| - 1];
      SumCountsStep(front, init, w);
      assert ts == front + [ts[|ts| - 1]];
      assert w in ts <==> w in front || w == ts[|ts| - 1];
      assert ts[|ts| - 1] !in front;
    }
  }

  /** Every word is counted once under its distinct key. */
  lemma {:induction false} CountsAddUp(words: seq<string>)
    ensures SumCounts(Distinct(words), words) == |words|
  {
    if words != [] {
      var init := words[..|words| - 1];
      var w := words[|words| - 1];
      assert words == init + [w];
      CountsAddUp(init);
      var d := Distinct(init);
      SumCountsStep(d, init, w);
      if w !in d {
        assert Count(init, w) == 0;
        assert (d + [w])[..|d|] == d;
      }
    }
  }

  /** Sum of the values of m at the keys ts. */
  function SumAt(m: map<string, real>, ts: seq<string>): real
    requires forall t :: t in ts ==> t in m
  {
    if ts == [] then 0.0 else SumAt(m, ts[..|ts| - 1]) + m[ts[|ts| - 1]]
  }

  lemma SharesAdd(a: real, b: real, n: real)
    requires n > 0.0
    ensures a / n + b / n == (a + b) / n
  {
  }

  lemma WholeShare(n: real)
    requires n > 0.0
    ensures n / n == 1.0
  {
  }

  lemma {:induction false} SumOfShares(tf: map<string, real>, ts: seq<string>, words: seq<string>)
    requires |words| > 0
    requires forall t :: t in ts ==> t in tf && tf[t] == Count(words, t) as real / |words| as real
    ensures SumAt(tf, ts) == SumCounts(ts, words) as real / |words| as real
  {
    if ts != [] {
      var front := ts[..|ts| - 1];
      var last := ts[|ts| - 1];
      assert forall t :: t in front ==> t in ts;
      SumOfShares(tf, front, words);
      SharesAdd(SumCounts(front, words) as real, Count(words, last) as real, |words| as real);
    }
  }

  /** Over a non-empty word list the frequencies, taken once per distinct
      word, add up to 1. */
  lemma TermFrequenciesSumToOne(words: seq<string>, tf: map<string, real>)
    requires |words| > 0
    requires forall t :: t in tf <==> t in words
    requires forall t :: t in tf ==> tf[t] == Count(words, t) as real / |words| as real
    ensures SumAt(tf, Distinct(words)) == 1.0
  {
    var n := |words| as real;
    assert forall t :: t in Distinct(words) ==> t in tf;
    SumOfShares(tf, Distinct(words), words);
    CountsAddUp(words);
    assert SumCounts(Distinct(words), words) as real == n;
    WholeShare(n);
  }

  // ---------------------------------------------------------------------
  // matchResumeToJD

  datatype MatchResult = MatchResult(
    matchScore: int,
    matchedSkills: seq<string>,
    missingSkills: seq<string>,
    totalSkills: nat,
    resumeWordCount: nat,
    jdWordCount: nat)

  /** The description's skills split by whether the resume has them, each
      side in the description's order. */
  function Partition(skills: seq<string>, have: seq<string>): (r: (seq<string>, seq<string>))
    ensures r.0 == Filter(skills, (s: string) => s in have)
    ensures r.1 == Filter(skills, (s: string) => s !in have)
    ensures multiset(r.0) + multiset(r.1) == multiset(skills)
    ensures forall s :: (s in r.0 <==> s in skills && s in have) && (s in r.1 <==> s in skills && s !in have)
  {
    if skills == [] then ([], [])
    else
      var rest := Partition(skills[1..], have);
      assert skills == [skills[0]] + skills[1..];
      if skills[0] in have then ([skills[0]] + rest.0, rest.1) else (rest.0, [skills[0]] + rest.1)
  }

  /** The resume's tokens that also occur among the description's, with the
      resume's repeats. */
  function CommonWords(resumeWords: seq<string>, jdWords: seq<string>): (r: seq<string>)
    ensures forall w :: w in r <==> w in resumeWords && w in jdWords
    ensures |r| <= |resumeWords|
    ensures |r| == |resumeWords| <==> forall w :: w in resumeWords ==> w in jdWords
  {
    FilterKeepsAllIff(resumeWords, (w: string) => w in jdWords);
    Filter(resumeWords, (w: string) => w in jdWords)
  }

  /** The shared tokens keep the resume's order, each as often as the
      resume has it. */
  lemma {:induction false} CommonWordsKeepOrderAndRepeats(resumeWords: seq<string>, jdWords: seq<string>)
    ensures IsSubsequence(CommonWords(resumeWords, jdWords), resumeWords)
    ensures forall w ::
      multiset(CommonWords(resumeWords, jdWords))[w] == if w in jdWords then multiset(resumeWords)[w] else 0
  {
    FilterSelects(resumeWords, (w: string) => w in jdWords);
  }

  /** Share of the description's skills found in the resume, in percent; 0
      when the description names none. */
  function SkillsScore(matched: nat, total: nat): (p: real)
    requires matched <= total
    ensures total == 0 ==> p == 0.0
    ensures 0.0 <= p <= 100.0
    ensures total > 0 ==> (p == 100.0 <==> matched == total)
  {
    if total > 0 then matched as real / total as real * 100.0 else 0.0
  }

  /** Resume tokens found in the description per description token, in
      percent; the resume's repeats count, so it can pass 100. */
  function WordScore(resumeWords: seq<string>, jdWords: seq<string>): (p: real)
    ensures |jdWords| == 0 ==> p == 0.0
    ensures p >= 0.0
    ensures |jdWords| > 0 ==> p * |jdWords| as real == |CommonWords(resumeWords, jdWords)| as real * 100.0
  {
    if |jdWords| > 0 then |CommonWords(resumeWords, jdWords)| as real / |jdWords| as real * 100.0 else 0.0
  }

  lemma WordScoreCanExceedHundred()
    ensures WordScore(["python", "python", "python"], ["python"]) == 300.0
  {
    assert CommonWords(["python", "python", "python"], ["python"]) == ["python", "python", "python"] by {
      assert Filter(["python", "python", "python"], (w: string) => w in ["python"]) == ["python", "python", "python"];
    }
  }

  /** `Math.min(Math.round(skills * 0.7 + words * 0.3), 100)`. */
  function WeightedScore(skills: real, words: real): (r: int)
    requires skills >= 0.0 && words >= 0.0
    ensures 0 <= r <= 100
    ensures r == 100 <==> skills * 0.7 + words * 0.3 >= 99.5
    ensures r < 100 ==> r as real - 0.5 <= skills * 0.7 + words * 0.3 < r as real + 0.5
  {
    var rounded := RoundHalfUp(skills * 0.7 + words * 0.3);
    if rounded <= 100 then rounded else 100
  }

  /** The comparison at the heart of `matchResumeToJD`, from the two
      texts' tokens and skills: the description's skills split into those
      the resume has and those it lacks, and the weighted score. */
  function Compare(resumeWords: seq<string>, jdWords: seq<string>, resumeSkills: seq<string>, jdSkills: seq<string>)
    : (r: MatchResult)
    ensures forall s :: s in r.matchedSkills <==> s in jdSkills && s in resumeSkills
    ensures forall s :: s in r.missingSkills <==> s in jdSkills && s !in resumeSkills
    ensures multiset(r.matchedSkills) + multiset(r.missingSkills) == multiset(jdSkills)
    ensures r.totalSkills == |jdSkills| == |r.matchedSkills| + |r.missingSkills|
    ensures r.resumeWordCount == |resumeWords| && r.jdWordCount == |jdWords|
    ensures 0 <= r.matchScore <= 100
    ensures |jdSkills| == 0 && |jdWords| == 0 ==> r.matchScore == 0
    ensures r.matchScore ==
      WeightedScore(SkillsScore(|r.matchedSkills|, |jdSkills|), WordScore(resumeWords, jdWords))
  {
    var parts := Partition(jdSkills, resumeSkills);
    assert |parts.0| + |parts.1| == |jdSkills| by {
      assert |multiset(parts.0) + multiset(parts.1)| == |multiset(jdSkills)|;
    }
    var skillsScore := SkillsScore(|parts.0|, |jdSkills|);
    var wordScore := WordScore(resumeWords, jdWords);
    MatchResult(WeightedScore(skillsScore, wordScore), parts.0, parts.1, |jdSkills|, |resumeWords|, |jdWords|)
  }

  /** `matchResumeToJD(resumeText, jdText)`. The term-frequency maps the
      original computes are never read, so they are not computed here. */
  function MatchResumeToJD(resumeText: string, jdText: string): (r: MatchResult)
    ensures r == Compare(Preprocess(resumeText), Preprocess(jdText), SkillsIn(resumeText), SkillsIn(jdText))
    ensures forall s :: s in r.matchedSkills <==> s in SkillsIn(jdText) && s in SkillsIn(resumeText)
    ensures forall s :: s in r.missingSkills <==> s in SkillsIn(jdText) && s !in SkillsIn(resumeText)
    ensures r.totalSkills == |SkillsIn(jdText)| == |r.matchedSkills| + |r.missingSkills|
    ensures r.resumeWordCount == |Preprocess(resumeText)| && r.jdWordCount == |Preprocess(jdText)|
    ensures 0 <= r.matchScore <= 100
  {
    var resumeSkills, jdSkills := SkillsIn(resumeText), SkillsIn(jdText);
    Compare(Preprocess(resumeText), Preprocess(jdText), resumeSkills, jdSkills)
  }

  /** When every skill is had, none is missing. */
  lemma {:induction false} NothingMissing(skills: seq<string>, have: seq<string>)
    requires forall s :: s in skills ==> s in have
    ensures Partition(skills, have).1 == []
  {
    if skills != [] {
      assert forall s :: s in skills[1..] ==> s in skills;
      NothingMissing(skills[1..], have);
      assert skills[0] in skills;
    }
  }

  /** A text compared with itself scores 70 for its skills, if it names
      any, plus 30 for its words, if it has any. */
  lemma SelfMatchScore(words: seq<string>, skills: seq<string>)
    ensures Compare(words, words, skills, skills).matchScore ==
      (if |skills| > 0 then 70 else 0) + (if |words| > 0 then 30 else 0)
  {
    NothingMissing(skills, skills);
    var parts := Partition(skills, skills);
    assert |parts.0| == |skills| by {
      assert |multiset(parts.0) + multiset(parts.1)| == |multiset(skills)|;
    }
    var s := SkillsScore(|parts.0|, |skills|);
    assert s == if |skills| > 0 then 100.0 else 0.0;
    assert |CommonWords(words, words)| == |words|;
    var w := WordScore(words, words);
    if |words| > 0 {
      WholeShare(|words| as real);
    }
    assert w == if |words| > 0 then 100.0 else 0.0;
  }
}
