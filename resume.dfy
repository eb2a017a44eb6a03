/**
 * The rule-based resume analysis the backend falls back on when no AI key is
 * configured: the job description's keywords found and missing in the resume,
 * an impact score from numbers and action verbs, a brevity score from line
 * lengths, the resume sections present, and the blended match score.
 */
module Resume {
  import opened Text
  import opened Lists
  import opened Numeric

  const StopWords: seq<string> := ["and", "the", "in", "of", "to", "for", "a", "with", "as", "on", "is", "are", "this", "that"]

  const ImpactKeywords: seq<string> := ["increased", "reduced", "improved", "optimized", "led", "managed", "created", "designed", "implemented"]

  const Sections: seq<string> := ["experience", "education", "skills", "projects", "summary", "objective", "certifications"]

  const ExcellentSummary := "Excellent match! " + "Your resume is well-tailored to this job description with strong keywords and impact."
  const GoodSummary := "Good start, " + "but you can improve your storage by adding more specific keywords from the JD and quantifying your impact."
  const WeakSummary := "Your resume needs " + "significant tailoring. Focus on including the missing keywords and highlighting relevant experience."

  const GreatImpact := "Great use of numbers and action verbs."
  const WeakImpact := "Needs more quantification (numbers/metrics)."
  const Concise := "Concise and well-structured."
  const TooLong := "Consider shortening some sections."

  datatype Improvement = Improvement(original: string, improved: string, reason: string)

  const QuantifyTip := Improvement(
    "General feedback",
    "Try to quantify your achievements more. Use numbers (e.g., 'Increased revenue by 20%').",
    "Quantifiable metrics stand out to recruiters.")

  datatype ImpactCheck = ImpactCheck(score: int, feedback: string, examples: seq<string>)

  datatype BrevityStyle = BrevityStyle(score: int, feedback: string, issues: seq<string>)

  datatype Keywords = Keywords(missing: seq<string>, present: seq<string>)

  datatype AtsCompatibility = AtsCompatibility(score: int, issues: seq<string>)

  /** The object `analyzeResumeRuleBased` returns. */
  datatype Analysis = Analysis(
    matchScore: int,
    summary: string,
    impact: ImpactCheck,
    brevity: BrevityStyle,
    keywords: Keywords,
    ats: AtsCompatibility,
    improvements: seq<Improvement>)

  // ---------------------------------------------------------------- keywords

  /** `text.match(/\b\w+\b/g) || []`. */
  function Words(text: string): seq<string> {
    Runs(text, IsWordChar)
  }

  predicate Meaningful(w: string) {
    |w| > 3 && w !in StopWords
  }

  /**
   * `meaningfulJdKeywords`: the words of the lower-cased job description that
   * are longer than three characters and not stop words, each once, in the
   * order they first appear.
   */
  function JdKeywords(jdText: string): (ks: seq<string>)
    ensures Distinct(ks)
    ensures forall w :: w in ks <==> w in Words(ToLower(jdText)) && Meaningful(w)
  {
    Dedup(Filter(Words(ToLower(jdText)), Meaningful))
  }

  /** The keywords the lower-cased resume contains, and those it does not. */
  function Present(rText: string, ks: seq<string>): seq<string> {
    Filter(ks, w => Contains(rText, w))
  }

  function Absent(rText: string, ks: seq<string>): seq<string> {
    Filter(ks, w => !Contains(rText, w))
  }

  /** `Math.min(100, (present / Math.max(1, all)) * 100)`. */
  function KeywordScore(present: nat, all: nat): (r: real)
    ensures 0.0 <= r <= 100.0
  {
    var s := (present as real / Max(1, all) as real) * 100.0;
    if s <= 100.0 then s else 100.0
  }

  // ---------------------------------------------------------------- impact

  /** `resumeText.match(/\d+/g) || []`. */
  function Numbers(text: string): seq<string> {
    Runs(text, IsAsciiDigit)
  }

  function Verbs(rText: string): seq<string> {
    Filter(ImpactKeywords, w => Contains(rText, w))
  }

  /** Two points per number and five per action verb, capped at 100. */
  function ImpactScore(numbers: nat, verbs: nat): (r: int)
    ensures 0 <= r <= 100
    ensures r == 100 <==> 2 * numbers + 5 * verbs >= 100
    ensures r < 100 ==> r == 2 * numbers + 5 * verbs
  {
    Min(100, numbers * 2 + verbs * 5)
  }

  // ---------------------------------------------------------------- brevity

  /** `resumeText.split('\n').filter(l => l.trim().length > 0)`. */
  function Lines(text: string): seq<string> {
    Filter(Split(text, '\n'), l => JsTrim(l) != "")
  }

  function TotalLength(ls: seq<string>): nat
    decreases |ls|
  {
    if ls == [] then 0 else TotalLength(ls[..|ls| - 1]) + |ls[|ls| - 1]|
  }

  /** 60 when the average line is over 150 characters or there are over 500 lines, else 90. */
  function BrevityScore(ls: seq<string>): (r: int)
    ensures r == 60 || r == 90
    ensures |ls| > 500 ==> r == 60
    ensures r == 60 <==> TotalLength(ls) > 150 * Max(1, |ls|) || |ls| > 500
  {
    var avg := TotalLength(ls) as real / Max(1, |ls|) as real;
    AverageOver(TotalLength(ls), Max(1, |ls|));
    if avg > 150.0 || |ls| > 500 then 60 else 90
  }

  /** An average over 150 is a total over 150 per line. */
  lemma AverageOver(total: nat, n: nat)
    requires n > 0
    ensures total as real / n as real > 150.0 <==> total > 150 * n
  {
    QuotientAbove(total as real, n as real, 150.0);
    assert (150 * n) as real == 150.0 * n as real;
  }

  lemma QuotientAbove(x: real, y: real, c: real)
    requires y > 0.0
    ensures x / y > c <==> x > c * y
  {
  }

  function LongLineIssue(l: string): string
    requires |l| > 200
  {
    "Long sentence found: \"" + l[..40] + "...\""
  }

  predicate LongLine(l: string) {
    |l| > 200
  }

  /** The lines over 200 characters, in order. */
  function LongLines(ls: seq<string>): seq<string> {
    Filter(ls, LongLine)
  }

  /**
   * At most two issues, one for each of the first long lines, in order; when
   * there are at most two long lines, every one of them has its issue.
   */
  function LongLineIssues(ls: seq<string>): (r: seq<string>)
    ensures |r| == Min(2, |LongLines(ls)|)
    ensures forall i :: 0 <= i < |r| ==> r[i] == LongLineIssue(LongLines(ls)[i])
    ensures forall i :: 0 <= i < |r| ==> exists l :: l in ls && |l| > 200 && r[i] == LongLineIssue(l)
    ensures |LongLines(ls)| <= 2 ==> forall l :: l in ls && |l| > 200 ==> LongLineIssue(l) in r
  {
    var long := Take(LongLines(ls), 2);
    var r := seq(|long|, i requires 0 <= i < |long| => LongLineIssue(long[i]));
    assert forall i :: 0 <= i < |r| ==> LongLines(ls)[i] in ls;
    assert |LongLines(ls)| <= 2 ==> forall l :: l in ls && |l| > 200 ==> LongLineIssue(l) in r by {
      if |LongLines(ls)| <= 2 {
        forall l | l in ls && |l| > 200
          ensures LongLineIssue(l) in r
        {
          assert l in LongLines(ls);
          var i :| 0 <= i < |long| && long[i] == l;
          assert r[i] == LongLineIssue(l);
        }
      }
    }
    r
  }

  // ---------------------------------------------------------------- sections

  function PresentSections(rText: string): seq<string> {
    Filter(Sections, s => Contains(rText, s))
  }

  /** One "Missing section" issue per section the resume does not contain. */
  function SectionIssues(rText: string): (r: seq<string>)
    ensures |PresentSections(rText)| + |r| == |Sections|
    ensures forall s :: s in Sections && !Contains(rText, s) ==> "Missing section: " + s in r
  {
    var absent := Filter(Sections, s => !Contains(rText, s));
    FilterPartition(Sections, s => Contains(rText, s), s => !Contains(rText, s));
    var r := seq(|absent|, i requires 0 <= i < |absent| => "Missing section: " + absent[i]);
    assert forall i :: 0 <= i < |absent| ==> r[i] == "Missing section: " + absent[i];
    r
  }

  /**
   * `impactKeywords.filter(...).slice(0, 3)`: the first three action verbs the
   * resume uses, in the list's order; all of them when it uses at most three.
   */
  function Examples(rText: string): (r: seq<string>)
    ensures |r| == Min(3, |Verbs(rText)|) && r == Verbs(rText)[..|r|]
    ensures forall w :: w in r ==> w in ImpactKeywords && Contains(rText, w)
    ensures |Verbs(rText)| <= 3 ==> forall w :: w in ImpactKeywords && Contains(rText, w) ==> w in r
  {
    TakeMembers(Verbs(rText), 3);
    Take(Verbs(rText), 3)
  }

  /**
   * `missingKeywords`: the first ten keywords the resume lacks, in the job
   * description's order; all of them when at most ten are missing.
   */
  function MissingReport(rText: string, ks: seq<string>): (r: seq<string>)
    ensures |r| == Min(10, |Absent(rText, ks)|) && r == Absent(rText, ks)[..|r|]
    ensures forall w :: w in r ==> w in ks && !Contains(rText, w)
    ensures |Absent(rText, ks)| <= 10 ==> forall w :: w in ks && !Contains(rText, w) ==> w in r
  {
    TakeMembers(Absent(rText, ks), 10);
    Take(Absent(rText, ks), 10)
  }

  /**
   * `presentKeywords.slice(0, 5)`: the first five keywords the resume has, in
   * the job description's order; all of them when it has at most five.
   */
  function PresentReport(rText: string, ks: seq<string>): (r: seq<string>)
    ensures |r| == Min(5, |Present(rText, ks)|) && r == Present(rText, ks)[..|r|]
    ensures forall w :: w in r ==> w in ks && Contains(rText, w)
    ensures |Present(rText, ks)| <= 5 ==> forall w :: w in ks && Contains(rText, w) ==> w in r
  {
    TakeMembers(Present(rText, ks), 5);
    Take(Present(rText, ks), 5)
  }

  // ---------------------------------------------------------------- the blend

  /**
   * `Math.round(keyword·0.45 + impact·0.35 + brevity·0.20)`, then ten more
   * points when that is under 60 and more than three sections were found.
   */
  function MatchScore(keyword: real, impact: int, brevity: int, sectionsFound: nat): int {
    var base := Round(keyword * 0.45 + impact as real * 0.35 + brevity as real * 0.20);
    if base < 60 && sectionsFound > 3 then base + 10 else base
  }

  /** The summary line: over 80 is excellent, over 50 a good start, anything else weak. */
  function Summary(matchScore: int): (r: string)
    ensures r == ExcellentSummary <==> matchScore > 80
    ensures r == GoodSummary <==> 50 < matchScore <= 80
    ensures r == WeakSummary <==> matchScore <= 50
  {
    assert ExcellentSummary[0] == 'E' && GoodSummary[0] == 'G' && WeakSummary[0] == 'Y';
    if matchScore > 80 then ExcellentSummary
    else if matchScore > 50 then GoodSummary
    else WeakSummary
  }

  /**
   * `impact_check`: the score, praise exactly when it is over 60, and up to
   * three of the action verbs used.
   */
  function Impact(resumeText: string): (c: ImpactCheck)
    ensures 0 <= c.score <= 100
    ensures c.score == ImpactScore(|Numbers(resumeText)|, |Verbs(ToLower(resumeText))|)
    ensures c.feedback == GreatImpact <==> c.score > 60
    ensures c.feedback == WeakImpact <==> c.score <= 60
    ensures |c.examples| == Min(3, |Verbs(ToLower(resumeText))|)
    ensures c.examples == Examples(ToLower(resumeText))
    ensures forall w :: w in c.examples ==> w in ImpactKeywords && Contains(ToLower(resumeText), w)
  {
    var impact := ImpactScore(|Numbers(resumeText)|, |Verbs(ToLower(resumeText))|);
    RoundInt(impact);
    FeedbacksDiffer();
    ImpactCheck(Round(impact as real), if impact > 60 then GreatImpact else WeakImpact, Examples(ToLower(resumeText)))
  }

  lemma FeedbacksDiffer()
    ensures GreatImpact != WeakImpact && Concise != TooLong
  {
    assert GreatImpact[0] == 'G' && WeakImpact[0] == 'N';
    assert Concise[3] == 'c' && TooLong[3] == 's';
  }

  /**
   * `brevity_style`: the score, praise exactly when it is 90, and an issue
   * for each of the first two long lines.
   */
  function Brevity(resumeText: string): (b: BrevityStyle)
    ensures b.score == 60 || b.score == 90
    ensures b.score == 60 <==> TotalLength(Lines(resumeText)) > 150 * Max(1, |Lines(resumeText)|) || |Lines(resumeText)| > 500
    ensures b.feedback == Concise <==> b.score == 90
    ensures b.feedback == TooLong <==> b.score == 60
    ensures |b.issues| == Min(2, |LongLines(Lines(resumeText))|)
    ensures b.issues == LongLineIssues(Lines(resumeText))
  {
    var score := BrevityScore(Lines(resumeText));
    FeedbacksDiffer();
    BrevityStyle(score, if score > 80 then Concise else TooLong, LongLineIssues(Lines(resumeText)))
  }

  /** `keywords`: the first ten missing and five present job-description keywords, all of them when there are no more. */
  function KeywordReport(rText: string, ks: seq<string>): (k: Keywords)
    ensures |k.missing| == Min(10, |Absent(rText, ks)|) && |k.present| == Min(5, |Present(rText, ks)|)
    ensures forall w :: w in k.missing ==> w in ks && !Contains(rText, w)
    ensures forall w :: w in k.present ==> w in ks && Contains(rText, w)
    ensures |Absent(rText, ks)| <= 10 ==> forall w :: w in ks && !Contains(rText, w) ==> w in k.missing
    ensures |Present(rText, ks)| <= 5 ==> forall w :: w in ks && Contains(rText, w) ==> w in k.present
  {
    Keywords(MissingReport(rText, ks), PresentReport(rText, ks))
  }

  /** `ats_compatibility`: fifteen points per section found, an issue per section missing. */
  function Ats(rText: string): (a: AtsCompatibility)
    ensures a.score == 15 * |PresentSections(rText)|
    ensures a.score + 15 * |a.issues| == 15 * |Sections|
  {
    AtsCompatibility(|PresentSections(rText)| * 15, SectionIssues(rText))
  }

  /**
   * `analyzeResumeRuleBased(resumeText, jdText)`: the match score stays
   * between 12 and 98 and the summary follows it; the quantification tip is
   * given exactly when fewer than three numbers appear.
   */
  function Analyze(resumeText: string, jdText: string): (a: Analysis)
    ensures 12 <= a.matchScore <= 98
    ensures |a.improvements| == 1 <==> |Numbers(resumeText)| < 3
  {
    var rText := ToLower(resumeText);
    var ks := JdKeywords(jdText);
    var impact := Impact(resumeText);
    var brevity := Brevity(resumeText);
    var keyword := KeywordScore(|Present(rText, ks)|, |ks|);
    var found := |PresentSections(rText)|;
    var score := MatchScore(keyword, impact.score, brevity.score, found);
    MatchScoreBounded(keyword, impact.score, brevity.score, found);
    Analysis(
      score,
      Summary(score),
      impact,
      brevity,
      KeywordReport(rText, ks),
      Ats(rText),
      if |Numbers(resumeText)| < 3 then [QuantifyTip] else [])
  }

  // ---------------------------------------------------------------- properties

  /**
   * Every meaningful keyword of the job description is either present in the
   * resume or missing from it, never both; the report lists the first ten
   * missing ones and the first five present ones.
   */
  lemma KeywordsPartitioned(rText: string, ks: seq<string>)
    requires Distinct(ks)
    ensures forall w :: w in ks ==> (w in Present(rText, ks) <==> w !in Absent(rText, ks))
    ensures |Present(rText, ks)| + |Absent(rText, ks)| == |ks|
    ensures Distinct(Present(rText, ks)) && Distinct(Absent(rText, ks))
  {
    FilterPartition(ks, w => Contains(rText, w), w => !Contains(rText, w));
    FilterDistinct(ks, w => Contains(rText, w));
    FilterDistinct(ks, w => !Contains(rText, w));
  }

  /** A keyword is a word of the job description: word characters only, no capitals. */
  lemma KeywordsAreWords(jdText: string, w: string)
    requires w in JdKeywords(jdText)
    ensures |w| > 3 && w !in StopWords && AllChars(w, IsWordChar)
    ensures forall i :: 0 <= i < |w| ==> !('A' <= w[i] <= 'Z')
  {
    var words := Words(ToLower(jdText));
    var k :| 0 <= k < |words| && words[k] == w;
    RunsInText(ToLower(jdText), IsWordChar, k);
    var j :| OccursAt(ToLower(jdText), w, j);
    forall i | 0 <= i < |w|
      ensures !('A' <= w[i] <= 'Z')
    {
      assert w[i] == ToLower(jdText)[j + i];
    }
  }

  /** Each run stands somewhere in the text. */
  lemma {:induction false} RunsInText(s: string, p: char -> bool, k: nat)
    requires k < |Runs(s, p)|
    ensures exists j :: OccursAt(s, Runs(s, p)[k], j)
    decreases |s|
  {
    var w := Runs(s, p)[k];
    if !p(s[0]) {
      assert w == Runs(s[1..], p)[k];
      RunsInText(s[1..], p, k);
      var j :| OccursAt(s[1..], w, j);
      OccursInSuffix(s, 1, w, j);
    } else {
      var n := RunLength(s, p);
      if k == 0 {
        assert OccursAt(s, w, 0);
      } else {
        assert w == Runs(s[n..], p)[k - 1];
        RunsInText(s[n..], p, k - 1);
        var j :| OccursAt(s[n..], w, j);
        OccursInSuffix(s, n, w, j);
      }
    }
  }

  /** What stands in a suffix stands in the whole text, further along. */
  lemma OccursInSuffix(s: string, n: nat, w: string, j: int)
    requires n <= |s| && OccursAt(s[n..], w, j)
    ensures OccursAt(s, w, j + n)
  {
    assert s[n..][j..j + |w|] == s[j + n..j + n + |w|];
  }

  /** The keyword score is 100 exactly when there are keywords and none is missing. */
  lemma KeywordScoreFull(present: nat, all: nat)
    requires present <= all
    ensures 0.0 <= KeywordScore(present, all) <= 100.0
    ensures KeywordScore(present, all) == 100.0 <==> 0 < all && present == all
  {
    var d := Max(1, all) as real;
    assert (present as real / d) * d == present as real;
    if present < all {
      assert present as real / d < 1.0;
    }
  }

  /**
   * The match score lies between 12 and 98: the blend of three scores capped at
   * 100, 100 and 90 never reaches 100, and the boost only lifts scores under 60.
   */
  lemma MatchScoreBounded(keyword: real, impact: int, brevity: int, sectionsFound: nat)
    requires 0.0 <= keyword <= 100.0 && 0 <= impact <= 100 && (brevity == 60 || brevity == 90)
    ensures 12 <= MatchScore(keyword, impact, brevity, sectionsFound) <= 98
  {
    var x := keyword * 0.45 + impact as real * 0.35 + brevity as real * 0.20;
    RoundMonotone(12.0, x);
    RoundMonotone(x, 98.0);
    RoundInt(12);
    RoundInt(98);
  }

  /**
   * The section boost is not monotone: with four sections found, a keyword score
   * of 57 ends at 69 while a higher one of 60 ends at 60.
   */
  lemma BoostOvertakes()
    ensures MatchScore(57.0, 60, 60, 4) == 69
    ensures MatchScore(60.0, 60, 60, 4) == 60
  {
    assert 57.0 * 0.45 + 60.0 * 0.35 + 60.0 * 0.20 == 58.65;
    assert 60.0 * 0.45 + 60.0 * 0.35 + 60.0 * 0.20 == 60.0;
    RoundInt(60);
  }
}
