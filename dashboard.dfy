/**
 * The dashboard: a readiness score that blends the average progress over the
 * modules a user has started with a score from their points, the per-subject
 * bars of the chart, and the interview history, newest first.
 */
module Dashboard {
  import opened Wrappers
  import opened Text
  import opened Lists
  import opened Numeric
  import Auth
  import Learning

  /**
   * `moduleMax[id] || 30` with the dashboard's own table, which lists fewer
   * modules than the learning hub's: aptitude and grammar count out of 30 here.
   */
  function DashboardMax(id: string): (m: nat)
    ensures 0 < m <= 30
  {
    match id
    case "ai" => 23
    case "ml" => 23
    case _ => 30
  }

  /** A module's progress in whole percent, capped at 100. */
  function Percent(id: string, count: int): (p: int)
    ensures p <= 100 && (count >= 0 ==> p >= 0)
  {
    PercentOf(count, DashboardMax(id))
  }

  // ---------------------------------------------------------------- subject bars

  const Labels: seq<string> := ["DSA", "DBMS", "OS", "CN", "OOP", "AI/ML"]

  const NoScores: map<string, int> := map["DSA" := 0, "DBMS" := 0, "OS" := 0, "CN" := 0, "OOP" := 0, "AI/ML" := 0]

  /** The chart bar a module feeds, if any; AI and ML share one. */
  function Label(id: string): Option<string> {
    match id
    case "dsa" => Some("DSA")
    case "dbms" => Some("DBMS")
    case "os" => Some("OS")
    case "cn" => Some("CN")
    case "oop" => Some("OOP")
    case "ai" => Some("AI/ML")
    case "ml" => Some("AI/ML")
    case _ => None
  }

  predicate SharedBar(id: string) {
    id == "ai" || id == "ml"
  }

  predicate HasBars(s: map<string, int>) {
    forall l :: l in Labels ==> l in s
  }

  /** One module's effect on the bars: its own bar takes its percent; the shared bar keeps the larger. */
  function SubjectStep(s: map<string, int>, id: string, p: int): (r: map<string, int>)
    requires HasBars(s)
    ensures HasBars(r)
  {
    match Label(id)
    case None => s
    case Some(l) => s[l := if SharedBar(id) then Max(s[l], p) else p]
  }

  /** The bars after the entries of `cp`, in their order. */
  function SubjectsOf(cp: seq<(string, int)>): (s: map<string, int>)
    ensures HasBars(s)
    decreases |cp|
  {
    if cp == [] then NoScores
    else
      var last := cp[|cp| - 1];
      SubjectStep(SubjectsOf(cp[..|cp| - 1]), last.0, Percent(last.0, last.1))
  }

  /** The sum of the module percents. */
  function SumPercents(cp: seq<(string, int)>): int
    decreases |cp|
  {
    if cp == [] then 0 else SumPercents(cp[..|cp| - 1]) + Percent(cp[|cp| - 1].0, cp[|cp| - 1].1)
  }

  predicate Counts(cp: seq<(string, int)>) {
    forall i :: 0 <= i < |cp| ==> cp[i].1 >= 0
  }

  /** The loop over `courseProgress`: every entry counts, known module or not. */
  method CourseTally(cp: seq<(string, int)>) returns (totalProgress: int, totalModules: nat, subjectScores: map<string, int>)
    ensures totalProgress == SumPercents(cp) && totalModules == |cp|
    ensures subjectScores == SubjectsOf(cp)
  {
    totalProgress, totalModules := 0, 0;
    subjectScores := NoScores;
    for i := 0 to |cp|
      invariant totalProgress == SumPercents(cp[..i]) && totalModules == i
      invariant subjectScores == SubjectsOf(cp[..i])
    {
      assert cp[..i + 1][..i] == cp[..i];
      var (modId, count) := cp[i];
      var percent := Percent(modId, count);
      totalProgress := totalProgress + percent;
      totalModules := totalModules + 1;
      if modId == "dsa" { subjectScores := subjectScores["DSA" := percent]; }
      if modId == "dbms" { subjectScores := subjectScores["DBMS" := percent]; }
      if modId == "os" { subjectScores := subjectScores["OS" := percent]; }
      if modId == "cn" { subjectScores := subjectScores["CN" := percent]; }
      if modId == "oop" { subjectScores := subjectScores["OOP" := percent]; }
      if modId == "ai" || modId == "ml" { subjectScores := subjectScores["AI/ML" := Max(subjectScores["AI/ML"], percent)]; }
    }
    assert cp[..|cp|] == cp;
  }

  /** With non-negative counts each module adds between 0 and 100. */
  lemma {:induction false} SumBounded(cp: seq<(string, int)>)
    requires Counts(cp)
    ensures 0 <= SumPercents(cp) <= 100 * |cp|
    decreases |cp|
  {
    if cp != [] {
      SumBounded(cp[..|cp| - 1]);
    }
  }

  /** With non-negative counts every bar is between 0 and 100. */
  lemma {:induction false} BarsBounded(cp: seq<(string, int)>)
    requires Counts(cp)
    ensures forall l :: l in Labels ==> 0 <= SubjectsOf(cp)[l] <= 100
    decreases |cp|
  {
    if cp != [] {
      BarsBounded(cp[..|cp| - 1]);
    }
  }

  /**
   * The AI/ML bar is the largest percent of the AI and ML entries: none is
   * above it, and it is one of them unless it is 0.
   */
  lemma {:induction false} SharedBarIsMax(cp: seq<(string, int)>)
    ensures forall i :: 0 <= i < |cp| && SharedBar(cp[i].0) ==> Percent(cp[i].0, cp[i].1) <= SubjectsOf(cp)["AI/ML"]
    ensures SubjectsOf(cp)["AI/ML"] == 0
            || exists i :: 0 <= i < |cp| && SharedBar(cp[i].0) && Percent(cp[i].0, cp[i].1) == SubjectsOf(cp)["AI/ML"]
    decreases |cp|
  {
    if cp != [] {
      var n := |cp| - 1;
      SharedBarIsMax(cp[..n]);
      assert forall i :: 0 <= i < n ==> cp[..n][i] == cp[i];
    }
  }

  /**
   * Appending an entry to the counts: a module already listed keeps its count
   * (the first entry wins), a new module gets the appended count, and any
   * other module still has none.
   */
  lemma {:induction false} WatchedAppend(cp: seq<(string, int)>, e: (string, int), id: string)
    ensures Learning.Watched(cp + [e], id) ==
            if id in Learning.ModuleIds(cp) then Learning.Watched(cp, id) else if e.0 == id then e.1 else 0
    decreases |cp|
  {
    if cp != [] {
      assert (cp + [e])[1..] == cp[1..] + [e];
      assert Learning.ModuleIds(cp) == [cp[0].0] + Learning.ModuleIds(cp[1..]);
      WatchedAppend(cp[1..], e, id);
    }
  }

  /**
   * With each module listed once, a module's own bar shows its percent for
   * the videos watched in it, and 0 when it was never opened.
   */
  lemma {:induction false} OwnBar(cp: seq<(string, int)>, id: string)
    requires Distinct(Learning.ModuleIds(cp))
    requires Label(id).Some? && !SharedBar(id)
    ensures SubjectsOf(cp)[Label(id).value] == if id in Learning.ModuleIds(cp) then Percent(id, Learning.Watched(cp, id)) else 0
    decreases |cp|
  {
    if cp != [] {
      var n := |cp| - 1;
      var ids := Learning.ModuleIds(cp);
      DistinctLast(ids);
      assert Learning.ModuleIds(cp[..n]) == ids[..n];
      OwnBar(cp[..n], id);
      assert cp == cp[..n] + [cp[n]];
      WatchedAppend(cp[..n], cp[n], id);
      assert ids == ids[..n] + [cp[n].0];
    }
  }

  /** Dropping the last of distinct elements keeps them distinct, and the last is not among the rest. */
  lemma DistinctLast<T>(xs: seq<T>)
    requires Distinct(xs) && xs != []
    ensures Distinct(xs[..|xs| - 1]) && xs[|xs| - 1] !in xs[..|xs| - 1]
  {
    var n := |xs| - 1;
    assert forall k :: 0 <= k < n ==> xs[..n][k] == xs[k];
  }

  // ---------------------------------------------------------------- readiness

  /** `Math.min(100, Math.floor(totalScore / 50))`. */
  function XpScore(totalScore: int): (x: int)
    ensures x <= 100 && (totalScore >= 0 ==> x >= 0)
    ensures totalScore >= 5000 ==> x == 100
  {
    Min(100, (totalScore as real / 50.0).Floor)
  }

  /** The average module percent, 0 without modules. */
  function Average(cp: seq<(string, int)>): real {
    if |cp| > 0 then SumPercents(cp) as real / |cp| as real else 0.0
  }

  /** `Math.round(avg * 0.6 + xpScore * 0.4)`, and 0 when nobody is signed in. */
  function ReadinessOf(userData: Option<Auth.Progress>): int {
    match userData
    case None => 0
    case Some(p) =>
      var cp := p.courseProgress.GetOr([]);
      Round(Average(cp) * 0.6 + XpScore(p.totalScore) as real * 0.4)
  }

  datatype View = View(readiness: int, subjects: map<string, int>)

  /** `initDashboard()`'s arithmetic: the readiness score and the chart's bars. */
  method Readiness(userData: Option<Auth.Progress>) returns (v: View)
    ensures v.readiness == ReadinessOf(userData)
    ensures v.subjects == if userData.Some? then SubjectsOf(userData.value.courseProgress.GetOr([])) else NoScores
  {
    var readinessScore := 0;
    var totalProgress, totalModules, subjectScores := 0, 0, NoScores;
    if userData.Some? {
      var p := userData.value;
      if p.courseProgress.Some? {
        totalProgress, totalModules, subjectScores := CourseTally(p.courseProgress.value);
      }
      var xpScore := XpScore(p.totalScore);
      var avgCourseProgress := if totalModules > 0 then totalProgress as real / totalModules as real else 0.0;
      readinessScore := Round(avgCourseProgress * 0.6 + xpScore as real * 0.4);
    }
    return View(readinessScore, subjectScores);
  }

  /**
   * With non-negative counts and points the readiness is a percentage, and a
   * user who has just signed in starts at 0.
   */
  lemma ReadinessBounded(p: Auth.Progress)
    requires Counts(p.courseProgress.GetOr([])) && p.totalScore >= 0
    ensures 0 <= ReadinessOf(Some(p)) <= 100
    ensures ReadinessOf(Some(Auth.Initial("now"))) == 0
  {
    var cp := p.courseProgress.GetOr([]);
    SumBounded(cp);
    if |cp| > 0 {
      AverageBounds(SumPercents(cp) as real, |cp| as real);
    }
    RoundInt(0);
    RoundInt(100);
    RoundMonotone(0.0, Average(cp) * 0.6 + XpScore(p.totalScore) as real * 0.4);
    RoundMonotone(Average(cp) * 0.6 + XpScore(p.totalScore) as real * 0.4, 100.0);
  }

  /** Every started module complete, at least one of them, and 5000 points: fully ready. */
  lemma FullReadiness(p: Auth.Progress)
    requires p.courseProgress.Some? && |p.courseProgress.value| > 0
    requires forall i :: 0 <= i < |p.courseProgress.value| ==> Percent(p.courseProgress.value[i].0, p.courseProgress.value[i].1) == 100
    requires p.totalScore >= 5000
    ensures ReadinessOf(Some(p)) == 100
  {
    var cp := p.courseProgress.value;
    AllComplete(cp);
    FullAverage(SumPercents(cp) as real, |cp| as real);
    RoundInt(100);
  }

  /** A total of at most 100 per module averages to at most 100. */
  lemma AverageBounds(total: real, n: real)
    requires n > 0.0 && 0.0 <= total <= 100.0 * n
    ensures 0.0 <= total / n <= 100.0
  {
    var q := total / n;
    assert q * n == total;
  }

  lemma FullAverage(total: real, n: real)
    requires n > 0.0 && total == 100.0 * n
    ensures total / n == 100.0
  {
  }

  lemma {:induction false} AllComplete(cp: seq<(string, int)>)
    requires forall i :: 0 <= i < |cp| ==> Percent(cp[i].0, cp[i].1) == 100
    ensures SumPercents(cp) == 100 * |cp|
    decreases |cp|
  {
    if cp != [] {
      AllComplete(cp[..|cp| - 1]);
    }
  }

  // ---------------------------------------------------------------- history

  /** `success` above 70, `warning` above 40, else `error`. */
  function Status(score: int): (s: string)
    ensures s == "success" <==> score > 70
    ensures s == "warning" <==> 40 < score <= 70
    ensures s == "error" <==> score <= 40
  {
    if score > 70 then "success" else if score > 40 then "warning" else "error"
  }

  datatype Row = Row(date: string, title: string, kind: string, result: string, status: string)

  const InterviewSuffix := " Interview"

  /** One interview's row: the company in capitals, the score as a percentage, its status. */
  function RowOf(i: Auth.Interview): Row {
    Row(i.date, ToUpper(i.company) + InterviewSuffix, "Interview", IntToString(i.score) + "%", Status(i.score))
  }

  /** The history table: one row per interview, the newest first. */
  function History(interviews: seq<Auth.Interview>): seq<Row> {
    MapReversed(interviews, RowOf)
  }

  /** Row `i` shows the `i`-th most recent interview, so there is one row per interview. */
  lemma HistoryOrder(interviews: seq<Auth.Interview>)
    ensures |History(interviews)| == |interviews|
    ensures forall i :: 0 <= i < |interviews| ==> History(interviews)[i] == RowOf(interviews[|interviews| - 1 - i])
  {
    MapReversedAt(interviews, RowOf);
  }

  /** The interview just recorded heads the table, above all earlier ones in the same order. */
  lemma HistoryNewestFirst(interviews: seq<Auth.Interview>, latest: Auth.Interview)
    ensures History(interviews + [latest]) == [RowOf(latest)] + History(interviews)
  {
    assert (interviews + [latest])[..|interviews|] == interviews;
  }
}
