/**
 * The `/api/submit-code` handler: look the problem up in the catalog, decide
 * whether the code is graded live, find the function to call, run every test
 * case through the sandbox in catalog order, compare with `isEqual`, and
 * report counts and feedback.
 *
 * The sandbox (`runJSCode` on a fresh VM) is a parameter: a function from the
 * code, the function name and the arguments to what the call came back with.
 */
module Judge {
  import opened Wrappers
  import opened Text
  import opened Json
  import opened Catalog

  /** What one sandboxed call comes back with. */
  datatype Outcome =
    | Returned(value: Value)
      /** The call, or the VM around it, raised an error; `message` is what `${err.message}` renders. */
    | Threw(message: string)
      /**
       * The call returned something `JSON.stringify` raises an error on (a
       * BigInt, a cycle); `message` is that error's message.
       */
    | Unserializable(message: string)

  type Sandbox = (string, string, seq<Value>) -> Outcome

  /**
   * One entry of `results`. The source stores the three values already passed
   * through `JSON.stringify`; they are only ever printed, so here they are kept
   * as values and written out by `CaseLine`.
   */
  datatype CaseResult = CaseResult(input: Value, expected: Value, actual: Value, passed: bool)

  datatype Analysis = Analysis(isCorrect: bool, passed: nat, total: nat, timeComplexity: string, feedback: string)

  /** What the test-case loop leaves behind: its results, how many passed, and the error that ended it early. */
  datatype Run = Run(results: seq<CaseResult>, passed: nat, error: Option<string>)

  // ---------------------------------------------------------------- fixed texts

  const UnknownProblem := Analysis(true, 5, 5, "N/A",
    "Note: Real execution not available for this problem yet. Code accepted based on syntax check.")

  const NoFunctionName := "Execution Error: Could not detect function name."

  const AllPassed := "Excellent! All test cases passed."

  const DetailsHeader := "\n\n**Test Case Details:**\n"

  function FailedCount(failed: nat): string {
    "Failed " + NatToString(failed) + " test cases. Check the details below."
  }

  /** `${language}` for the language field, absent or given. */
  function LanguageText(language: Option<string>): string {
    language.GetOr("undefined")
  }

  function UpgradeMessage(language: Option<string>): string {
    "Real-time execution for " + LanguageText(language)
    + " is currently being upgraded. Please use JavaScript for live test case checking."
  }

  // ---------------------------------------------------------------- the language gate

  /** A language field that JavaScript treats as false: absent or empty. */
  predicate Falsy(language: Option<string>) {
    language.None? || language.value == ""
  }

  /** Graded live: declared JavaScript, or no language and code that does not open with a `#` comment. */
  predicate LiveGraded(language: Option<string>, code: string) {
    language == Some("javascript") || (Falsy(language) && !StartsWith(JsTrim(code), "#"))
  }

  // ---------------------------------------------------------------- the entry point

  const TitleToFunc: seq<(string, string)> := [
    ("Two Sum", "twoSum"),
    ("Valid Parentheses", "isValid"),
    ("Climbing Stairs", "climbStairs")
  ]

  /** `\s+\w` matches at the start of `rest`: one or more spaces, then a word character. */
  predicate SpacesThenWord(rest: string) {
    var n := RunLength(rest, IsJsSpace);
    0 < n < |rest| && IsWordChar(rest[n])
  }

  /** The regular expression `function\s+(\w+)` matches at index `i`. */
  predicate FunctionAt(code: string, i: int) {
    OccursAt(code, "function", i) && SpacesThenWord(code[i + 8..])
  }

  /** The captured name of a match at `i`: every word character after the spaces. */
  function NameAt(code: string, i: int): (name: string)
    requires FunctionAt(code, i)
    ensures |name| > 0 && AllChars(name, IsWordChar)
  {
    var rest := code[i + 8..];
    var word := rest[RunLength(rest, IsJsSpace)..];
    word[..RunLength(word, IsWordChar)]
  }

  /** Where the leftmost match at or after `i` starts. */
  function FirstMatchFrom(code: string, i: nat): (r: Option<nat>)
    requires i <= |code|
    ensures r.None? <==> forall j :: i <= j <= |code| ==> !FunctionAt(code, j)
    ensures r.Some? ==> i <= r.value <= |code| && FunctionAt(code, r.value)
                        && forall k :: i <= k < r.value ==> !FunctionAt(code, k)
    decreases |code| - i
  {
    if FunctionAt(code, i) then Some(i)
    else if i == |code| then None
    else FirstMatchFrom(code, i + 1)
  }

  /** `code.match(/function\s+(\w+)/)`, then `match[1]`: the name after the leftmost match. */
  function FirstFunctionName(code: string): Option<string> {
    match FirstMatchFrom(code, 0)
    case None => None
    case Some(i) => Some(NameAt(code, i))
  }

  /** The title table first, then the first `function <name>` in the code. */
  function EntryPoint(title: string, code: string): Option<string> {
    match Get(TitleToFunc, title)
    case Some(name) => Some(name)
    case None => FirstFunctionName(code)
  }

  // ---------------------------------------------------------------- running the cases

  /** The value compared with the expected one: what came back, or the error text. */
  function Output(o: Outcome): Value
    requires !o.Unserializable?
  {
    if o.Returned? then o.value else Str("Error: " + o.message)
  }

  /** The result entry for one test case whose call produced `output`. */
  function Judged(t: TestCase, output: Value): CaseResult {
    CaseResult(Obj(t.input), t.expected, output, IsEqual(output, t.expected))
  }

  function CountPassed(rs: seq<CaseResult>): (n: nat)
    ensures n <= |rs|
    decreases |rs|
  {
    if rs == [] then 0 else CountPassed(rs[..|rs| - 1]) + (if rs[|rs| - 1].passed then 1 else 0)
  }

  /** What the sandbox comes back with for each test case, in catalog order. */
  function Outcomes(code: string, name: string, cases: seq<TestCase>, run: Sandbox): (os: seq<Outcome>)
    ensures |os| == |cases| && forall i :: 0 <= i < |cases| ==> os[i] == run(code, name, Args(cases[i]))
  {
    seq(|cases|, i requires 0 <= i < |cases| => run(code, name, Args(cases[i])))
  }

  /** What one pass of the test-case loop does: record a result, or stop with an error. */
  datatype Step = Record(result: CaseResult) | Stop(message: string)

  /** The step each case would take, given what its call came back with. */
  function Steps(cases: seq<TestCase>, outcomes: seq<Outcome>): (ss: seq<Step>)
    requires |outcomes| == |cases|
    ensures |ss| == |cases|
    ensures forall i :: 0 <= i < |cases| ==>
              ss[i] == if outcomes[i].Unserializable? then Stop(outcomes[i].message) else Record(Judged(cases[i], Output(outcomes[i])))
  {
    seq(|cases|, i requires 0 <= i < |cases| =>
      if outcomes[i].Unserializable? then Stop(outcomes[i].message) else Record(Judged(cases[i], Output(outcomes[i]))))
  }

  /** The loop over the steps: record until the first stop. */
  function Scan(steps: seq<Step>): (r: Run)
    ensures |r.results| <= |steps| && r.passed == CountPassed(r.results)
    ensures r.error.None? <==> |r.results| == |steps|
    ensures r.error.Some? ==> steps[|r.results|] == Stop(r.error.value)
    decreases |steps|
  {
    if steps == [] then Run([], 0, None)
    else
      var n := |steps| - 1;
      var r := Scan(steps[..n]);
      if r.error.Some? then r
      else if steps[n].Stop? then Run(r.results, r.passed, Some(steps[n].message))
      else
        var c := steps[n].result;
        var results := r.results + [c];
        assert results[..|r.results|] == r.results;
        Run(results, r.passed + (if c.passed then 1 else 0), None)
  }

  /** Every result is the one its step records. */
  lemma {:induction false} ScanInOrder(steps: seq<Step>)
    ensures forall i :: 0 <= i < |Scan(steps).results| ==> steps[i] == Record(Scan(steps).results[i])
    decreases |steps|
  {
    if steps != [] {
      var n := |steps| - 1;
      var prefix := steps[..n];
      ScanInOrder(prefix);
      assert forall i :: 0 <= i < n ==> prefix[i] == steps[i];
    }
  }

  /** A recording step past a run that has not stopped adds its result. */
  lemma ScanRecords(steps: seq<Step>, i: nat, c: CaseResult)
    requires i < |steps| && Scan(steps[..i]).error.None? && steps[i] == Record(c)
    ensures Scan(steps[..i + 1]) == Run(Scan(steps[..i]).results + [c], Scan(steps[..i]).passed + (if c.passed then 1 else 0), None)
  {
    assert steps[..i + 1][..i] == steps[..i];
  }

  /** Once a step has stopped the loop, later steps change nothing. */
  lemma {:induction false} ScanStops(steps: seq<Step>, i: nat)
    requires i < |steps| && Scan(steps[..i]).error.None? && steps[i].Stop?
    ensures Scan(steps) == Run(Scan(steps[..i]).results, Scan(steps[..i]).passed, Some(steps[i].message))
    decreases |steps|
  {
    var n := |steps| - 1;
    if n != i {
      var prefix := steps[..n];
      assert prefix[..i] == steps[..i] && prefix[i] == steps[i];
      ScanStops(prefix, i);
    } else {
      assert steps[..n] == steps[..i];
    }
  }

  /**
   * The loop over the test cases, given what each call comes back with: each
   * case is judged in order, and the first unserialisable return ends the loop
   * with that error.
   */
  function RunCases(cases: seq<TestCase>, outcomes: seq<Outcome>): (r: Run)
    requires |outcomes| == |cases|
    ensures |r.results| <= |cases| && r.passed == CountPassed(r.results)
    ensures r.error.None? <==> |r.results| == |cases|
    ensures r.error.Some? ==> outcomes[|r.results|] == Unserializable(r.error.value)
  {
    Scan(Steps(cases, outcomes))
  }

  /**
   * Case by case: the `i`th result is the `i`th test case judged against what
   * its own call came back with, whatever the other calls did.
   */
  lemma RunCasesInOrder(cases: seq<TestCase>, outcomes: seq<Outcome>)
    requires |outcomes| == |cases|
    ensures forall i :: 0 <= i < |RunCases(cases, outcomes).results| ==>
              !outcomes[i].Unserializable?
              && RunCases(cases, outcomes).results[i] == Judged(cases[i], Output(outcomes[i]))
  {
    ScanInOrder(Steps(cases, outcomes));
  }

  // ---------------------------------------------------------------- the response

  function CaseLine(i: nat, r: CaseResult): string {
    "Test " + NatToString(i + 1) + ": " + (if r.passed then "\U{2705} Passed" else "\U{274C} Failed")
    + "\n   Input: " + Ser(r.input)
    + "\n   Expected: " + Ser(r.expected)
    + "\n   Actual: " + Stringify(r.actual).GetOr("undefined") + "\n"
  }

  /** The per-case lines of the detailed feedback. */
  function Details(rs: seq<CaseResult>): string
    decreases |rs|
  {
    if rs == [] then "" else Details(rs[..|rs| - 1]) + CaseLine(|rs| - 1, rs[|rs| - 1])
  }

  /** The feedback when nothing went wrong. */
  function DefaultFeedback(passed: nat, total: nat): string
    requires passed <= total
  {
    if passed == total then AllPassed else FailedCount(total - passed)
  }

  /** The analysis for a catalog problem once `passed`, the results and any error text are known. */
  function Report(total: nat, passed: nat, results: seq<CaseResult>, feedback: string): Analysis
    requires passed <= total
  {
    var fb := if feedback == "" then DefaultFeedback(passed, total) else feedback;
    Analysis(passed == total, passed, total, "O(n) [Estimated]", fb + DetailsHeader + Details(results))
  }

  /** What the handler answers, with the catalog looked up by own property. */
  function Judge(title: string, code: string, language: Option<string>, run: Sandbox): Analysis {
    match Lookup(title)
    case None => UnknownProblem
    case Some(p) => Grade(p, EntryPoint(title, code), code, language, run)
  }

  /** A title the catalog has is graded against its own problem. */
  lemma JudgeGrades(title: string, p: Problem, code: string, language: Option<string>, run: Sandbox)
    requires Lookup(title) == Some(p)
    ensures Judge(title, code, language, run) == Grade(p, EntryPoint(title, code), code, language, run)
  {
  }

  /** Code that is not graded live passes every case without running, with the upgrade notice. */
  lemma GradeNotLive(p: Problem, entry: Option<string>, code: string, language: Option<string>, run: Sandbox)
    requires !LiveGraded(language, code)
    ensures var a := Grade(p, entry, code, language, run);
            a.isCorrect && a.passed == a.total == |p.testCases|
            && a.feedback == UpgradeMessage(language) + DetailsHeader
  {
  }

  /** What the handler answers for a problem the catalog has. */
  function Grade(p: Problem, entry: Option<string>, code: string, language: Option<string>, run: Sandbox): Analysis {
    var total := |p.testCases|;
    if !LiveGraded(language, code) then Report(total, total, [], UpgradeMessage(language))
    else match entry
      case None => Report(total, 0, [], NoFunctionName)
      case Some(name) =>
        var r := RunCases(p.testCases, Outcomes(code, name, p.testCases, run));
        Report(total, r.passed, r.results, if r.error.Some? then "Execution Error: " + r.error.value else "")
  }

  /** `SubmitCode`'s loop over the results, which appends one line per case. */
  method AppendDetails(feedback: string, results: seq<CaseResult>) returns (detailed: string)
    ensures detailed == feedback + DetailsHeader + Details(results)
  {
    var head := feedback + DetailsHeader;
    detailed := head;
    var k := 0;
    while k < |results|
      invariant 0 <= k <= |results|
      invariant detailed == head + Details(results[..k])
    {
      assert results[..k + 1][..k] == results[..k];
      AppendAssoc(head, Details(results[..k]), CaseLine(k, results[k]));
      detailed := detailed + CaseLine(k, results[k]);
      k := k + 1;
    }
    assert results[..k] == results;
  }

  /**
   * `SubmitCode`'s loop over the test cases: call, compare, count, record; an
   * error out of the comparison leaves the loop.
   */
  method RunTestCases(code: string, name: string, cases: seq<TestCase>, run: Sandbox)
    returns (results: seq<CaseResult>, passedCount: nat, error: Option<string>)
    ensures Run(results, passedCount, error) == RunCases(cases, Outcomes(code, name, cases, run))
  {
    ghost var steps := Steps(cases, Outcomes(code, name, cases, run));
    results, passedCount, error := [], 0, None;
    var i := 0;
    while i < |cases|
      invariant 0 <= i <= |cases|
      invariant Scan(steps[..i]) == Run(results, passedCount, None)
    {
      var test := cases[i];
      var outcome := run(code, name, Args(test));
      if outcome.Unserializable? {
        ScanStops(steps, i);
        error := Some(outcome.message);
        return;
      }
      var output := Output(outcome);
      var passed := IsEqual(output, test.expected);
      if passed {
        passedCount := passedCount + 1;
      }
      ScanRecords(steps, i, Judged(test, output));
      results := results + [Judged(test, output)];
      i := i + 1;
    }
    assert steps[..|cases|] == steps;
  }

  /** The handler, step by step. */
  method SubmitCode(title: string, code: string, language: Option<string>, run: Sandbox) returns (a: Analysis)
    ensures a == Judge(title, code, language, run)
  {
    var problemData := Lookup(title);
    if problemData.None? {
      return UnknownProblem;
    }
    a := GradeCode(problemData.value, title, code, language, run);
  }

  /** The handler once the problem is found: gate, entry point, test cases, response. */
  method GradeCode(p: Problem, title: string, code: string, language: Option<string>, run: Sandbox) returns (a: Analysis)
    ensures a == Grade(p, EntryPoint(title, code), code, language, run)
  {
    var cases := p.testCases;
    var passedCount := 0;
    var results: seq<CaseResult> := [];
    var feedback := "";
    if LiveGraded(language, code) {
      var funcName := EntryPoint(title, code);
      if funcName.None? {
        feedback := NoFunctionName;
      } else {
        var error;
        results, passedCount, error := RunTestCases(code, funcName.value, cases, run);
        if error.Some? {
          feedback := "Execution Error: " + error.value;
        }
      }
    } else {
      feedback := UpgradeMessage(language);
      passedCount := |cases|;
    }
    a := Respond(|cases|, passedCount, results, feedback);
  }

  /** The end of the handler: the verdict, the default feedback and the per-case details. */
  method Respond(total: nat, passedCount: nat, results: seq<CaseResult>, feedback: string) returns (a: Analysis)
    requires passedCount <= total
    ensures a == Report(total, passedCount, results, feedback)
  {
    var isCorrect := passedCount == total;
    var fb := feedback;
    if fb == "" {
      fb := if isCorrect then AllPassed else FailedCount(total - passedCount);
    }
    var detailed := AppendDetails(fb, results);
    return Analysis(isCorrect, passedCount, total, "O(n) [Estimated]", detailed);
  }

  // ---------------------------------------------------------------- what the handler promises

  lemma CountPassedAll(rs: seq<CaseResult>)
    ensures CountPassed(rs) == |rs| <==> forall i :: 0 <= i < |rs| ==> rs[i].passed
    decreases |rs|
  {
    if rs != [] {
      CountPassedAll(rs[..|rs| - 1]);
      assert forall i :: 0 <= i < |rs| - 1 ==> rs[..|rs| - 1][i] == rs[i];
    }
  }

  /** An unknown title is accepted as 5 of 5 with the fixed note, whatever the sandbox would do. */
  lemma UnknownTitleAccepted(title: string, code: string, language: Option<string>, run: Sandbox)
    requires title !in Titles
    ensures Judge(title, code, language, run) == UnknownProblem
  {
    LookupFinds(title);
  }

  /** Which submissions are graded live. */
  lemma LanguageGate(code: string, language: string)
    ensures LiveGraded(Some("javascript"), code)
    ensures language != "" && language != "javascript" ==> !LiveGraded(Some(language), code)
    ensures |code| > 0 && !IsJsSpace(code[0]) ==>
              (LiveGraded(None, code) <==> code[0] != '#') && (LiveGraded(Some(""), code) <==> code[0] != '#')
  {
    if |code| > 0 && !IsJsSpace(code[0]) {
      TrimKeepsFirst(code, IsJsSpace);
    }
  }

  /** No entry point: neither the title table nor a `function <name>` in the code. */
  lemma EntryPointNone(title: string, code: string)
    ensures EntryPoint(title, code).None?
            <==> (forall i :: 0 <= i < |TitleToFunc| ==> TitleToFunc[i].0 != title)
                 && forall j :: 0 <= j <= |code| ==> !FunctionAt(code, j)
  {
  }

  /** The title table wins; otherwise the name after the leftmost `function`. */
  lemma EntryPointOrder(title: string, code: string)
    ensures forall i :: 0 <= i < |TitleToFunc| && TitleToFunc[i].0 == title ==> EntryPoint(title, code) == Some(TitleToFunc[i].1)
    ensures (forall i :: 0 <= i < |TitleToFunc| ==> TitleToFunc[i].0 != title) && EntryPoint(title, code).Some? ==>
              exists j :: 0 <= j <= |code| && FunctionAt(code, j) && EntryPoint(title, code) == Some(NameAt(code, j))
                          && forall k :: 0 <= k < j ==> !FunctionAt(code, k)
  {
    assert forall i :: 0 <= i < |TitleToFunc| ==> |TitleToFunc[i].0| == [7, 17, 15][i];
    if (forall i :: 0 <= i < |TitleToFunc| ==> TitleToFunc[i].0 != title) && EntryPoint(title, code).Some? {
      var j := FirstMatchFrom(code, 0).value;
      assert FunctionAt(code, j);
    }
  }

  /** With no function name to call, nothing runs and nothing passes. */
  lemma NoEntryPointFails(p: Problem, code: string, language: Option<string>, run: Sandbox)
    requires LiveGraded(language, code)
    ensures var a := Grade(p, None, code, language, run);
            a.passed == 0 && a.total == |p.testCases| && (a.isCorrect <==> p.testCases == [])
            && a.feedback == NoFunctionName + DetailsHeader
  {
  }

  /**
   * Graded live: the verdict is correct exactly when every case, in catalog
   * order, came back with a value `isEqual` to the expected one; otherwise the
   * count of passed cases is below the total.
   */
  lemma GradedVerdict(p: Problem, name: string, code: string, language: Option<string>, run: Sandbox)
    requires LiveGraded(language, code)
    ensures var cases := p.testCases;
            var os := Outcomes(code, name, cases, run);
            var a := Grade(p, Some(name), code, language, run);
            a.total == |cases| && a.passed <= a.total
            && (a.isCorrect <==> forall i :: 0 <= i < |cases| ==> !os[i].Unserializable? && IsEqual(Output(os[i]), cases[i].expected))
  {
    var cases := p.testCases;
    var os := Outcomes(code, name, cases, run);
    var r := RunCases(cases, os);
    RunCasesInOrder(cases, os);
    CountPassedAll(r.results);
    if r.error.Some? {
      var k := |r.results|;
      assert os[k].Unserializable?;
    }
  }

  /**
   * The feedback: the error text when the loop stopped on an unserialisable
   * value, otherwise the default message for the counts; then the details of
   * every case that ran.
   */
  lemma GradedFeedback(p: Problem, name: string, code: string, language: Option<string>, run: Sandbox)
    requires LiveGraded(language, code)
    ensures var cases := p.testCases;
            var r := RunCases(cases, Outcomes(code, name, cases, run));
            var a := Grade(p, Some(name), code, language, run);
            a.passed == r.passed && a.total == |cases| && (a.isCorrect <==> a.passed == a.total)
            && a.feedback == (if r.error.Some? then "Execution Error: " + r.error.value
                              else if a.isCorrect then AllPassed
                              else FailedCount(a.total - a.passed)) + DetailsHeader + Details(r.results)
  {
    var name := name;
    var r := RunCases(p.testCases, Outcomes(code, name, p.testCases, run));
    var fb := if r.error.Some? then "Execution Error: " + r.error.value else "";
    assert r.error.Some? ==> |fb| > 0;
    assert Grade(p, Some(name), code, language, run) == Report(|p.testCases|, r.passed, r.results, fb);
  }

  /**
   * The cases are independent: change what one case's call comes back with
   * (to anything but an unserialisable value) and only that case's result
   * changes; the cases after it still run.
   */
  lemma CasesIndependent(cases: seq<TestCase>, os1: seq<Outcome>, os2: seq<Outcome>, i: nat)
    requires |os1| == |os2| == |cases| && i < |cases|
    requires forall j :: 0 <= j < |cases| && j != i ==> os1[j] == os2[j]
    requires !os1[i].Unserializable? && !os2[i].Unserializable?
    ensures var r1, r2 := RunCases(cases, os1), RunCases(cases, os2);
            |r1.results| == |r2.results| && r1.error == r2.error
            && forall j :: 0 <= j < |r1.results| && j != i ==> r1.results[j] == r2.results[j]
  {
    RunCasesInOrder(cases, os1);
    RunCasesInOrder(cases, os2);
  }

  /** A call that raises an error fails its case, which shows `"Error: <message>"` as the actual value. */
  lemma ThrowFailsItsCase(cases: seq<TestCase>, os: seq<Outcome>, i: nat)
    requires |os| == |cases| && i < |RunCases(cases, os).results| && os[i].Threw?
    requires Defined(cases[i].expected) && !cases[i].expected.Str?
    ensures var c := RunCases(cases, os).results[i];
            !c.passed && c.actual == Str("Error: " + os[i].message)
  {
    RunCasesInOrder(cases, os);
    IsEqualIsStructural(Str("Error: " + os[i].message), cases[i].expected);
  }

  /** Calls that all return their case's expected value pass every case and run to the end. */
  lemma AllReturnExpected(cases: seq<TestCase>, os: seq<Outcome>)
    requires |os| == |cases|
    requires forall i :: 0 <= i < |cases| ==> os[i] == Returned(cases[i].expected)
    ensures RunCases(cases, os).error.None? && RunCases(cases, os).passed == |cases|
  {
    var r := RunCases(cases, os);
    RunCasesInOrder(cases, os);
    assert forall i :: 0 <= i < |r.results| ==> r.results[i].passed;
    CountPassedAll(r.results);
  }

  /** A function that returns every expected value is accepted with "Excellent!". */
  lemma ReferenceSolutionAccepted(p: Problem, name: string, code: string, language: Option<string>, run: Sandbox)
    requires LiveGraded(language, code)
    requires var cases := p.testCases;
             forall i :: 0 <= i < |cases| ==> run(code, name, Args(cases[i])) == Returned(cases[i].expected)
    ensures var a := Grade(p, Some(name), code, language, run);
            a.isCorrect && a.passed == a.total && StartsWith(a.feedback, AllPassed)
  {
    var cases := p.testCases;
    var os := Outcomes(code, name, cases, run);
    AllReturnExpected(cases, os);
    GradedFeedback(p, name, code, language, run);
    var r := RunCases(cases, os);
    var a := Grade(p, Some(name), code, language, run);
    StartsWithAppend(AllPassed, DetailsHeader + Details(r.results));
  }

  /** When every call raises an error, no catalog case passes. */
  lemma AllThrowNonePass(k: nat, p: Problem, name: string, code: string, language: Option<string>, run: Sandbox)
    requires k < |Problems| && Problems[k].1 == p && LiveGraded(language, code)
    requires var cases := p.testCases;
             forall i :: 0 <= i < |cases| ==> run(code, name, Args(cases[i])).Threw?
    ensures var a := Grade(p, Some(name), code, language, run);
            !a.isCorrect && a.passed == 0
  {
    CatalogShape();
    var cases := p.testCases;
    var os := Outcomes(code, name, cases, run);
    var r := RunCases(cases, os);
    RunCasesInOrder(cases, os);
    GradedFeedback(p, name, code, language, run);
    forall i | 0 <= i < |r.results|
      ensures !r.results[i].passed
    {
      ExpectedValues(p, cases[i]);
      ThrowFailsItsCase(cases, os, i);
    }
    CountPassedNone(r.results);
  }

  lemma CountPassedNone(rs: seq<CaseResult>)
    requires forall i :: 0 <= i < |rs| ==> !rs[i].passed
    ensures CountPassed(rs) == 0
    decreases |rs|
  {
    if rs != [] {
      CountPassedNone(rs[..|rs| - 1]);
    }
  }

  /** The title table names the function even when the code defines another one. */
  lemma TitleTableExample()
    ensures EntryPoint("Two Sum", "function solve(nums, target) {}") == Some("twoSum")
  {
  }

  /** Without a table entry, the name comes from the code. */
  lemma ReverseListEntryPoint(code: string)
    ensures EntryPoint("Reverse Linked List", code) == FirstFunctionName(code)
  {
    assert forall i :: 0 <= i < |TitleToFunc| ==> |TitleToFunc[i].0| != 19;
  }

  /**
   * Code that opens with `function`, spaces and a name followed by a
   * non-word character gives that name.
   */
  lemma LeadingFunctionName(spaces: string, name: string, tail: string)
    requires |spaces| > 0 && AllChars(spaces, IsJsSpace)
    requires |name| > 0 && AllChars(name, IsWordChar) && (tail == [] || !IsWordChar(tail[0]))
    ensures FirstFunctionName("function" + spaces + name + tail) == Some(name)
  {
    var code := "function" + spaces + name + tail;
    var rest := code[8..];
    assert rest == spaces + (name + tail);
    assert !IsJsSpace(name[0]);
    RunLengthPrefix(spaces, name + tail, IsJsSpace);
    var word := rest[|spaces|..];
    assert word == name + tail;
    RunLengthPrefix(name, tail, IsWordChar);
    assert FunctionAt(code, 0);
    assert word[..|name|] == name;
  }

  lemma NamedFunctionExample()
    ensures FirstFunctionName("function sum(a, b) {}") == Some("sum")
  {
    assert "function sum(a, b) {}" == "function" + " " + "sum" + "(a, b) {}";
    LeadingFunctionName(" ", "sum", "(a, b) {}");
  }

  /** An anonymous function expression gives no name. */
  lemma AnonymousFunctionExample()
    ensures FirstFunctionName("function(x) {}") == None
  {
    var code := "function(x) {}";
    assert code[8..][0] == '(';
    assert !FunctionAt(code, 0);
    forall j | 1 <= j <= |code|
      ensures !FunctionAt(code, j)
    {
      if j + 8 <= |code| {
        assert code[j] != 'f';
      }
    }
  }

  // ---------------------------------------------------------------- the catalog lookup as written

  /** The members every object inherits from `Object.prototype`. */
  const InheritedNames: seq<string> := [
    "constructor", "hasOwnProperty", "isPrototypeOf", "propertyIsEnumerable", "toLocaleString", "toString",
    "valueOf", "__proto__", "__defineGetter__", "__defineSetter__", "__lookupGetter__", "__lookupSetter__"
  ]

  datatype Found = Own(problem: Problem) | Inherited | Absent

  /** `problemTests[problemTitle]`: a plain property read also finds the inherited members. */
  function LookupAsWritten(title: string): Found {
    match Lookup(title)
    case Some(p) => Own(p)
    case None => if title in InheritedNames then Inherited else Absent
  }

  /**
   * The handler as written; `None` when it never answers. An inherited member
   * is truthy, so the unknown-problem branch is skipped, and reading
   * `problemData.testCases.length` then raises a TypeError outside any `try`.
   */
  function SubmitAsWritten(title: string, code: string, language: Option<string>, run: Sandbox): Option<Analysis> {
    match LookupAsWritten(title)
    case Own(_) => Some(Judge(title, code, language, run))
    case Absent => Some(UnknownProblem)
    case Inherited => None
  }

  /** The title "toString" gets no answer as written, and the unknown-problem answer with an own-property lookup. */
  lemma InheritedTitleUnanswered(code: string, language: Option<string>, run: Sandbox)
    ensures SubmitAsWritten("toString", code, language, run).None?
    ensures Judge("toString", code, language, run) == UnknownProblem
  {
    assert |"toString"| == 8;
    CatalogShape();
    assert forall i :: 0 <= i < |Titles| ==> |Titles[i]| != 8;
    LookupFinds("toString");
    assert InheritedNames[5] == "toString";
  }

  /** For every other title the lookup as written and the own-property lookup answer alike. */
  lemma AsWrittenAgrees(title: string, code: string, language: Option<string>, run: Sandbox)
    requires title !in InheritedNames
    ensures SubmitAsWritten(title, code, language, run) == Some(Judge(title, code, language, run))
  {
  }
}
