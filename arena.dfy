/**
 * The coding arena: the problem list with its difficulty and topic filters,
 * opening a problem, the editor's starter code and mode for each language,
 * and the rule that turns a judged submission into points.
 */
module Arena {
  import opened Wrappers
  import opened Text
  import opened Lists
  import Auth

  /** A problem of `cp_questions.json`; `starterCode` lists its own code per language. */
  datatype Problem = Problem(
    id: int,
    title: string,
    difficulty: string,
    topic: Option<string>,
    points: Option<int>,
    starterCode: seq<(string, string)>)

  /** The file's contents: a bare array of problems, or an object that may hold `problems`. */
  datatype Data = Bare(items: seq<Problem>) | Wrapped(problems: Option<seq<Problem>>)

  /** `Array.isArray(data) ? data : data.problems || []`. */
  function ProblemsOf(data: Data): seq<Problem> {
    match data
    case Bare(items) => items
    case Wrapped(problems) => problems.GetOr([])
  }

  // ---------------------------------------------------------------- filters

  /** The difficulty filter compares the lower-cased difficulty with the button's value as it is. */
  predicate DifficultyMatches(p: Problem, difficulty: string) {
    ToLower(p.difficulty) == difficulty
  }

  /** `p.topic && p.topic.toLowerCase().includes(topic.toLowerCase())`: a problem without a topic never matches. */
  predicate TopicMatches(p: Problem, topic: string) {
    p.topic.Some? && p.topic.value != "" && Contains(ToLower(p.topic.value), ToLower(topic))
  }

  /** Whether the list shows `p` under both filters; "all" switches a filter off. */
  predicate Shown(p: Problem, difficulty: string, topic: string) {
    (difficulty == "all" || DifficultyMatches(p, difficulty)) && (topic == "all" || TopicMatches(p, topic))
  }

  function ByDifficulty(difficulty: string): Problem -> bool {
    p => DifficultyMatches(p, difficulty)
  }

  function ByTopic(topic: string): Problem -> bool {
    p => TopicMatches(p, topic)
  }

  function ShownBy(difficulty: string, topic: string): Problem -> bool {
    p => Shown(p, difficulty, topic)
  }

  /** `applyFilters()`: the difficulty filter, then the topic filter. */
  function ApplyFilters(problems: seq<Problem>, difficulty: string, topic: string): seq<Problem> {
    var byDifficulty := if difficulty != "all" then Filter(problems, ByDifficulty(difficulty)) else problems;
    if topic != "all" then Filter(byDifficulty, ByTopic(topic)) else byDifficulty
  }

  /**
   * The filtered list is the problems that pass both filters, in their order:
   * exactly those, and a sub-list of `problems`.
   */
  lemma FiltersKeepOrder(problems: seq<Problem>, difficulty: string, topic: string) returns (idx: seq<nat>)
    ensures ApplyFilters(problems, difficulty, topic) == Filter(problems, ShownBy(difficulty, topic))
    ensures forall p :: p in ApplyFilters(problems, difficulty, topic) <==> p in problems && Shown(p, difficulty, topic)
    ensures EmbedsBy(ApplyFilters(problems, difficulty, topic), problems, idx)
  {
    var shown := ShownBy(difficulty, topic);
    if difficulty == "all" && topic == "all" {
      FilterAll(problems, shown);
    } else if difficulty == "all" {
      FilterSame(problems, ByTopic(topic), shown);
    } else if topic == "all" {
      FilterSame(problems, ByDifficulty(difficulty), shown);
    } else {
      FilterFilter(problems, ByDifficulty(difficulty), ByTopic(topic), shown);
    }
    idx := FilterEmbeds(problems, shown);
  }

  // ---------------------------------------------------------------- opening a problem

  /** `problems.find(p => p.id === id)`: the first problem with that id. */
  function FindProblem(problems: seq<Problem>, id: int): (r: Option<Problem>)
    ensures r.None? <==> forall i :: 0 <= i < |problems| ==> problems[i].id != id
    ensures r.Some? ==> r.value.id == id && (exists i :: 0 <= i < |problems| && problems[i] == r.value
                                              && forall j :: 0 <= j < i ==> problems[j].id != id)
    decreases |problems|
  {
    if problems == [] then None
    else if problems[0].id == id then Some(problems[0])
    else
      var r := FindProblem(problems[1..], id);
      assert r.Some? ==> (exists i :: 0 <= i < |problems[1..]| && problems[1..][i] == r.value
                                   && forall j :: 0 <= j < i ==> problems[1..][j].id != id);
      r
  }

  /** `starter_code[lang]` when it is a non-empty string. */
  function OwnStarter(p: Problem, lang: string): (r: Option<string>)
    ensures r.Some? ==> r.value != "" && (lang, r.value) in p.starterCode
    ensures r.None? ==> forall i :: 0 <= i < |p.starterCode| && p.starterCode[i].0 == lang ==> p.starterCode[i].1 == "" || exists j :: 0 <= j < i && p.starterCode[j].0 == lang
  {
    var k := IndexOf(Keys(p.starterCode), lang);
    if k >= 0 && p.starterCode[k].1 != "" then Some(p.starterCode[k].1) else None
  }

  function Keys(kv: seq<(string, string)>): (ks: seq<string>)
    ensures |ks| == |kv| && forall i :: 0 <= i < |kv| ==> ks[i] == kv[i].0
  {
    seq(|kv|, i requires 0 <= i < |kv| => kv[i].0)
  }

  const WriteYourCode := "// Write your code here"

  /** What the editor opens with: the problem's JavaScript code, else a comment. */
  function OpeningText(p: Problem): (t: string)
    ensures t != ""
    ensures OwnStarter(p, "javascript").Some? ==> t == OwnStarter(p, "javascript").value
  {
    OwnStarter(p, "javascript").GetOr(WriteYourCode)
  }

  // ---------------------------------------------------------------- language change

  const CppTemplate := "#include <iostream>" + "\n#include <vector>\n#include <string>\nusing namespace std;\n\n"
    + "class Solution {\npublic:\n    void solve() {\n        // Your code here\n    }\n};\n\n"
    + "int main() {\n    Solution sol;\n    sol.solve();\n    return 0;\n}"
  const JavaTemplate := "import java.util.*;" + "\n\npublic class Solution {\n"
    + "    public static void main(String[] args) {\n        // Your code here\n"
    + "        System.out.println(\"Hello World\");\n    }\n}"
  const PythonTemplate := "def solve():" + "\n    # Your code here\n    pass\n\nif __name__ == \"__main__\":\n    solve()"
  const JavaScriptTemplate := "function solve() {" + "\n    // Your code here\n}\n\nsolve();"
  const CSharpTemplate := "using System;" + "\n\npublic class Solution {\n"
    + "    public static void Main(string[] args) {\n        // Your code here\n    }\n}"

  /** The default template of a language, for the five the editor offers. */
  function Template(lang: string): (t: Option<string>)
    ensures t.Some? <==> lang in ["cpp", "java", "python", "javascript", "csharp"]
    ensures t.Some? ==> t.value != ""
  {
    match lang
    case "cpp" => Some(CppTemplate)
    case "java" => Some(JavaTemplate)
    case "python" => Some(PythonTemplate)
    case "javascript" => Some(JavaScriptTemplate)
    case "csharp" => Some(CSharpTemplate)
    case _ => None
  }

  const NoStarterCode := "// No starter code for "

  /** The code the editor shows after switching to `lang`. */
  function StarterFor(current: Option<Problem>, lang: string): (code: string)
    ensures code != ""
    ensures current.Some? && OwnStarter(current.value, lang).Some? ==> code == OwnStarter(current.value, lang).value
    ensures current.None? || OwnStarter(current.value, lang).None? ==> code == Template(lang).GetOr(NoStarterCode + lang)
  {
    if current.Some? && OwnStarter(current.value, lang).Some? then OwnStarter(current.value, lang).value
    else if Template(lang).Some? then Template(lang).value
    else NoStarterCode + lang
  }

  /**
   * With no code of the problem's own, the "no starter code" note appears
   * exactly for the languages outside the five the editor offers.
   */
  lemma NoteOnlyForUnknown(current: Option<Problem>, lang: string)
    requires current.None? || OwnStarter(current.value, lang).None?
    ensures StarterFor(current, lang) == NoStarterCode + lang <==> Template(lang).None?
  {
    if Template(lang).Some? {
      var t := Template(lang).value;
      assert CppTemplate[0] == '#' && JavaTemplate[0] == 'i' && PythonTemplate[0] == 'd';
      assert JavaScriptTemplate[0] == 'f' && CSharpTemplate[0] == 'u';
      assert (NoStarterCode + lang)[0] == '/';
    }
  }

  /** The editor mode: Python's own, the C-like one for C++, Java and C#, JavaScript's otherwise. */
  function Mode(lang: string): (m: string)
    ensures m == "python" <==> lang == "python"
    ensures m == "clike" <==> lang == "cpp" || lang == "java" || lang == "csharp"
    ensures m == "javascript" <==> lang != "python" && lang != "cpp" && lang != "java" && lang != "csharp"
  {
    if lang == "python" then "python"
    else if lang == "cpp" || lang == "java" || lang == "csharp" then "clike"
    else "javascript"
  }

  // ---------------------------------------------------------------- submission

  /** `result.total_test_cases || 20`: a missing or zero total counts as 20. */
  function EffectiveTotal(total: Option<int>): (n: int)
    ensures total.None? || total.value == 0 ==> n == 20
    ensures total.Some? && total.value != 0 ==> n == total.value
    ensures n != 0
  {
    if total.None? || total.value == 0 then 20 else total.value
  }

  /** A submission is accepted when every test case passed. */
  predicate Accepted(passed: int, total: Option<int>) {
    passed == EffectiveTotal(total)
  }

  /** `currentProblem?.points || 500`. */
  function Points(current: Option<Problem>): (n: int)
    ensures n != 0
    ensures current.None? || current.value.points.None? || current.value.points.value == 0 ==> n == 500
    ensures current.Some? && current.value.points.Some? && current.value.points.value != 0 ==> n == current.value.points.value
  {
    if current.Some? && current.value.points.Some? && current.value.points.value != 0 then current.value.points.value else 500
  }

  /** What an accepted submission does to the record before it is saved. */
  function Awarded(p: Auth.Progress, points: int, now: string): Auth.Progress {
    p.(xp := p.xp + points, modulesCompleted := p.modulesCompleted + 1, lastActivity := Some(now))
  }

  /**
   * An accepted submission completes one more module and either adds its
   * points to xp or moves up a level, spending the old level's threshold.
   */
  lemma AwardEffect(p: Auth.Progress, points: int, now: string)
    ensures Auth.LevelUp(Awarded(p, points, now)).modulesCompleted == p.modulesCompleted + 1
    ensures Auth.LevelUp(Awarded(p, points, now)).lastActivity == Some(now)
    ensures var r := Auth.LevelUp(Awarded(p, points, now));
            (r.level == p.level && r.xp == p.xp + points && r.xp <= p.level * 1000)
            || (r.level == p.level + 1 && r.xp == p.xp + points - p.level * 1000 && r.xp > 0)
    ensures Awarded(p, points, now).interviews == p.interviews && Awarded(p, points, now).courseProgress == p.courseProgress
  {
  }

  /** The arena page's state. */
  class Page {
    var problems: seq<Problem>
    var currentProblem: Option<Problem>
    var editorOpen: bool
    var editorText: string
    var mode: string

    constructor ()
      ensures problems == [] && currentProblem == None && !editorOpen && mode == "javascript"
    {
      problems := [];
      currentProblem := None;
      editorOpen := false;
      editorText := "";
      mode := "javascript";
    }

    /** `initArena()`'s loading: the list is replaced only when the file could be read. */
    method Load(fetched: Option<Data>)
      modifies this
      ensures problems == if fetched.Some? then ProblemsOf(fetched.value) else old(problems)
      ensures currentProblem == old(currentProblem) && editorOpen == old(editorOpen)
      ensures editorText == old(editorText) && mode == old(mode)
    {
      if fetched.Some? {
        problems := ProblemsOf(fetched.value);
      }
    }

    /**
     * `openProblem(id)`: the selection becomes the first problem with that id,
     * or nothing when there is none, in which case the editor stays as it was;
     * otherwise the editor opens on the problem's starting code in JavaScript.
     */
    method OpenProblem(id: int)
      modifies this
      ensures problems == old(problems) && currentProblem == FindProblem(problems, id)
      ensures currentProblem.None? ==> editorOpen == old(editorOpen) && editorText == old(editorText) && mode == old(mode)
      ensures currentProblem.Some? ==> editorOpen && editorText == OpeningText(currentProblem.value) && mode == "javascript"
    {
      currentProblem := FindProblem(problems, id);
      if currentProblem.None? {
        return;
      }
      editorOpen := true;
      editorText := OpeningText(currentProblem.value);
      mode := "javascript";
    }

    /** The language selector's `onchange`: the starter code and the mode for `lang`. */
    method ChangeLanguage(lang: string)
      modifies this
      ensures editorText == StarterFor(currentProblem, lang) && mode == Mode(lang)
      ensures problems == old(problems) && currentProblem == old(currentProblem) && editorOpen == old(editorOpen)
    {
      var starterCode := "";
      var newMode := "javascript";
      if currentProblem.Some? && OwnStarter(currentProblem.value, lang).Some? {
        starterCode := OwnStarter(currentProblem.value, lang).value;
      } else {
        starterCode := Template(lang).GetOr(NoStarterCode + lang);
      }
      if lang == "python" {
        newMode := "python";
      } else if lang == "cpp" || lang == "java" || lang == "csharp" {
        newMode := "clike";
      }
      editorText := starterCode;
      mode := newMode;
    }

    /**
     * The submit button once the judge has answered: accepted when every test
     * passed; then, for a signed-in user, the problem's points and one module
     * are added and the record is saved.
     */
    method Submit(store: Auth.Store, passed: int, total: Option<int>, now: string) returns (accepted: bool)
      modifies store
      ensures accepted == Accepted(passed, total)
      ensures store.currentUser == old(store.currentUser)
      ensures !accepted || old(store.currentUser).None? ==> store.items == old(store.items)
      ensures accepted && old(store.currentUser).Some? ==>
                store.items == old(store.items)[store.UserKey() := Auth.LevelUp(Awarded(old(store.GetProgress()).value, Points(currentProblem), now))]
    {
      var totalTests := EffectiveTotal(total);
      accepted := passed == totalTests;
      if accepted {
        var progress := store.GetProgress();
        if progress.Some? {
          var updated := Awarded(progress.value, Points(currentProblem), now);
          var saved := store.SaveProgress(Auth.Whole(updated));
          assert Auth.Merge(progress.value, Auth.Whole(updated)) == updated;
        }
      }
    }
  }
}
