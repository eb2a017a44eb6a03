/**
 * The learning hub: module playlists with sections unlocked by the number of
 * videos watched, the progress bars of the hub cards, and the module quiz
 * (up to 20 shuffled questions with shuffled options, a cursor, the answers
 * given so far, and the tally and reward when it ends).
 */
module Learning {
  import opened Wrappers
  import opened Text
  import opened Lists
  import opened Numeric
  import Auth

  // ---------------------------------------------------------------- videos watched

  /** `userProgress[id] || 0`: videos watched in a module, 0 for a module never opened. */
  function Watched(cp: seq<(string, int)>, id: string): int
    decreases |cp|
  {
    if cp == [] then 0 else if cp[0].0 == id then cp[0].1 else Watched(cp[1..], id)
  }

  function ModuleIds(cp: seq<(string, int)>): seq<string> {
    seq(|cp|, i requires 0 <= i < |cp| => cp[i].0)
  }

  /**
   * `userProgress[id] = v`: an existing entry changes in place, a new one goes
   * last; no other module's count changes.
   */
  function Put(cp: seq<(string, int)>, id: string, v: int): (r: seq<(string, int)>)
    ensures Watched(r, id) == v
    ensures forall other :: other != id ==> Watched(r, other) == Watched(cp, other)
    ensures ModuleIds(r) == if id in ModuleIds(cp) then ModuleIds(cp) else ModuleIds(cp) + [id]
    decreases |cp|
  {
    if cp == [] then [(id, v)]
    else if cp[0].0 == id then
      assert ModuleIds(cp)[0] == id;
      assert ModuleIds([(id, v)] + cp[1..]) == ModuleIds(cp);
      [(id, v)] + cp[1..]
    else
      var rest := Put(cp[1..], id, v);
      assert ModuleIds(cp) == [cp[0].0] + ModuleIds(cp[1..]);
      assert ModuleIds([cp[0]] + rest) == [cp[0].0] + ModuleIds(rest);
      [cp[0]] + rest
  }

  /** The module page's state: the open module and the per-module counts. */
  class Hub {
    var currentModuleId: Option<string>
    var userProgress: seq<(string, int)>

    /** At load the counts come from the stored record's `courseProgress`, when it has one. */
    constructor (stored: Option<Auth.Progress>)
      ensures currentModuleId == None
      ensures userProgress == if stored.Some? && stored.value.courseProgress.Some? then stored.value.courseProgress.value else []
    {
      currentModuleId := None;
      userProgress := if stored.Some? && stored.value.courseProgress.Some? then stored.value.courseProgress.value else [];
    }

    /** `openModule(id)`: the module becomes current and gets a count of 0 if it had none. */
    method OpenModule(id: string)
      modifies this
      ensures currentModuleId == Some(id)
      ensures userProgress == if Watched(old(userProgress), id) == 0 then Put(old(userProgress), id, 0) else old(userProgress)
      ensures Watched(userProgress, id) == Watched(old(userProgress), id)
    {
      currentModuleId := Some(id);
      if Watched(userProgress, id) == 0 {
        userProgress := Put(userProgress, id, 0);
      }
    }

    /**
     * One tick of the watch timer while module `id` is open: its count goes up
     * by one and the counts are saved as the record's `courseProgress`.
     */
    method WatchTick(id: string, store: Auth.Store)
      modifies this, store
      ensures currentModuleId == old(currentModuleId)
      ensures userProgress == Put(old(userProgress), id, Watched(old(userProgress), id) + 1)
      ensures store.currentUser == old(store.currentUser)
      ensures old(store.currentUser).None? ==> store.items == old(store.items)
      ensures old(store.currentUser).Some? ==>
                store.items == old(store.items)[store.UserKey() := Auth.LevelUp(Auth.Merge(old(store.GetProgress()).value, Auth.CourseOnly(userProgress)))]
    {
      userProgress := Put(userProgress, id, Watched(userProgress, id) + 1);
      var saved := store.SaveProgress(Auth.CourseOnly(userProgress));
    }
  }

  // ---------------------------------------------------------------- playlists and locks

  /** A module's playlist and the video each section starts after. */
  datatype Playlist = Playlist(url: string, intro: nat, core: nat, advanced: nat)

  const EmbedBase := "https://www.youtube.com/embed?list="

  /** A YouTube playlist embedded by its list id; its introduction starts at the first video. */
  function Embedded(list: string, core: nat, advanced: nat): (p: Playlist)
    ensures StartsWith(p.url, EmbedBase) && p.intro == 0
  {
    Playlist(EmbedBase + list, 0, core, advanced)
  }

  /** The playlist table; modules outside it have no sections. */
  function PlaylistOf(id: string): (r: Option<Playlist>)
    ensures r.Some? ==> StartsWith(r.value.url, EmbedBase) && r.value.intro == 0
    ensures r.Some? ==> 0 < r.value.core < r.value.advanced < 30
  {
    match id
    case "dsa" => Some(Embedded("PLfqMhTWNBTe137I_EPQd34TsgV6IO55pt", 10, 20))
    case "dbms" => Some(Embedded("PLxCzCOWd7aiFAN6I8CuViBuCdJgiOkT2Y", 10, 20))
    case "os" => Some(Embedded("PLevuEtnAdteQGUlTCdh9a1Q4zN-_hxJQl", 10, 20))
    case "cn" => Some(Embedded("PLBlnK6fEyqRgMCUAG0XRw78UA8qnv6jEx", 10, 20))
    case "oop" => Some(Embedded("PLQEaRBV9gAFujcBWJhBT2XXsuMlIfETBy", 10, 20))
    case "aptitude" => Some(Embedded("PL8p2I9GklV454LdGfDOw0KkNazKuA-6B2", 5, 10))
    case "grammar" => Some(Embedded("PL1zxEeUFe9lcIEWJWqykZiCyVSlYbsi0o", 5, 10))
    case "ai" => Some(Embedded("PLxCzCOWd7aiHGhOHV-nwb0HR5US5GFKFI", 8, 15))
    case "ml" => Some(Embedded("PLxCzCOWd7aiEXg5BV10k9THtjnS48yI-T", 8, 15))
    case "webdev" => Some(Embedded("PLfqMhTWNBTe0PY9xunOzsP5kmYIz2Hu7i", 10, 20))
    case _ => None
  }

  /** Videos to watch before each sidebar item opens: intro, core, advanced, practice. */
  function Limits(p: Playlist): seq<int> {
    [0, p.core, p.advanced, 30]
  }

  /** Item `index` is locked while fewer videos than its limit are watched; items past the fourth have no limit. */
  predicate Locked(watched: int, p: Playlist, index: nat) {
    index < 4 && watched < Limits(p)[index]
  }

  /**
   * `updateModuleLocks` over a sidebar of `items` entries: nothing for a module
   * without a playlist, else one lock flag per item.
   */
  function SidebarLocks(watched: int, id: string, items: nat): (r: Option<seq<bool>>)
    ensures r.None? <==> PlaylistOf(id).None?
    ensures r.Some? ==> |r.value| == items
    ensures r.Some? ==> forall i :: 0 <= i < items ==> (r.value[i] <==> Locked(watched, PlaylistOf(id).value, i))
  {
    match PlaylistOf(id)
    case None => None
    case Some(p) => Some(seq(items, i requires 0 <= i < items => Locked(watched, p, i)))
  }

  /**
   * The introduction is never locked, watching more never locks an item,
   * locks form a suffix of the four items, and 30 videos open them all.
   */
  lemma LocksMonotone(w1: int, w2: int, id: string, i: nat, j: nat)
    requires PlaylistOf(id).Some?
    ensures w1 >= 0 ==> !Locked(w1, PlaylistOf(id).value, 0)
    ensures w1 <= w2 && Locked(w2, PlaylistOf(id).value, i) ==> Locked(w1, PlaylistOf(id).value, i)
    ensures i <= j < 4 && Locked(w1, PlaylistOf(id).value, i) ==> Locked(w1, PlaylistOf(id).value, j)
    ensures w1 >= 30 ==> !Locked(w1, PlaylistOf(id).value, i)
  {
  }

  // ---------------------------------------------------------------- sections

  const TitleMap: map<string, string> := map[
    "dsa" := "Data Structures & Algorithms",
    "oop" := "Object Oriented Programming",
    "system-design" := "System Design",
    "dbms" := "Database Management",
    "os" := "Operating Systems",
    "cn" := "Computer Networks",
    "ai" := "Artificial Intelligence",
    "ml" := "Machine Learning",
    "webdev" := "Web Development",
    "aptitude" := "Aptitude & Logical Reasoning",
    "grammar" := "Verbal Ability & Grammar"]

  /** `s.charAt(0).toUpperCase() + s.slice(1)`. */
  function Capitalize(s: string): string {
    if s == [] then [] else [UpperChar(s[0])] + s[1..]
  }

  /** The 1-based playlist index a section starts at; an unknown section starts at 1. */
  function StartIndex(p: Playlist, section: string): nat {
    if section == "intro" then p.intro + 1
    else if section == "core" then p.core + 1
    else if section == "advanced" then p.advanced + 1
    else 1
  }

  /** The playlist address with `index=` appended after `&` when it has a query already, else after `?`. */
  function SectionUrl(url: string, start: nat): string {
    url + [if '?' in url then '&' else '?'] + "index=" + NatToString(start)
  }

  datatype SectionView = SectionView(title: string, url: string, startIndex: nat)

  /** `loadSection(id, section)`: nothing for a module without a playlist. */
  function LoadSection(id: string, section: string): (v: Option<SectionView>)
    ensures v.None? <==> PlaylistOf(id).None?
    ensures v.Some? ==> v.value.startIndex == StartIndex(PlaylistOf(id).value, section) >= 1
  {
    match PlaylistOf(id)
    case None => None
    case Some(p) =>
      var start := StartIndex(p, section);
      var name := if id in TitleMap then TitleMap[id] else "Module";
      Some(SectionView(name + " - " + Capitalize(section), SectionUrl(p.url, start), start))
  }

  /**
   * Every playlist address already has a query, so the index is appended
   * after `&`, and the digits after `index=` read back as the start index.
   */
  lemma SectionUrlIndex(id: string, section: string)
    requires PlaylistOf(id).Some?
    ensures var v := LoadSection(id, section).value;
            var p := PlaylistOf(id).value;
            && v.url == p.url + "&index=" + NatToString(v.startIndex)
            && ParseNat(v.url[|p.url| + 7..]) == v.startIndex
  {
    var p := PlaylistOf(id).value;
    assert p.url[29] == EmbedBase[29] == '?';
    UrlIndex(p.url, StartIndex(p, section));
  }

  lemma UrlIndex(url: string, start: nat)
    requires '?' in url
    ensures SectionUrl(url, start) == url + "&index=" + NatToString(start)
    ensures ParseNat(SectionUrl(url, start)[|url| + 7..]) == start
  {
    var digits := NatToString(start);
    assert SectionUrl(url, start) == url + "&index=" + digits;
    assert SectionUrl(url, start)[|url| + 7..] == digits;
    ParseNatToString(start);
  }

  // ---------------------------------------------------------------- hub cards

  /** `moduleMax[id] || 30`: the number of videos a module counts toward 100%. */
  function ModuleMax(id: string): (m: nat)
    ensures 0 < m <= 30
  {
    match id
    case "ai" => 23
    case "ml" => 23
    case "aptitude" => 15
    case "grammar" => 15
    case _ => 30
  }

  /** The hub card's percentage and button label for a module. */
  function HubCard(cp: seq<(string, int)>, id: string): (string, int) {
    var percent := PercentOf(Watched(cp, id), ModuleMax(id));
    (if percent > 0 then "Continue Learning" else "Start Module", percent)
  }

  /**
   * The card offers to continue exactly when at least one video is watched
   * (one video is already more than half a percent of any module), and the
   * percentage is between 0 and 100.
   */
  lemma HubCardContinue(cp: seq<(string, int)>, id: string)
    requires Watched(cp, id) >= 0
    ensures HubCard(cp, id).0 == "Continue Learning" <==> Watched(cp, id) > 0
    ensures 0 <= HubCard(cp, id).1 <= 100
  {
    PercentPositive(Watched(cp, id), ModuleMax(id));
  }

  // ---------------------------------------------------------------- the quiz

  datatype QuizQuestion = QuizQuestion(question: string, options: seq<string>, answerIndex: int)

  /** `options[k]`, or nothing (`undefined`) when `k` is out of range. */
  function OptionAt(options: seq<string>, k: int): Option<string> {
    if 0 <= k < |options| then Some(options[k]) else None
  }

  /**
   * A question with its options in the order `shuffled` (any rearrangement
   * of them): the answer index is re-pointed at the correct option's text, or
   * is -1 when the original index pointed at no option.
   */
  function Reshuffle(q: QuizQuestion, shuffled: seq<string>): (r: QuizQuestion)
    requires multiset(shuffled) == multiset(q.options)
    ensures r.question == q.question
    ensures r.options == shuffled && multiset(r.options) == multiset(q.options)
    ensures OptionAt(r.options, r.answerIndex) == OptionAt(q.options, q.answerIndex)
  {
    match OptionAt(q.options, q.answerIndex)
    case None => q.(options := shuffled, answerIndex := -1)
    case Some(text) =>
      assert text in multiset(q.options);
      q.(options := shuffled, answerIndex := IndexOf(shuffled, text))
  }

  const QuizLength := 20

  /** What a question's answer counts as when the quiz ends. */
  datatype Mark = Right | Skip | Wrong

  /** `userAnswers[i]`; a position never answered is `undefined`. */
  function AnswerAt(answers: seq<Option<int>>, i: nat): Option<int> {
    if i < |answers| then answers[i] else None
  }

  /** Right when the answer is the answer index, skipped when there is none, else wrong. */
  function MarkOf(q: QuizQuestion, a: Option<int>): Mark {
    if a == Some(q.answerIndex) then Right else if a.None? then Skip else Wrong
  }

  function Marks(qs: seq<QuizQuestion>, answers: seq<Option<int>>): (ms: seq<Mark>)
    ensures |ms| == |qs|
  {
    seq(|qs|, i requires 0 <= i < |qs| => MarkOf(qs[i], AnswerAt(answers, i)))
  }

  function Count(ms: seq<Mark>, m: Mark): (n: nat)
    ensures n <= |ms|
    decreases |ms|
  {
    if ms == [] then 0 else Count(ms[..|ms| - 1], m) + (if ms[|ms| - 1] == m then 1 else 0)
  }

  /** Every question is exactly one of right, skipped or wrong. */
  lemma {:induction false} CountsPartition(ms: seq<Mark>)
    ensures Count(ms, Right) + Count(ms, Skip) + Count(ms, Wrong) == |ms|
    decreases |ms|
  {
    if ms != [] {
      CountsPartition(ms[..|ms| - 1]);
    }
  }

  /** `Math.round(score / total * 100)`; with no questions it is `NaN`, here nothing. */
  function QuizPercent(score: nat, total: nat): Option<int> {
    if total == 0 then None else Some(Round(score as real / total as real * 100.0))
  }

  /** `percentage >= 70` (false for `NaN`). */
  predicate Passed(percentage: Option<int>) {
    percentage.Some? && percentage.value >= 70
  }

  /** A quiz is passed exactly when at least 69.5% of it is right: 14 of 20. */
  lemma PassMark(score: nat, total: nat)
    ensures Passed(QuizPercent(score, total)) <==> total > 0 && 200 * score >= 139 * total
    ensures Passed(QuizPercent(14, 20)) && !Passed(QuizPercent(13, 20))
  {
    if total > 0 {
      var x := score as real / total as real * 100.0;
      assert x * total as real == 100.0 * score as real;
      if 200 * score >= 139 * total {
        assert x >= 69.5;
      } else {
        assert x < 69.5;
      }
    }
    assert 13.0 / 20.0 * 100.0 == 65.0;
  }

  datatype Outcome = Outcome(correct: nat, incorrect: nat, skipped: nat, percentage: Option<int>)

  /** The outcome of a quiz with these questions and answers. */
  function Result(qs: seq<QuizQuestion>, answers: seq<Option<int>>): (o: Outcome)
    ensures o.correct + o.incorrect + o.skipped == |qs|
  {
    var ms := Marks(qs, answers);
    CountsPartition(ms);
    Outcome(Count(ms, Right), Count(ms, Wrong), Count(ms, Skip), QuizPercent(Count(ms, Right), |qs|))
  }

  /** The reward of a finished quiz: 50 xp and one point per right answer, and a module if passed. */
  function Rewarded(p: Auth.Progress, score: nat, passed: bool): (r: Auth.Progress)
    ensures r.xp == p.xp + 50 * score && r.totalScore == p.totalScore + score
    ensures r.modulesCompleted == p.modulesCompleted + (if passed then 1 else 0)
    ensures r.interviews == p.interviews && r.level == p.level && r.courseProgress == p.courseProgress
    ensures r.streak == p.streak && r.lastActivity == p.lastActivity
  {
    p.(xp := p.xp + score * 50,
       totalScore := p.totalScore + score,
       modulesCompleted := p.modulesCompleted + (if passed then 1 else 0))
  }

  /** The stored records after a quiz with outcome `o` is saved for `user`. */
  function AfterQuiz(items: map<string, Auth.Progress>, user: Option<Auth.User>, o: Outcome): map<string, Auth.Progress> {
    match user
    case None => items
    case Some(u) =>
      var key := Auth.ProgressKey(u.email);
      var p := if key in items then items[key] else Auth.Default;
      items[key := Auth.LevelUp(Rewarded(p, o.correct, Passed(o.percentage)))]
  }

  /** The quiz in progress: its questions, the cursor and the answers given. */
  class QuizSession {
    var questions: seq<QuizQuestion>
    var cursor: nat
    var answers: seq<Option<int>>

    constructor ()
      ensures questions == [] && cursor == 0 && answers == []
    {
      questions, cursor, answers := [], 0, [];
    }

    /**
     * `startQuiz()` for module `moduleId` with its question file `data`:
     * nothing without an open module or without questions; otherwise the
     * first 20 questions of `order` (a rearrangement of `data`), each with
     * its options rearranged as in `optionOrders`, the cursor at the start
     * and no answers.
     */
    method StartQuiz(moduleId: Option<string>, data: seq<QuizQuestion>, order: seq<QuizQuestion>, optionOrders: seq<seq<string>>)
      returns (started: bool)
      requires multiset(order) == multiset(data)
      requires |optionOrders| >= Min(QuizLength, |order|)
      requires forall i :: 0 <= i < Min(QuizLength, |order|) ==> multiset(optionOrders[i]) == multiset(order[i].options)
      modifies this
      ensures started <==> moduleId.Some? && data != []
      ensures !started ==> questions == old(questions) && cursor == old(cursor) && answers == old(answers)
      ensures started ==>
                && |questions| == Min(QuizLength, |order|) == Min(QuizLength, |data|) > 0
                && (forall i :: 0 <= i < |questions| ==> order[i] in data && questions[i] == Reshuffle(order[i], optionOrders[i]))
                && cursor == 0
                && |answers| == |questions| && (forall i :: 0 <= i < |answers| ==> answers[i].None?)
    {
      if moduleId.None? || data == [] {
        return false;
      }
      assert |order| == |data| by {
        assert |multiset(order)| == |multiset(data)|;
      }
      var selected := Take(order, QuizLength);
      var n := |selected|;
      questions := seq(n, i requires 0 <= i < n => Reshuffle(selected[i], optionOrders[i]));
      forall i | 0 <= i < n
        ensures order[i] in data
      {
        assert order[i] in multiset(data);
      }
      cursor := 0;
      answers := seq(n, _ => None);
      return true;
    }

    /**
     * `selectAnswer(k)`: the answer at the cursor becomes `k` and no other
     * answer changes (positions skipped over when the cursor is past the
     * end stay unanswered).
     */
    method SelectAnswer(k: int)
      modifies this
      ensures questions == old(questions) && cursor == old(cursor)
      ensures |answers| == Max(|old(answers)|, cursor + 1)
      ensures answers[cursor] == Some(k)
      ensures forall i :: 0 <= i < |answers| && i != cursor ==> answers[i] == AnswerAt(old(answers), i)
    {
      if cursor < |answers| {
        answers := answers[cursor := Some(k)];
      } else {
        answers := answers + seq(cursor - |answers|, _ => None) + [Some(k)];
      }
    }

    /** `finishQuiz()`: tally the answers and save the reward for the signed-in user. */
    method Finish(store: Auth.Store) returns (o: Outcome)
      modifies store
      ensures o == Result(questions, answers)
      ensures store.currentUser == old(store.currentUser)
      ensures store.items == AfterQuiz(old(store.items), old(store.currentUser), o)
    {
      o := Tally(questions, answers);
      var authData := store.GetProgress();
      if authData.Some? {
        var p := Rewarded(authData.value, o.correct, Passed(o.percentage));
        var saved := store.SaveProgress(Auth.Whole(p));
        Auth.MergeLaws(authData.value, p, Auth.Whole(p), []);
      }
    }

    /** `loadQuizQuestion(cursor)`: a cursor past the last question ends the quiz. */
    method Load(store: Auth.Store) returns (outcome: Option<Outcome>)
      modifies store
      ensures outcome.Some? <==> cursor >= |questions|
      ensures outcome.Some? ==> outcome.value == Result(questions, answers)
      ensures store.currentUser == old(store.currentUser)
      ensures store.items == if outcome.Some? then AfterQuiz(old(store.items), old(store.currentUser), outcome.value) else old(store.items)
    {
      if cursor >= |questions| {
        var o := Finish(store);
        return Some(o);
      }
      return None;
    }

    /** `nextQuestion()`: the cursor moves on, ending the quiz after the last question. */
    method Next(store: Auth.Store) returns (outcome: Option<Outcome>)
      modifies this, store
      ensures questions == old(questions) && answers == old(answers)
      ensures cursor == old(cursor) + 1
      ensures outcome.Some? <==> cursor >= |questions|
      ensures outcome.Some? ==> outcome.value == Result(questions, answers)
      ensures store.currentUser == old(store.currentUser)
      ensures store.items == if outcome.Some? then AfterQuiz(old(store.items), old(store.currentUser), outcome.value) else old(store.items)
    {
      cursor := cursor + 1;
      outcome := Load(store);
    }

    /** `prevQuestion()`: the cursor moves back, except at the first question. */
    method Prev(store: Auth.Store) returns (outcome: Option<Outcome>)
      modifies this, store
      ensures questions == old(questions) && answers == old(answers)
      ensures cursor == if old(cursor) > 0 then old(cursor) - 1 else 0
      ensures outcome.Some? <==> old(cursor) > 0 && cursor >= |questions|
      ensures outcome.Some? ==> outcome.value == Result(questions, answers)
      ensures store.currentUser == old(store.currentUser)
      ensures store.items == if outcome.Some? then AfterQuiz(old(store.items), old(store.currentUser), outcome.value) else old(store.items)
    {
      if cursor > 0 {
        cursor := cursor - 1;
        outcome := Load(store);
      } else {
        outcome := None;
      }
    }
  }

  /** The tally loop of `finishQuiz`. */
  method Tally(qs: seq<QuizQuestion>, answers: seq<Option<int>>) returns (o: Outcome)
    ensures o == Result(qs, answers)
  {
    var correct, incorrect, skipped := 0, 0, 0;
    ghost var ms := Marks(qs, answers);
    for i := 0 to |qs|
      invariant correct == Count(ms[..i], Right)
      invariant incorrect == Count(ms[..i], Wrong)
      invariant skipped == Count(ms[..i], Skip)
    {
      assert ms[..i + 1][..i] == ms[..i];
      var a := AnswerAt(answers, i);
      if a == Some(qs[i].answerIndex) {
        correct := correct + 1;
      } else if a.None? {
        skipped := skipped + 1;
      } else {
        incorrect := incorrect + 1;
      }
    }
    assert ms[..|qs|] == ms;
    o := Outcome(correct, incorrect, skipped, QuizPercent(correct, |qs|));
  }

  /** A quiz with every answer right is passed, and one with none answered is not. */
  lemma AllRightPasses(qs: seq<QuizQuestion>)
    requires qs != []
    ensures Passed(Result(qs, seq(|qs|, i requires 0 <= i < |qs| => Some(qs[i].answerIndex))).percentage)
    ensures !Passed(Result(qs, []).percentage)
  {
    var all := seq(|qs|, i requires 0 <= i < |qs| => Some(qs[i].answerIndex));
    CountAll(Marks(qs, all), Right);
    CountAll(Marks(qs, []), Skip);
    CountsPartition(Marks(qs, []));
    PassMark(|qs|, |qs|);
    PassMark(0, |qs|);
  }

  lemma {:induction false} CountAll(ms: seq<Mark>, m: Mark)
    requires forall i :: 0 <= i < |ms| ==> ms[i] == m
    ensures Count(ms, m) == |ms|
    decreases |ms|
  {
    if ms != [] {
      CountAll(ms[..|ms| - 1], m);
    }
  }
}
