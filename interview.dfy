/**
 * The mock interview: a session of questions opened by a fixed introduction,
 * answers built up from speech transcripts, a keyword score per answer, a
 * cursor that ends the interview after the last question, and the final
 * percentage and transcript that are saved with the user's progress.
 */
module Interview {
  import opened Wrappers
  import opened Text
  import opened Lists
  import opened Numeric
  import Auth
  import Parser

  datatype Question = Question(question: string, keywords: Option<seq<string>>, idealAnswer: Option<string>)

  // ---------------------------------------------------------------- the question list

  /** Whether a question is an introduction the session already asks first. */
  predicate IsIntro(q: Question) {
    var text := ToLower(q.question);
    Contains(text, "introduce yourself") || Contains(text, "tell me about yourself")
  }

  predicate NotIntro(q: Question) {
    !IsIntro(q)
  }

  const MaxAsked := 60

  const GreetingStart := "Hello! I'm Sarah, your AI interviewer for "
  const GreetingMiddle := ". We'll be doing a "
  const GreetingEnd := " interview today. Let's start by getting to know you."
  const IntroRequest := " Please introduce yourself and walk me through your background."
  const IntroKeywords := ["experience", "background", "role", "skills", "projects"]
  const IntroIdeal := "Candidate should briefly describe their educational background, key work experiences, "
    + "relevant skills, and current role, demonstrating clear communication."

  /** The greeting and introduction that always open the session. */
  function Intro(company: string, kind: string): Question {
    Question(GreetingStart + ToUpper(company) + GreetingMiddle + kind + GreetingEnd + IntroRequest, Some(IntroKeywords), Some(IntroIdeal))
  }

  /** The single question used when the question file cannot be loaded. */
  const Fallback := Question("Tell me about yourself.", Some(["experience"]), Some("..."))

  /** What fetching the question file gave: an error, or its questions. */
  datatype Fetched = Failed | Loaded(items: seq<Question>)

  // ---------------------------------------------------------------- answers

  /** `userAnswers[i] || ""`: the answer recorded for question `i`, empty if none. */
  function AnswerAt(answers: seq<string>, i: nat): string {
    if i < |answers| then answers[i] else ""
  }

  /** `answer.toLowerCase().trim()`. */
  function Normalize(answer: string): string {
    JsTrim(ToLower(answer))
  }

  /** An answer that admits not knowing, passes, skips, or is shorter than five characters. */
  predicate IsDontKnow(answer: string) {
    var n := Normalize(answer);
    Contains(n, "don't know") || Contains(n, "no idea") || Contains(n, "pass") || Contains(n, "skip") || |n| < 5
  }

  /** The number of keywords the normalised answer contains, ignoring their case. */
  function Matches(normalized: string, keywords: seq<string>): (n: nat)
    ensures n <= |keywords|
    decreases |keywords|
  {
    if keywords == [] then 0
    else Matches(normalized, keywords[..|keywords| - 1]) + (if Contains(normalized, ToLower(keywords[|keywords| - 1])) then 1 else 0)
  }

  /** The keyword loop of `stopRecording`. */
  method CountMatches(normalized: string, keywords: seq<string>) returns (matchCount: nat)
    ensures matchCount == Matches(normalized, keywords)
  {
    matchCount := 0;
    for i := 0 to |keywords|
      invariant matchCount == Matches(normalized, keywords[..i])
    {
      assert keywords[..i + 1][..i] == keywords[..i];
      if Contains(normalized, ToLower(keywords[i])) {
        matchCount := matchCount + 1;
      }
    }
    assert keywords[..|keywords|] == keywords;
  }

  /** A keyword list the answer wholly covers scores the full count. */
  lemma {:induction false} AllMatched(normalized: string, keywords: seq<string>)
    requires forall k :: k in keywords ==> Contains(normalized, ToLower(k))
    ensures Matches(normalized, keywords) == |keywords|
    decreases |keywords|
  {
    if keywords != [] {
      var n := |keywords| - 1;
      assert forall k :: k in keywords[..n] ==> k in keywords;
      AllMatched(normalized, keywords[..n]);
    }
  }

  /**
   * `matchCount / keywords.length * 100` with an empty list scoring 0: the
   * share of the keywords the answer hit, in percent.
   */
  function Gain(matched: nat, total: nat): (g: real)
    requires matched <= total
    ensures 0.0 <= g <= 100.0
    ensures g == 100.0 <==> total > 0 && matched == total
    ensures g == 0.0 <==> matched == 0
  {
    if total == 0 then 0.0 else matched as real / total as real * 100.0
  }

  /**
   * What an answer adds to the score: nothing for a "don't know" answer or a
   * question without keywords, else the share of the keywords it mentions.
   */
  function ScoreAnswer(q: Question, answer: string): (g: real)
    ensures 0.0 <= g <= 100.0
    ensures IsDontKnow(answer) || q.keywords.None? ==> g == 0.0
  {
    if IsDontKnow(answer) then 0.0
    else match q.keywords
      case None => 0.0
      case Some(kws) => Gain(Matches(Normalize(answer), kws), |kws|)
  }

  /** An answer that is not a "don't know" and mentions every keyword scores 100. */
  lemma FullMarks(q: Question, answer: string)
    requires !IsDontKnow(answer) && q.keywords.Some? && q.keywords.value != []
    requires forall k :: k in q.keywords.value ==> Contains(Normalize(answer), ToLower(k))
    ensures ScoreAnswer(q, answer) == 100.0
  {
    AllMatched(Normalize(answer), q.keywords.value);
  }

  /** The score question `i` earns with the answers so far; nothing past the last question. */
  function ScoreAt(qs: seq<Question>, answers: seq<string>, i: nat): (g: real)
    ensures 0.0 <= g <= 100.0
    ensures i >= |qs| ==> g == 0.0
  {
    if i < |qs| then ScoreAnswer(qs[i], AnswerAt(answers, i)) else 0.0
  }

  // ---------------------------------------------------------------- the end

  /** `Math.round(score / (questions.length * 100) * 100)`, or 0 without questions. */
  function FinalPercent(score: real, n: nat): (p: int)
    ensures n == 0 ==> p == 0
    ensures 0.0 <= score <= 100.0 * n as real ==> 0 <= p <= 100
  {
    if n * 100 > 0 then
      var x := score / (n * 100) as real * 100.0;
      assert 0.0 <= score <= 100.0 * n as real ==> 0.0 <= x <= 100.0 by {
        assert x * (n * 100) as real == score * 100.0;
      }
      Round(x)
    else 0
  }

  /** The score saved with the interview: the percentage when positive, else 0. */
  function Saved(percent: int): (s: nat)
    ensures s == if percent > 0 then percent else 0
  {
    if percent > 0 then percent else 0
  }

  /** One block of the transcript. */
  function Entry(q: Question, answer: string): string {
    "Q: " + q.question + "\nA: " + (if answer == "" then "No answer" else answer)
  }

  /** The questions asked so far (up to the cursor), each with its answer or "No answer". */
  function Entries(qs: seq<Question>, answers: seq<string>, index: nat): (es: seq<string>)
    ensures |es| == Min(index + 1, |qs|)
    ensures forall i :: 0 <= i < |es| ==> es[i] == Entry(qs[i], AnswerAt(answers, i))
  {
    var asked := Take(qs, index + 1);
    seq(|asked|, i requires 0 <= i < |asked| => Entry(asked[i], AnswerAt(answers, i)))
  }

  function Transcript(qs: seq<Question>, answers: seq<string>, index: nat): string {
    Join(Entries(qs, answers, index), "\n---\n")
  }

  datatype Summary = Summary(finalPercent: int, transcript: string, questionCount: nat)

  /** The stored records after the interview is saved with score `saved` for `user`. */
  function AfterInterview(items: map<string, Auth.Progress>, user: Option<Auth.User>, saved: int, company: string, kind: string, now: string)
    : map<string, Auth.Progress>
  {
    match user
    case None => items
    case Some(u) =>
      var key := Auth.ProgressKey(u.email);
      var p := if key in items then items[key] else Auth.Default;
      items[key := Auth.LevelUp(Auth.Recorded(p, saved, company, kind, now))]
  }

  /** The stored records after the interview is saved once, or twice when `twice`. */
  function AfterInterviews(items: map<string, Auth.Progress>, user: Option<Auth.User>, saved: int, company: string, kind: string, now: string, twice: bool)
    : map<string, Auth.Progress>
  {
    var once := AfterInterview(items, user, saved, company, kind, now);
    if twice then AfterInterview(once, user, saved, company, kind, now) else once
  }

  /**
   * Saving twice records the interview twice: the signed-in user's history
   * gains two identical entries, and 1000 xp before levelling up.
   */
  lemma SavedTwice(items: map<string, Auth.Progress>, u: Auth.User, saved: int, company: string, kind: string, now: string)
    ensures var key := Auth.ProgressKey(u.email);
            var before := if key in items then items[key] else Auth.Default;
            var after := AfterInterviews(items, Some(u), saved, company, kind, now, true)[key];
            && after.interviews == before.interviews + [Auth.Interview(now, saved, company, kind), Auth.Interview(now, saved, company, kind)]
            && after.modulesCompleted == before.modulesCompleted + 2
            && after.totalScore == before.totalScore + 2 * saved
  {
    var key := Auth.ProgressKey(u.email);
    var before := if key in items then items[key] else Auth.Default;
    var once := AfterInterview(items, Some(u), saved, company, kind, now);
    assert once[key] == Auth.LevelUp(Auth.Recorded(before, saved, company, kind, now));
  }

  // ---------------------------------------------------------------- the timer

  /** The timer's `mm:ss` for `delta` seconds: minutes and seconds, each padded to two digits. */
  function Clock(delta: nat): string {
    PadStart2(NatToString(delta / 60)) + ":" + PadStart2(NatToString(delta % 60))
  }

  /** Padding with zeros does not change the number a digit string reads as. */
  lemma PaddedValue(n: nat)
    ensures AllChars(PadStart2(NatToString(n)), IsAsciiDigit)
    ensures ParseNat(PadStart2(NatToString(n))) == n
  {
    var s := NatToString(n);
    ParseNatToString(n);
    if |s| == 1 {
      ParseLeadingZero(s);
    }
  }

  /** Numbers below 100 have at most two digits. */
  lemma ShortDigits(n: nat)
    requires n < 100
    ensures |NatToString(n)| <= 2
  {
    if n >= 10 {
      assert n / 10 < 10;
      assert |NatToString(n / 10)| == 1;
    }
  }

  /**
   * Below 100 minutes the timer reads `mm:ss`: five characters, the colon in
   * the middle, and the digits on either side read back as the minutes and
   * the seconds.
   */
  lemma ClockReadsBack(delta: nat)
    requires delta < 6000
    ensures |Clock(delta)| == 5 && Clock(delta)[2] == ':'
    ensures AllChars(Clock(delta)[..2], IsAsciiDigit) && ParseNat(Clock(delta)[..2]) == delta / 60
    ensures AllChars(Clock(delta)[3..], IsAsciiDigit) && ParseNat(Clock(delta)[3..]) == delta % 60
  {
    var m, s := PadStart2(NatToString(delta / 60)), PadStart2(NatToString(delta % 60));
    ShortDigits(delta / 60);
    ShortDigits(delta % 60);
    PaddedValue(delta / 60);
    PaddedValue(delta % 60);
    assert Clock(delta) == m + ":" + s;
    assert Clock(delta)[..2] == m;
    assert Clock(delta)[3..] == s;
  }

  // ---------------------------------------------------------------- the session

  class Session {
    var company: string
    var kind: string
    var questions: seq<Question>
    var index: nat
    var score: real
    var answers: seq<string>
    var listening: bool

    /** Each question is scored at most once, for at most 100, before the cursor passes it. */
    predicate Valid()
      reads this
    {
      0.0 <= score <= 100.0 * Min(index, |questions|) as real
    }

    constructor ()
      ensures company == "amazon" && kind == "technical"
      ensures questions == [] && index == 0 && score == 0.0 && answers == [] && !listening
      ensures Valid()
    {
      company, kind := "amazon", "technical";
      questions, index, score, answers, listening := [], 0, 0.0, [], false;
    }

    /** The company and interview type buttons. */
    method Select(company': string, kind': string)
      modifies this
      ensures company == company' && kind == kind'
      ensures questions == old(questions) && index == old(index) && score == old(score)
      ensures answers == old(answers) && listening == old(listening)
    {
      company, kind := company', kind';
    }

    /**
     * `startSession()`: an empty question file changes nothing; a failed
     * fetch gives the single fallback question; otherwise the introduction
     * followed by the first 60 of `order`, a rearrangement of the file's
     * questions without introductions. Either way the session restarts.
     */
    method StartSession(fetched: Fetched, order: seq<Question>) returns (started: bool)
      requires fetched.Loaded? ==> multiset(order) == multiset(Filter(fetched.items, NotIntro))
      modifies this
      ensures company == old(company) && kind == old(kind) && listening == old(listening)
      ensures started <==> !(fetched.Loaded? && fetched.items == [])
      ensures !started ==> questions == old(questions) && index == old(index) && score == old(score) && answers == old(answers)
      ensures started ==> index == 0 && score == 0.0 && answers == []
      ensures started && fetched.Failed? ==> questions == [Fallback]
      ensures started && fetched.Loaded? ==> questions == [Intro(company, kind)] + Take(order, MaxAsked)
      ensures started ==> Valid()
    {
      if fetched.Loaded? && fetched.items == [] {
        return false;
      }
      if fetched.Failed? {
        questions := [Fallback];
      } else {
        questions := [Intro(company, kind)] + Take(order, MaxAsked);
      }
      index, score, answers := 0, 0.0, [];
      return true;
    }

    /**
     * A final transcript piece received while recording is added to the
     * current answer; an empty piece is ignored.
     */
    method Hear(transcript: string)
      modifies this
      ensures company == old(company) && kind == old(kind) && listening == old(listening)
      ensures questions == old(questions) && index == old(index) && score == old(score)
      ensures transcript == "" ==> answers == old(answers)
      ensures transcript != "" ==>
                && |answers| == Max(|old(answers)|, index + 1)
                && answers[index] == AnswerAt(old(answers), index) + transcript + " "
                && forall i :: 0 <= i < |answers| && i != index ==> answers[i] == AnswerAt(old(answers), i)
    {
      if transcript == "" {
        return;
      }
      if index < |answers| {
        answers := answers[index := answers[index] + transcript + " "];
      } else {
        answers := answers + seq(index - |answers|, _ => "") + [transcript + " "];
      }
    }

    /** Recording starts (once the microphone and the transcription socket are open). */
    method StartRecording()
      modifies this
      ensures listening
      ensures company == old(company) && kind == old(kind)
      ensures questions == old(questions) && index == old(index) && score == old(score) && answers == old(answers)
    {
      listening := true;
    }

    /**
     * `stopRecording()`: nothing unless recording; otherwise the current
     * answer is scored (a "don't know" answer scores nothing) and the cursor
     * moves on, ending the interview after the last question.
     */
    method StopRecording(store: Auth.Store, now: string) returns (ended: Option<Summary>)
      requires Valid()
      modifies this, store
      decreases if listening then 1 else 0, 1
      ensures Valid() && !listening
      ensures company == old(company) && kind == old(kind) && questions == old(questions) && answers == old(answers)
      ensures !old(listening) ==> index == old(index) && score == old(score) && ended.None?
      ensures old(listening) ==> index == old(index) + 1 && score == old(score) + ScoreAt(questions, answers, old(index))
      ensures ended.Some? <==> old(listening) && index >= |questions|
      ensures ended.Some? ==> ended.value == Summarize()
      ensures store.currentUser == old(store.currentUser)
      ensures store.items == if ended.Some? then AfterInterview(old(store.items), old(store.currentUser), Saved(ended.value.finalPercent), company, kind, now) else old(store.items)
    {
      if !listening {
        return None;
      }
      listening := false;
      var answer := AnswerAt(answers, index);
      if index >= |questions| {
        ended := MoveNext(store, now);
        return;
      }
      var question := questions[index];
      var normalized := Normalize(answer);
      if IsDontKnow(answer) {
        ended := MoveNext(store, now);
        return;
      }
      if question.keywords.Some? {
        var matchCount := CountMatches(normalized, question.keywords.value);
        score := score + Gain(matchCount, |question.keywords.value|);
      }
      ended := MoveNext(store, now);
    }

    /** The summary the interview ends with, from the current state. */
    function Summarize(): Summary
      reads this
    {
      Summary(FinalPercent(score, |questions|), Transcript(questions, answers, index), |questions|)
    }

    /**
     * `moveToNextQuestion()`: the cursor moves on; past the last question the
     * interview ends, however long it ran. Ending while recording stops the
     * recording first, which moves the cursor once more and saves the
     * interview a second time.
     */
    method MoveNext(store: Auth.Store, now: string) returns (ended: Option<Summary>)
      requires 0.0 <= score <= 100.0 * Min(index + 1, |questions|) as real
      modifies this, store
      decreases if listening then 1 else 0, 3
      ensures Valid()
      ensures company == old(company) && kind == old(kind)
      ensures questions == old(questions) && answers == old(answers) && score == old(score)
      ensures ended.Some? <==> old(index) + 1 >= |questions|
      ensures ended.None? ==> index == old(index) + 1 && listening == old(listening) && store.items == old(store.items)
      ensures ended.Some? ==>
                && index == old(index) + 1 + (if old(listening) then 1 else 0) && !listening
                && ended.value == Summarize()
                && store.items == AfterInterviews(old(store.items), old(store.currentUser), Saved(ended.value.finalPercent), company, kind, now, old(listening))
      ensures store.currentUser == old(store.currentUser)
    {
      index := index + 1;
      if index < |questions| {
        return None;
      }
      var s := EndInterview(store, now);
      return Some(s);
    }

    /**
     * `endInterview()`: a recording in progress is stopped first, scoring the
     * current answer and moving the cursor on, and when that passes the last
     * question it ends (and saves) the interview itself before this call
     * does. Then the final percentage and the transcript, and the interview
     * saved with the percentage (0 when it is not positive).
     */
    method EndInterview(store: Auth.Store, now: string) returns (s: Summary)
      requires Valid()
      modifies this, store
      decreases if listening then 1 else 0, 2
      ensures Valid() && !listening
      ensures company == old(company) && kind == old(kind) && questions == old(questions) && answers == old(answers)
      ensures !old(listening) ==> index == old(index) && score == old(score)
      ensures old(listening) ==> index == old(index) + 1 && score == old(score) + ScoreAt(questions, answers, old(index))
      ensures s == Summarize()
      ensures store.currentUser == old(store.currentUser)
      ensures store.items == AfterInterviews(old(store.items), old(store.currentUser), Saved(s.finalPercent), company, kind, now, old(listening) && index >= |questions|)
    {
      if listening {
        var ended := StopRecording(store, now);
      }
      s := Summarize();
      var ok := store.AddInterviewResult(Saved(s.finalPercent), company, kind, now);
    }
  }

  /** A finished session's percentage is between 0 and 100. */
  lemma SummaryBounded(score: real, n: nat)
    requires 0.0 <= score <= 100.0 * n as real
    ensures 0 <= FinalPercent(score, n) <= 100
    ensures 0 <= Saved(FinalPercent(score, n)) <= 100
  {
  }

  /**
   * The question list a session starts with: the introduction first, then at
   * most 60 questions of the file, none of them an introduction.
   */
  lemma SessionQuestions(company: string, kind: string, items: seq<Question>, order: seq<Question>)
    requires multiset(order) == multiset(Filter(items, NotIntro))
    ensures var qs := [Intro(company, kind)] + Take(order, MaxAsked);
            && qs[0] == Intro(company, kind) && |qs| <= MaxAsked + 1
            && forall i :: 1 <= i < |qs| ==> qs[i] in items && !IsIntro(qs[i])
  {
    var qs := [Intro(company, kind)] + Take(order, MaxAsked);
    forall i | 1 <= i < |qs|
      ensures qs[i] in items && !IsIntro(qs[i])
    {
      assert qs[i] == order[i - 1];
      assert order[i - 1] in multiset(Filter(items, NotIntro));
    }
  }

  // ---------------------------------------------------------------- as written: an empty keyword list

  /** The gain as written: `0 / 0 * 100` is `NaN` (here nothing) for a question with no keywords. */
  function GainAsWritten(matched: nat, total: nat): (g: Option<real>)
    ensures g.None? <==> total == 0
  {
    if total == 0 then None else Some(matched as real / total as real * 100.0)
  }

  /** `score += gain`: once `NaN`, the score stays `NaN`. */
  function AddAsWritten(score: Option<real>, gain: Option<real>): (r: Option<real>)
    ensures r.None? <==> score.None? || gain.None?
  {
    if score.Some? && gain.Some? then Some(score.value + gain.value) else None
  }

  /** The saved score as written: `Math.round(NaN)` is `NaN`, and `NaN > 0` is false, so 0 is saved. */
  function SavedAsWritten(score: Option<real>, n: nat): (s: int)
    ensures score.None? ==> s == 0
  {
    match score
    case None => 0
    case Some(x) => Saved(FinalPercent(x, n))
  }

  /**
   * As written, one answered question without keywords wipes out the whole
   * interview: whatever the other answers scored, 0 is saved. Question files
   * hold such questions: the importer keeps only words longer than four
   * characters, and "What is OOP?" has none.
   */
  lemma EmptyKeywordsZeroAsWritten(before: real, after: seq<real>, n: nat)
    ensures SavedAsWritten(AddAll(AddAsWritten(Some(before), GainAsWritten(0, 0)), after), n) == 0
    ensures Parser.Keywords("What is OOP?") == []
  {
    NaNSticks(after);
    Parser.ShortQuestionNoKeywords();
  }

  /** The later gains added to the score as written. */
  function AddAll(score: Option<real>, gains: seq<real>): Option<real>
    decreases |gains|
  {
    if gains == [] then score else AddAll(AddAsWritten(score, Some(gains[0])), gains[1..])
  }

  lemma {:induction false} NaNSticks(gains: seq<real>)
    ensures AddAll(None, gains) == None
    decreases |gains|
  {
    if gains != [] {
      NaNSticks(gains[1..]);
    }
  }

  /**
   * An answer's contribution as written: the corrected score, except that an
   * answered question with an empty keyword list gives `NaN` (nothing).
   */
  function ScoreAnswerAsWritten(q: Question, answer: string): (g: Option<real>)
    ensures g.None? <==> !IsDontKnow(answer) && q.keywords == Some([])
    ensures g.Some? ==> g.value == ScoreAnswer(q, answer)
  {
    if IsDontKnow(answer) then Some(0.0)
    else match q.keywords
      case None => Some(0.0)
      case Some(kws) => GainAsWritten(Matches(Normalize(answer), kws), |kws|)
  }

  /** The corrected gain adds nothing for such a question, so the other answers still count. */
  lemma EmptyKeywordsCorrected(q: Question, answer: string)
    requires q.keywords == Some([])
    ensures ScoreAnswer(q, answer) == 0.0
  {
  }
}
