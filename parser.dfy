/**
 * `parse_file` of the interview-data importer: reads a company's question
 * file line by line, switches between the technical and the HR section on
 * header lines, skips blank lines, decoration and sub-headers, and numbers the
 * questions of each section 1, 2, 3, … as it goes.
 */
module Parser {
  import opened Wrappers
  import opened Text
  import opened Lists

  datatype Section = Technical | Hr

  /** What one line of the file is, once stripped. */
  datatype LineKind = Blank | Header(section: Section) | Skipped | QuestionLine(text: string)

  datatype Question = Question(id: nat, question: string, keywords: seq<string>, idealAnswer: string)

  const IdealAnswer := "Explain fully. Focus on key concepts."

  /** Whether some character has a code above 127 (the emoji of sub-headers). */
  predicate HasNonAscii(s: string) {
    exists i :: 0 <= i < |s| && s[i] as int > 127
  }

  /**
   * The branches of the loop body, in their order: headers are recognised
   * before anything is skipped, so a header decorated with an emoji still
   * switches the section.
   */
  function Classify(raw: string): LineKind {
    var line := PyStrip(raw);
    if line == "" then Blank
    else if Contains(line, "CORE TECHNICAL") then Header(Technical)
    else if Contains(line, "HR") && (Contains(line, "Infosys") || Contains(line, "TCS")) then Header(Hr)
    else if Contains(line, "Managerial Round") then Header(Hr)
    else if StartsWith(line, "\U{2705}") then Skipped
    else if HasNonAscii(line) then Skipped
    else if StartsWith(line, "(") then Skipped
    else QuestionLine(line)
  }

  predicate LongWord(w: string) {
    |w| > 4
  }

  /** `[w for w in line.split() if len(w) > 4]`. */
  function Keywords(line: string): seq<string> {
    Filter(PyWords(line), LongWord)
  }

  /** The loop's state: the current section and the two lists so far. */
  datatype State = State(section: Option<Section>, technical: seq<Question>, hr: seq<Question>)

  const Start := State(None, [], [])

  /** One turn of the loop, on a line of the given kind. */
  function Step(st: State, kind: LineKind): State {
    match kind
    case Blank => st
    case Skipped => st
    case Header(s) => st.(section := Some(s))
    case QuestionLine(text) =>
      match st.section
      case None => st
      case Some(Technical) => st.(technical := st.technical + [Question(|st.technical| + 1, text, Keywords(text), IdealAnswer)])
      case Some(Hr) => st.(hr := st.hr + [Question(|st.hr| + 1, text, Keywords(text), IdealAnswer)])
  }

  /** The state after the loop has gone through lines of these kinds. */
  function Run(kinds: seq<LineKind>): State
    decreases |kinds|
  {
    if kinds == [] then Start else Step(Run(kinds[..|kinds| - 1]), kinds[|kinds| - 1])
  }

  function Kinds(lines: seq<string>): (ks: seq<LineKind>)
    ensures |ks| == |lines| && forall i :: 0 <= i < |lines| ==> ks[i] == Classify(lines[i])
  {
    seq(|lines|, i requires 0 <= i < |lines| => Classify(lines[i]))
  }

  /** The state after the loop has read `lines`. */
  function Parse(lines: seq<string>): State {
    Run(Kinds(lines))
  }

  /**
   * `parse_file` after the file has been read into `lines`: the loop with its
   * section and its two id counters.
   */
  method ParseFile(lines: seq<string>) returns (technical: seq<Question>, hr: seq<Question>)
    ensures technical == Parse(lines).technical && hr == Parse(lines).hr
  {
    technical, hr := [], [];
    var current: Option<Section> := None;
    var qIdTech, qIdHr := 1, 1;
    ghost var kinds := Kinds(lines);
    for i := 0 to |lines|
      invariant Run(kinds[..i]) == State(current, technical, hr)
      invariant qIdTech == |technical| + 1 && qIdHr == |hr| + 1
    {
      assert kinds[..i + 1] == kinds[..i] + [kinds[i]];
      current, technical, hr, qIdTech, qIdHr := HandleLine(lines[i], current, technical, hr, qIdTech, qIdHr);
    }
    assert kinds[..|lines|] == kinds;
  }

  /** The loop body on one line: a header moves the section, a question joins its section's list. */
  method HandleLine(raw: string, current: Option<Section>, technical: seq<Question>, hr: seq<Question>, qIdTech: nat, qIdHr: nat)
    returns (current': Option<Section>, technical': seq<Question>, hr': seq<Question>, qIdTech': nat, qIdHr': nat)
    requires qIdTech == |technical| + 1 && qIdHr == |hr| + 1
    ensures State(current', technical', hr') == Step(State(current, technical, hr), Classify(raw))
    ensures qIdTech' == |technical'| + 1 && qIdHr' == |hr'| + 1
  {
    current', technical', hr', qIdTech', qIdHr' := current, technical, hr, qIdTech, qIdHr;
    match Classify(raw)
    case Blank =>
    case Skipped =>
    case Header(section) =>
      current' := Some(section);
    case QuestionLine(line) =>
      var q := Question(0, line, Keywords(line), IdealAnswer);
      if current == Some(Technical) {
        q := q.(id := qIdTech);
        technical' := technical + [q];
        qIdTech' := qIdTech + 1;
      } else if current == Some(Hr) {
        q := q.(id := qIdHr);
        hr' := hr + [q];
        qIdHr' := qIdHr + 1;
      }
  }

  // ---------------------------------------------------------------- properties

  predicate Numbered(qs: seq<Question>) {
    forall i :: 0 <= i < |qs| ==> qs[i].id == i + 1
  }

  /** Each section's ids run 1, 2, …, n, on their own counter. */
  lemma {:induction false} RunNumbers(kinds: seq<LineKind>)
    ensures Numbered(Run(kinds).technical) && Numbered(Run(kinds).hr)
    decreases |kinds|
  {
    if kinds != [] {
      RunNumbers(kinds[..|kinds| - 1]);
    }
  }

  /** No line yields more than one question: there are never more questions than lines. */
  lemma {:induction false} RunCount(kinds: seq<LineKind>)
    ensures |Run(kinds).technical| + |Run(kinds).hr| <= |kinds|
    decreases |kinds|
  {
    if kinds != [] {
      RunCount(kinds[..|kinds| - 1]);
    }
  }

  /**
   * Every question comes from a question line of the file: its text is that
   * stripped line, its keywords the line's words longer than four characters,
   * and its ideal answer the fixed one.
   */
  predicate FromLines(qs: seq<Question>, kinds: seq<LineKind>) {
    forall q :: q in qs ==> QuestionLine(q.question) in kinds && q.keywords == Keywords(q.question) && q.idealAnswer == IdealAnswer
  }

  lemma {:induction false} RunSources(kinds: seq<LineKind>)
    ensures FromLines(Run(kinds).technical, kinds) && FromLines(Run(kinds).hr, kinds)
    decreases |kinds|
  {
    if kinds != [] {
      var n := |kinds| - 1;
      var prev := Run(kinds[..n]);
      RunSources(kinds[..n]);
      assert forall k :: k in kinds[..n] ==> k in kinds;
      assert FromLines(prev.technical, kinds) && FromLines(prev.hr, kinds);
    }
  }

  /**
   * What `parse_file` promises of its two lists: ids 1 to n in each, no more
   * questions than lines, and every question a question line of the file with
   * its keywords and the fixed ideal answer.
   */
  lemma ParseFacts(lines: seq<string>)
    ensures Numbered(Parse(lines).technical) && Numbered(Parse(lines).hr)
    ensures |Parse(lines).technical| + |Parse(lines).hr| <= |lines|
    ensures FromLines(Parse(lines).technical, Kinds(lines)) && FromLines(Parse(lines).hr, Kinds(lines))
  {
    var kinds := Kinds(lines);
    RunNumbers(kinds);
    RunCount(kinds);
    RunSources(kinds);
  }

  // ---------------------------------------------------------------- what the lists hold

  /** The section named by the last header among the first `n` lines, if any. */
  function SectionAt(kinds: seq<LineKind>, n: nat): Option<Section>
    requires n <= |kinds|
  {
    if n == 0 then None
    else if kinds[n - 1].Header? then Some(kinds[n - 1].section)
    else SectionAt(kinds, n - 1)
  }

  /** The positions, among the first `n`, of the question lines that follow a header of section `s` most recently. */
  function Under(kinds: seq<LineKind>, s: Section, n: nat): (idx: seq<nat>)
    requires n <= |kinds|
    ensures forall j :: 0 <= j < |idx| ==> idx[j] < n && kinds[idx[j]].QuestionLine? && SectionAt(kinds, idx[j]) == Some(s)
    ensures forall j, k :: 0 <= j < k < |idx| ==> idx[j] < idx[k]
    ensures forall i :: 0 <= i < n && kinds[i].QuestionLine? && SectionAt(kinds, i) == Some(s) ==> i in idx
  {
    if n == 0 then []
    else if kinds[n - 1].QuestionLine? && SectionAt(kinds, n - 1) == Some(s) then Under(kinds, s, n - 1) + [n - 1]
    else Under(kinds, s, n - 1)
  }

  /** Those question lines, in file order, numbered from 1. */
  function Listed(kinds: seq<LineKind>, s: Section, n: nat): (qs: seq<Question>)
    requires n <= |kinds|
  {
    var idx := Under(kinds, s, n);
    seq(|idx|, j requires 0 <= j < |idx| => var text := kinds[idx[j]].text; Question(j + 1, text, Keywords(text), IdealAnswer))
  }

  /**
   * After the first `n` lines the loop is in the section of the last header
   * read, and each list holds exactly the question lines under that
   * section's headers, in file order, numbered from 1: no question is lost,
   * added or moved.
   */
  lemma {:induction false} RunListed(kinds: seq<LineKind>, n: nat)
    requires n <= |kinds|
    ensures Run(kinds[..n]) == State(SectionAt(kinds, n), Listed(kinds, Technical, n), Listed(kinds, Hr, n))
  {
    if n > 0 {
      RunListed(kinds, n - 1);
      assert kinds[..n][..n - 1] == kinds[..n - 1];
      var prev := Run(kinds[..n - 1]);
      assert Run(kinds[..n]) == Step(prev, kinds[n - 1]);
      ListedGrows(kinds, Technical, n);
      ListedGrows(kinds, Hr, n);
    }
  }

  /** The numbered list of a section gains the `n`-th line exactly when it is one of its questions. */
  lemma ListedGrows(kinds: seq<LineKind>, s: Section, n: nat)
    requires 0 < n <= |kinds|
    ensures kinds[n - 1].QuestionLine? && SectionAt(kinds, n - 1) == Some(s) ==>
              var text := kinds[n - 1].text;
              Listed(kinds, s, n) == Listed(kinds, s, n - 1) + [Question(|Listed(kinds, s, n - 1)| + 1, text, Keywords(text), IdealAnswer)]
    ensures !(kinds[n - 1].QuestionLine? && SectionAt(kinds, n - 1) == Some(s)) ==> Listed(kinds, s, n) == Listed(kinds, s, n - 1)
  {
  }

  /** `parse_file`'s two lists are exactly the question lines under technical and HR headers. */
  lemma ParseListed(lines: seq<string>)
    ensures Parse(lines).technical == Listed(Kinds(lines), Technical, |lines|)
    ensures Parse(lines).hr == Listed(Kinds(lines), Hr, |lines|)
  {
    var kinds := Kinds(lines);
    RunListed(kinds, |lines|);
    assert kinds[..|lines|] == kinds;
  }

  /** Questions read before any section header are dropped from both lists. */
  lemma {:induction false} NoHeaderNoQuestions(kinds: seq<LineKind>)
    requires forall k :: k in kinds ==> !k.Header?
    ensures Run(kinds) == Start
    decreases |kinds|
  {
    if kinds != [] {
      assert forall k :: k in kinds[..|kinds| - 1] ==> k in kinds;
      NoHeaderNoQuestions(kinds[..|kinds| - 1]);
    }
  }

  /** A header decorated with an emoji still switches the section. */
  lemma EmojiHeader()
    ensures Classify("\U{2705} CORE TECHNICAL QUESTIONS") == Header(Technical)
  {
    var line := "\U{2705} CORE TECHNICAL QUESTIONS";
    TrimUnchanged(line, IsPySpace);
    assert forall j :: 0 <= j < 14 ==> line[2 + j] == "CORE TECHNICAL"[j];
    assert line[2..16] == "CORE TECHNICAL";
    ContainsAt(line, "CORE TECHNICAL", 2);
  }

  /** A line opened by an emoji other than a header's is a skipped sub-header. */
  lemma EmojiSubheader()
    ensures Classify("\U{1F9E0} Programming Fundamentals") == Skipped
  {
    var line := "\U{1F9E0} Programming Fundamentals";
    TrimUnchanged(line, IsPySpace);
    MissingFirstChar(line, "CORE TECHNICAL");
    MissingFirstChar(line, "HR");
    MissingFirstChar(line, "Managerial Round");
    assert line[0] as int > 127;
  }

  /** Python splits "What is OOP?" into three words of at most four characters. */
  lemma ShortQuestionWords()
    ensures PyWords("What is OOP?") == ["What", "is", "OOP?"]
  {
    WhatWord();
    IsOopWords();
  }

  lemma WhatWord()
    ensures Runs("What is OOP?", NotPySpace) == ["What"] + Runs("is OOP?", NotPySpace)
  {
    var s := "What is OOP?";
    RunLengthPrefix("What", " is OOP?", NotPySpace);
    assert s == "What" + " is OOP?";
    assert s[4..] == " is OOP?" && s[5..] == "is OOP?";
  }

  lemma IsOopWords()
    ensures Runs("is OOP?", NotPySpace) == ["is", "OOP?"]
  {
    RunLengthPrefix("is", " OOP?", NotPySpace);
    assert "is OOP?" == "is" + " OOP?";
    assert "is OOP?"[2..] == " OOP?" && "is OOP?"[3..] == "OOP?";
    OopWord();
  }

  lemma OopWord()
    ensures Runs("OOP?", NotPySpace) == ["OOP?"]
  {
    RunLengthPrefix("OOP?", "", NotPySpace);
    assert "OOP?" == "OOP?" + "";
  }

  /** A line whose words all have at most four characters yields no keywords. */
  lemma NoLongWords(line: string)
    requires forall w :: w in PyWords(line) ==> |w| <= 4
    ensures Keywords(line) == []
  {
    FilterNone(PyWords(line), LongWord);
  }

  /** A question made only of words of at most four characters yields no keywords: "What is OOP?". */
  lemma ShortQuestionNoKeywords()
    ensures Keywords("What is OOP?") == []
  {
    ShortQuestionWords();
    NoLongWords("What is OOP?");
  }
}
