# Selectra-AI core, modelled in Dafny

Selectra-AI is an interview-preparation web application. This project models
its core and proves properties of the model:

- the code judge behind `/api/submit-code`, with its `isEqual` comparison, its
  entry-point detection and its test-case catalog (`backend/server.js`,
  `backend/test_cases.js`);
- the Gemini helpers: the API-key round-robin cursor (`getGenAIClient`) and
  the de-duplicated model fallback list (`callGemini`);
- the rule-based resume analysis (`analyzeResumeRuleBased`);
- the interview-file parser (`parse_file` in `data/interviews/generic_parser.py`);
- the browser modules: sign-in and progress records (`auth.js`), the learning
  hub with its playlists, locks and quiz (`learning.js`), the mock interview
  session (`interview.js`), the dashboard (`dashboard.js`) and the coding
  arena (`arena.js`).

There is one module per file:

- `Wrappers`, `Text`, `Numeric` and `Lists` are shared helpers.
  - `Text` models JavaScript `trim`, `toLowerCase`, `toUpperCase`, `includes`
    and number-to-string. Case mapping covers ASCII letters only, and a
    string's length counts characters, not UTF-16 code units (see
    "## Left out").
  - `Numeric` models `Math.round` as round-half-up on exact reals.
  - `Lists` holds filters, dedup and distinctness.
- `Json` models the JSON values that the judge compares, and `JSON.stringify`
  on them.
- The remaining modules follow the source files: `Catalog`, `Judge`,
  `Gemini`, `Resume`, `Parser`, `Auth`, `Learning`, `Interview`, `Dashboard`
  and `Arena`.

Code that updates state in place is modelled as a class with `modifies`
clauses, and loops as methods with invariants:

- `Auth.Store` is `localStorage` together with the current user.
- `Learning.Hub` and `Learning.QuizSession` are the hub and the quiz.
- `Interview.Session` is the interview session.
- `Arena.Page` is the arena page.
- `Gemini.KeyRing` is the key cursor.

Each such method is proved against a specification function, and the lemmas
about that function state what the application promises.

## Model

| member | source | states |
|---|---|---|
| Json.Get | backend/server.js:362 | a field lookup finds nothing exactly when no field has the key, otherwise a field with that key and value |
| Json.Values | backend/server.js:362 | `Object.values(test.input)` lists the field values in insertion order |
| Json.IsEqualEquivalence | backend/server.js:304-306 | `isEqual` is reflexive, symmetric and transitive |
| Json.IsEqualIsStructural | backend/server.js:304-306 | on values without `undefined`, `isEqual` holds exactly when the values are identical (key order included), because `JSON.stringify` is injective there |
| Json.KeyOrderMatters | backend/server.js:304-306 | objects with the same fields in another order are not `isEqual` |
| Json.UndefinedIsCoarse | backend/server.js:304-306 | `undefined` array items compare equal to `null`, `undefined` fields vanish, but a bare `undefined` differs from `null` |
| Json.SerFirst | backend/server.js:304-306 | the first character of the serialisation tells the kind of value |
| Json.EscapeCharFacts | backend/server.js:304-306 | an escaped character never starts with a quote, and an escape is either two characters or a six-character `\u` escape |
| Json.UnescapeEscapeChar | backend/server.js:304-306 | every character escape reads back to its character |
| Json.EscapeCharInjective | backend/server.js:304-306 | two escapes followed by text are equal only when the characters and the text are |
| Json.EscapeInjective | backend/server.js:304-306 | the escaped body of a string up to its closing quote determines the string and what follows |
| Json.QuoteInjective | backend/server.js:304-306 | a quoted string followed by text determines both |
| Json.DigitsInjective | backend/server.js:304-306 | a digit run followed by text that does not start with a digit determines both |
| Json.NatToStringInjective | backend/server.js:304-306 | distinct naturals print differently |
| Json.NumInjective | backend/server.js:304-306 | a printed integer followed by a non-digit determines both |
| Json.NegativeInjective | backend/server.js:304-306 | the same for two negative integers |
| Json.SerInjective | backend/server.js:304-306 | a serialised value followed by a non-digit determines both, so equal serialisations mean equal values |
| Json.ArrInjective | backend/server.js:304-306 | the same for arrays |
| Json.ItemsInjective | backend/server.js:304-306 | the same for the tail of an array from a given item |
| Json.FieldInjective | backend/server.js:304-306 | one serialised `"key":value` pair determines its key, value and what follows |
| Json.FieldsHead | backend/server.js:304-306 | two equal field lists agree on their first field |
| Json.FieldsInjective | backend/server.js:304-306 | the same for the tail of an object from a given field |
| Catalog.CatalogShape | backend/test_cases.js:3-43 | five problems under five distinct titles, each with at least one test case |
| Catalog.LookupFinds | backend/test_cases.js:3-43 | a title is found exactly when it is in the catalog, and it gives that title's problem |
| Catalog.TwoSumCases | backend/test_cases.js:4-10 | the three Two Sum cases, their arguments and expected index pairs |
| Catalog.ValidParenthesesCases | backend/test_cases.js:11-19 | the five Valid Parentheses cases and their expected booleans |
| Catalog.ClimbingStairsCases | backend/test_cases.js:36-42 | the three Climbing Stairs cases: 2, 3 and 4 steps give 2, 3 and 5 |
| Catalog.ShapeFlags | backend/test_cases.js:26 | only Reverse Linked List is flagged as a linked list |
| Catalog.ArgumentOrder | backend/test_cases.js:6-8 | Two Sum's arguments are `nums` then `target` |
| Catalog.ExpectedValues | backend/test_cases.js:3-43 | no expected value is `undefined` or a string |
| Judge.NameAt | backend/server.js:354-355 | the captured name is a non-empty run of word characters |
| Judge.FirstMatchFrom | backend/server.js:354 | the leftmost position where `function\s+\w` matches, or none exactly when there is no match |
| Judge.CountPassed | backend/server.js:371-372 | the pass count is at most the number of results |
| Judge.Scan | backend/server.js:360-384 | the loop records results until the first stop; it stops with an error exactly when it did not reach the end, and the count is of passed results |
| Judge.ScanInOrder | backend/server.js:360-380 | every recorded result is the one its case produced |
| Judge.ScanRecords | backend/server.js:371-379 | recording a case appends its result and counts it when it passed |
| Judge.ScanStops | backend/server.js:382-384 | after the first error nothing more is recorded and the error is reported |
| Judge.RunCases | backend/server.js:360-384 | the results of the test-case loop end early only at a case whose output cannot be serialised |
| Judge.RunCasesInOrder | backend/server.js:360-380 | each result holds its case's input, expected value and actual output |
| Judge.GradeNotLive | backend/server.js:385-388 | code not graded live passes all cases with the "being upgraded" notice |
| Judge.AppendDetails | backend/server.js:400-403 | the loop appends the details header and one line per result |
| Judge.RunTestCases | backend/server.js:360-384 | the imperative loop computes exactly `RunCases` over the sandbox's outcomes |
| Judge.SubmitCode | backend/server.js:309-415 | the handler, step by step, answers what `Judge` specifies |
| Judge.GradeCode | backend/server.js:336-415 | the handler after the lookup answers what `Grade` specifies |
| Judge.Respond | backend/server.js:390-414 | the verdict, default feedback and details are those of `Report` |
| Judge.CountPassedAll | backend/server.js:391 | every case passed exactly when the count equals the number of results |
| Judge.UnknownTitleAccepted | backend/server.js:315-327 | an unknown title is accepted as 5 of 5 with the fixed note |
| Judge.LanguageGate | backend/server.js:336 | JavaScript is graded live, any other named language is not, and with no (or an empty) language only code not starting with `#` is |
| Judge.EntryPointNone | backend/server.js:351-358 | with no title-table entry and no `function <name>` there is no entry point |
| Judge.EntryPointOrder | backend/server.js:344-356 | the title table wins; otherwise the name after the leftmost `function` |
| Judge.NoEntryPointFails | backend/server.js:358-397 | with no entry point nothing passes and the feedback is the detection error |
| Judge.GradedVerdict | backend/server.js:360-391 | graded live, the verdict is correct exactly when every case returned a value `isEqual` to the expected one |
| Judge.GradedFeedback | backend/server.js:382-403 | the feedback is the execution error, else "Excellent!" or the failed count, followed by the details of every case that ran |
| Judge.CasesIndependent | backend/server.js:360-380 | changing one case's outcome changes only that case's result |
| Judge.ThrowFailsItsCase | backend/server.js:367-371 | a call that throws fails its case and shows `Error: <message>` as the actual value |
| Judge.AllReturnExpected | backend/server.js:360-380 | when every call returns its expected value, all cases pass and the loop reaches the end |
| Judge.ReferenceSolutionAccepted | backend/server.js:360-397 | a function returning every expected value is accepted with "Excellent!" |
| Judge.AllThrowNonePass | backend/server.js:360-391 | when every call throws, no catalog case passes |
| Judge.CountPassedNone | backend/server.js:371-372 | no passed results give a count of 0 |
| Judge.TitleTableExample | backend/server.js:344-351 | "Two Sum" calls `twoSum` even when the code defines another function |
| Judge.ReverseListEntryPoint | backend/server.js:351-356 | a title not in the table takes the name from the code |
| Judge.LeadingFunctionName | backend/server.js:354-355 | code that opens with `function`, spaces and a name gives that name |
| Judge.NamedFunctionExample | backend/server.js:354-355 | `function sum(a, b) {}` gives `sum` |
| Judge.AnonymousFunctionExample | backend/server.js:354-355 | `function(x) {}` gives no name |
| Judge.InheritedTitleUnanswered | backend/server.js:313-315 | as written, the title "toString" gets no answer; with an own-property lookup it gets the unknown-problem answer |
| Judge.AsWrittenAgrees | backend/server.js:313-315 | for every title other than the inherited names, the lookup as written and the own-property lookup answer alike |
| Gemini.ParseKeys | backend/server.js:21 | every parsed key is non-empty, trimmed and free of commas |
| Gemini.TrimmedParts | backend/server.js:21 | trimmed parts without commas stay without commas and are already trimmed |
| Gemini.ParseKeysJoin | backend/server.js:21 | joining valid keys with commas and parsing the result gives the keys back |
| Gemini.SplitJoin | backend/server.js:21 | splitting a join on its separator gives the parts back |
| Gemini.KeyRing.constructor | backend/server.js:21-22 | the keys come from the environment variable and the cursor starts at 0 |
| Gemini.KeyRing.Next | backend/server.js:24-29 | with no keys it fails and the cursor stays; otherwise it returns the key under the cursor and advances it round-robin |
| Gemini.Advance | backend/server.js:27 | the next cursor is `(c + 1) % size` and stays in range |
| Gemini.Schedule | backend/server.js:24-29 | the cursors of `n` successive calls are all in range |
| Gemini.ScheduleClimbs | backend/server.js:27 | before the wrap the cursors climb one by one |
| Gemini.ScheduleWraps | backend/server.js:27 | at the end of the list the cursor wraps to 0 |
| Gemini.ScheduleFair | backend/server.js:24-29 | any `size` successive calls use every key exactly once |
| Gemini.Without | backend/server.js:44 | removing a model keeps every other model |
| Gemini.DedupCons | backend/server.js:44 | de-duplicating the preferred model before a distinct list removes its later copy |
| Gemini.FallbacksDistinct | backend/server.js:36-40 | the five fallback models are distinct |
| Gemini.ModelsToTryShape | backend/server.js:33-44 | the preferred model first, then the fallbacks without it; distinct; five or six models |
| Gemini.WithoutLength | backend/server.js:44 | removing a present model from a distinct list shortens it by one |
| Gemini.DefaultModels | backend/server.js:33-44 | with the default model the list is exactly the five fallbacks |
| Gemini.WithoutAbsent | backend/server.js:44 | removing an absent model changes nothing |
| Gemini.WithoutFront | backend/server.js:44 | removing the first model is removing it from the rest |
| Resume.JdKeywords | backend/server.js:114-118 | the job-description keywords are distinct, and are exactly the lower-cased words over 3 characters that are not stop words |
| Resume.KeywordScore | backend/server.js:122 | the keyword score lies between 0 and 100 |
| Resume.ImpactScore | backend/server.js:125-128 | 2 per number plus 5 per action verb, capped at 100 |
| Resume.BrevityScore | backend/server.js:131-133 | 60 exactly when the average line is over 150 characters or there are over 500 lines, else 90 |
| Resume.LongLineIssues | backend/server.js:171 | one issue for each of the first two lines over 200 characters, in order, so every long line has its issue when there are at most two |
| Resume.SectionIssues | backend/server.js:136-179 | one issue per missing section, and found plus missing makes all seven |
| Resume.Examples | backend/server.js:166 | the first three action verbs the resume uses, in list order; all of them when it uses at most three |
| Resume.MissingReport | backend/server.js:120 | the first ten keywords the resume lacks, in job-description order; all of them when at most ten are missing |
| Resume.PresentReport | backend/server.js:119-175 | the first five keywords the resume has, in job-description order; all of them when it has at most five |
| Resume.Summary | backend/server.js:154-158 | excellent above 80, a good start above 50, weak otherwise |
| Resume.Impact | backend/server.js:163-167 | `impact_check` carries the impact score, praise exactly when it is over 60, and the first three verbs found |
| Resume.Brevity | backend/server.js:168-172 | `brevity_style` scores 60 exactly when lines average over 150 characters or number over 500, praises exactly a 90, and lists the first two long lines |
| Resume.KeywordReport | backend/server.js:173-176 | the first ten missing and five present keywords, every one of them when there are no more |
| Resume.Ats | backend/server.js:177-180 | 15 points per section found; score plus 15 per issue is 105 |
| Resume.Analyze | backend/server.js:109-183 | the match score lies between 12 and 98, and there is one improvement exactly when fewer than three numbers appear |
| Resume.KeywordsPartitioned | backend/server.js:119-120 | each keyword is either present or missing, never both, and the two lists are distinct |
| Resume.KeywordsAreWords | backend/server.js:114-118 | every keyword is a lower-case word of over 3 characters and not a stop word |
| Resume.RunsInText | backend/server.js:114 | every word found occurs in the text |
| Resume.KeywordScoreFull | backend/server.js:122 | the keyword score is 100 exactly when every keyword (of at least one) is present |
| Resume.MatchScoreBounded | backend/server.js:140-142 | the blended score with its section boost lies between 12 and 98 |
| Resume.BoostOvertakes | backend/server.js:140-142 | the ten-point boost makes a weaker blend (57 keyword points) outscore a stronger one (60) |
| Parser.ParseFile | data/interviews/generic_parser.py:5-71 | the imperative loop computes exactly `Parse` of the lines |
| Parser.HandleLine | data/interviews/generic_parser.py:22-69 | one pass of the loop is one step of `Parse`, and the two id counters stay one past the list lengths |
| Parser.RunNumbers | data/interviews/generic_parser.py:62-69 | technical and HR questions are numbered 1, 2, 3, … in order |
| Parser.RunCount | data/interviews/generic_parser.py:21-69 | at most one question per line |
| Parser.RunSources | data/interviews/generic_parser.py:53-60 | every question is a question line of the file, with its keywords |
| Parser.ParseFacts | data/interviews/generic_parser.py:5-71 | numbering, count and sources hold for the parse of a file |
| Parser.Under | data/interviews/generic_parser.py:21-69 | the question lines under a section's latest header, in file order, and every such line |
| Parser.RunListed | data/interviews/generic_parser.py:16-69 | after any number of lines the section is the last header's, and each list is exactly the question lines under that section, in file order, numbered from 1 |
| Parser.ParseListed | data/interviews/generic_parser.py:5-71 | the technical and HR lists are exactly the question lines under technical and HR headers, numbered in file order |
| Parser.NoHeaderNoQuestions | data/interviews/generic_parser.py:16-69 | without a section header no question is kept |
| Parser.EmojiHeader | data/interviews/generic_parser.py:27-29 | "✅ CORE TECHNICAL QUESTIONS" opens the technical section |
| Parser.EmojiSubheader | data/interviews/generic_parser.py:43-45 | "🧠 Programming Fundamentals" is skipped |
| Parser.ShortQuestionWords | data/interviews/generic_parser.py:53 | "What is OOP?" splits into three words |
| Parser.NoLongWords | data/interviews/generic_parser.py:53 | a line with no word over 4 characters has no keywords |
| Parser.ShortQuestionNoKeywords | data/interviews/generic_parser.py:53 | "What is OOP?" has no keywords |
| Auth.NormalizeIdempotent | js/modules/auth.js:4-70 | normalising an address twice is normalising it once, and the record key does not depend on it |
| Auth.MergeLaws | js/modules/auth.js:74 | merging a whole record gives that record, merging twice is merging once, and a course patch replaces only `courseProgress` |
| Auth.LevelUpAsWritten | js/modules/auth.js:76-80 | as written: over `level·1000` xp the level rises by one and the NEW level's 1000s are taken off |
| Auth.LevelUpGoesNegative | js/modules/auth.js:77-79 | as written, xp between `level·1000` and `(level+1)·1000` turns negative (1500 at level 1 becomes −500) |
| Auth.LevelUp | js/modules/auth.js:76-80 | corrected: the old level's 1000s are taken off, so the remainder carried over is positive |
| Auth.LevelUpOnce | js/modules/auth.js:76-80 | a save raises the level at most once under either rule, and xp plus the threshold taken off (old level's corrected, new level's as written) is the xp before |
| Auth.LevelUpAsWrittenDiffers | js/modules/auth.js:76-80 | the two rules agree unless the record levels up, and then the as-written record is the corrected one with 1000 xp less |
| Auth.Recorded | js/modules/auth.js:86-98 | the interview is appended, its score added, 500 xp and one module added, nothing else changed |
| Auth.Store.constructor | js/modules/auth.js:1-28 | storage starts empty with nobody signed in |
| Auth.Store.Login | js/modules/auth.js:1-28 | without both a name and an address nothing changes; otherwise the user is signed in under the normalised address and a fresh record is stored only if none exists |
| Auth.Store.GetProgress | js/modules/auth.js:49-64 | nothing when nobody is signed in, the stored record when there is one, else the default record |
| Auth.Store.SaveProgress | js/modules/auth.js:66-84 | the current record merged with the patch and levelled up is stored and returned; nothing happens when nobody is signed in |
| Auth.Store.SaveProgressAsWritten | js/modules/auth.js:66-84 | as written: the merged record levelled up by the as-written rule is stored and returned; nothing happens when nobody is signed in |
| Auth.Store.AddInterviewResult | js/modules/auth.js:86-101 | fails with nobody signed in; otherwise stores the recorded and levelled-up record |
| Learning.Put | js/modules/learning.js:135-219 | setting a module's count changes only that count, and a new module is added at the end |
| Learning.Hub.constructor | js/modules/learning.js:101-107 | the counts come from the stored `courseProgress` when there is one |
| Learning.Hub.OpenModule | js/modules/learning.js:130-135 | the module becomes current and gets a count of 0 if it had none |
| Learning.Hub.WatchTick | js/modules/learning.js:212-220 | one tick adds one to the module's count and saves the counts as `courseProgress` |
| Learning.Embedded | js/modules/learning.js:115-126 | every playlist is a YouTube embed URL whose intro starts at 0 |
| Learning.PlaylistOf | js/modules/learning.js:115-126 | every configured playlist is an embed URL with `0 < core < advanced < 30` |
| Learning.SidebarLocks | js/modules/learning.js:237-250 | no locks for an unknown module; otherwise item `i` is locked exactly when fewer videos than its limit were watched |
| Learning.LocksMonotone | js/modules/learning.js:245-250 | the first item is never locked, more videos never lock an item, later items are locked whenever earlier ones are, and 30 videos unlock all |
| Learning.LoadSection | js/modules/learning.js:151-183 | nothing for an unknown module; otherwise the section starts at a 1-based index |
| Learning.SectionUrlIndex | js/modules/learning.js:177-183 | the section's URL ends in `&index=` and its start index |
| Learning.UrlIndex | js/modules/learning.js:182-183 | the index appended to a URL that has a `?` reads back as the start index |
| Learning.ModuleMax | js/modules/learning.js:42-57 | the video count for a full bar is between 1 and 30 |
| Learning.HubCardContinue | js/modules/learning.js:54-69 | the card says "Continue Learning" exactly when a video was watched, and its percent lies between 0 and 100 |
| Learning.Reshuffle | js/modules/learning.js:456-467 | shuffling the options keeps the question, permutes the options and keeps the correct answer's text |
| Learning.Marks | js/modules/learning.js:613-626 | one mark per question |
| Learning.Count | js/modules/learning.js:613-626 | a count is at most the number of marks |
| Learning.CountsPartition | js/modules/learning.js:613-626 | right, skipped and wrong answers add up to the number of questions |
| Learning.PassMark | js/modules/learning.js:653-660 | the quiz is passed exactly when the rounded percentage reaches 70 (14 of 20 passes, 13 does not) |
| Learning.Result | js/modules/learning.js:601-653 | correct, incorrect and skipped add up to the number of questions |
| Learning.Rewarded | js/modules/learning.js:656-661 | 50 xp per correct answer, the score added, one module when passed, nothing else changed |
| Learning.QuizSession.constructor | js/modules/learning.js:4-6 | no quiz, cursor 0, no answers |
| Learning.QuizSession.StartQuiz | js/modules/learning.js:442-470 | without a module or questions nothing changes; otherwise up to 20 shuffled questions from the data, each with shuffled options, cursor 0 and no answers |
| Learning.QuizSession.SelectAnswer | js/modules/learning.js:576-587 | the answer under the cursor is set and every other answer kept |
| Learning.QuizSession.Finish | js/modules/learning.js:601-662 | the outcome is the tally of the answers, and the reward is saved for the signed-in user |
| Learning.QuizSession.Load | js/modules/learning.js:524-528 | past the last question the quiz finishes, otherwise nothing changes |
| Learning.QuizSession.Next | js/modules/learning.js:589-592 | the cursor moves on, finishing the quiz past the last question |
| Learning.QuizSession.Prev | js/modules/learning.js:594-599 | the cursor moves back unless at the first question |
| Learning.Tally | js/modules/learning.js:613-626 | the imperative tally loop computes exactly `Result` |
| Learning.AllRightPasses | js/modules/learning.js:613-660 | answering every question right passes, answering none fails |
| Learning.CountAll | js/modules/learning.js:613-626 | marks that are all the same are all counted |
| Interview.Matches | frontend/js/modules/interview.js:403-409 | at most one match per keyword |
| Interview.CountMatches | frontend/js/modules/interview.js:403-409 | the imperative keyword loop computes exactly `Matches` |
| Interview.AllMatched | frontend/js/modules/interview.js:403-409 | an answer containing every keyword matches all of them |
| Interview.Gain | frontend/js/modules/interview.js:411-412 | the gain lies between 0 and 100: 100 exactly when every keyword matched, 0 exactly when none did |
| Interview.ScoreAnswer | frontend/js/modules/interview.js:382-413 | a "don't know" answer or a question without keywords scores 0; any answer scores between 0 and 100 |
| Interview.FullMarks | frontend/js/modules/interview.js:403-413 | an answer containing every keyword scores 100 |
| Interview.ScoreAt | frontend/js/modules/interview.js:373-413 | the score for a position lies between 0 and 100, and is 0 past the last question |
| Interview.FinalPercent | frontend/js/modules/interview.js:430-431 | 0 with no questions, and between 0 and 100 for a bounded score |
| Interview.Saved | frontend/js/modules/interview.js:480 | the saved score is the final percent when positive, else 0 |
| Interview.Entries | frontend/js/modules/interview.js:447-449 | the transcript has one entry per question up to the current one, each with its answer or "No answer" |
| Interview.PaddedValue | frontend/js/modules/interview.js:67-68 | a padded number is all digits and reads back as the number |
| Interview.ShortDigits | frontend/js/modules/interview.js:67-68 | a number under 100 prints in at most two digits |
| Interview.ClockReadsBack | frontend/js/modules/interview.js:66-69 | under 100 minutes, the timer shows `mm:ss` that reads back as minutes and seconds |
| Interview.Session.constructor | frontend/js/modules/interview.js:5-17 | Amazon technical by default, no questions, score 0, not listening |
| Interview.Session.Select | frontend/js/modules/interview.js:34-51 | picking a company or type changes only the selection |
| Interview.Session.StartSession | frontend/js/modules/interview.js:183-234 | nothing starts on an empty list; a failed fetch gives the single fallback question; otherwise the greeting then up to 60 shuffled non-intro questions, with index, score and answers reset |
| Interview.Session.Hear | frontend/js/modules/interview.js:304-318 | a non-empty final transcript is appended to the current answer, every other answer kept; an empty one changes nothing |
| Interview.Session.StartRecording | frontend/js/modules/interview.js:267-275 | the session is listening and nothing else changes |
| Interview.Session.StopRecording | frontend/js/modules/interview.js:351-416 | when not listening nothing changes; otherwise the answer is scored, the index moves on and the interview ends and is saved past the last question |
| Interview.Session.MoveNext | frontend/js/modules/interview.js:332-348 | the index moves on; past the last question the interview ends and is saved, twice when it was still recording |
| Interview.Session.EndInterview | frontend/js/modules/interview.js:418-484 | a recording in progress is stopped and scored first, saving the interview an extra time when that passes the last question; then the summary is computed and the result saved |
| Interview.SavedTwice | frontend/js/modules/interview.js:418-484 | saving twice appends the interview twice, with two modules and twice the score |
| Interview.SummaryBounded | frontend/js/modules/interview.js:430-480 | the final and the saved percent lie between 0 and 100 |
| Interview.SessionQuestions | frontend/js/modules/interview.js:195-215 | the greeting comes first, then at most 60 questions, all from the data and none an introduction |
| Interview.GainAsWritten | frontend/js/modules/interview.js:411 | as written, the ratio is NaN exactly when a question has an empty keyword list |
| Interview.AddAsWritten | frontend/js/modules/interview.js:412 | as written, adding NaN makes the score NaN |
| Interview.SavedAsWritten | frontend/js/modules/interview.js:431-480 | as written, a NaN score is saved as 0 |
| Interview.EmptyKeywordsZeroAsWritten | frontend/js/modules/interview.js:404-480 | as written, one answered question with no keywords zeroes the saved score whatever else was answered; "What is OOP?" is such a question |
| Interview.NaNSticks | frontend/js/modules/interview.js:412 | as written, a NaN score stays NaN |
| Interview.EmptyKeywordsCorrected | frontend/js/modules/interview.js:404-412 | corrected: a question with no keywords scores 0 |
| Interview.ScoreAnswerAsWritten | frontend/js/modules/interview.js:373-413 | as written, an answer scores NaN exactly when it is not a "don't know" and its question has an empty keyword list, and otherwise as the corrected score |
| Dashboard.DashboardMax | js/modules/dashboard.js:25-43 | the video count for a full bar is 23 for AI and ML and 30 otherwise |
| Dashboard.Percent | js/modules/dashboard.js:43-44 | the percent is at most 100, and not negative for a non-negative count |
| Dashboard.SubjectStep | js/modules/dashboard.js:51-56 | each step keeps all six chart bars |
| Dashboard.SubjectsOf | js/modules/dashboard.js:35-58 | the chart always has its six bars |
| Dashboard.CourseTally | js/modules/dashboard.js:39-58 | the imperative loop computes the sum of percents, the module count and the chart bars |
| Dashboard.SumBounded | js/modules/dashboard.js:47-48 | the sum of percents lies between 0 and 100 per module |
| Dashboard.BarsBounded | js/modules/dashboard.js:51-56 | every chart bar lies between 0 and 100 |
| Dashboard.SharedBarIsMax | js/modules/dashboard.js:56 | the AI/ML bar is at least every AI and ML percent, and is one of them or 0 |
| Dashboard.WatchedAppend | js/modules/dashboard.js:42 | after an append, a module already listed keeps its count (the first entry wins), the appended module if new gets its count, and any other module has none |
| Dashboard.OwnBar | js/modules/dashboard.js:51-55 | with distinct module ids, a subject's bar is its module's percent, or 0 when absent |
| Dashboard.XpScore | js/modules/dashboard.js:63 | the xp score is at most 100, not negative for a non-negative score, and 100 from 5000 points |
| Dashboard.Readiness | js/modules/dashboard.js:22-71 | the readiness is `ReadinessOf` the record, and the bars are the record's or all 0 |
| Dashboard.ReadinessBounded | js/modules/dashboard.js:63-70 | the readiness lies between 0 and 100, and a fresh record scores 0 |
| Dashboard.FullReadiness | js/modules/dashboard.js:63-70 | every module complete and 5000 points give a readiness of 100 |
| Dashboard.AllComplete | js/modules/dashboard.js:47-48 | all modules complete sum to 100 per module |
| Dashboard.Status | js/modules/dashboard.js:131 | success above 70, warning above 40 up to 70, error otherwise |
| Dashboard.HistoryOrder | js/modules/dashboard.js:125-132 | one row per interview, newest first |
| Dashboard.HistoryNewestFirst | js/modules/dashboard.js:125-132 | a new interview's row goes to the top of the history |
| Arena.FiltersKeepOrder | frontend/js/modules/arena.js:136-156 | the shown problems are exactly those matching both filters, in their original order |
| Arena.FindProblem | frontend/js/modules/arena.js:159 | nothing exactly when no problem has the id, otherwise the first problem with it |
| Arena.OwnStarter | frontend/js/modules/arena.js:180-201 | a problem's own starter code is non-empty and listed for the language |
| Arena.OpeningText | frontend/js/modules/arena.js:180 | the editor opens on the JavaScript starter code, or a non-empty placeholder |
| Arena.Template | frontend/js/modules/arena.js:184-190 | a non-empty template exists exactly for the five listed languages |
| Arena.StarterFor | frontend/js/modules/arena.js:200-204 | the code shown is never empty: the problem's own code, else the language template, else the "no starter code" note |
| Arena.NoteOnlyForUnknown | frontend/js/modules/arena.js:200-204 | without own code, the "No starter code" note appears exactly for a language with no template |
| Arena.Mode | frontend/js/modules/arena.js:198-207 | python for Python, clike for C++, Java and C#, javascript otherwise |
| Arena.EffectiveTotal | frontend/js/modules/arena.js:350 | a missing or 0 total counts as 20 |
| Arena.Points | frontend/js/modules/arena.js:357 | no problem, or no (or 0) points, gives 500 |
| Arena.AwardEffect | frontend/js/modules/arena.js:354-360 | an accepted solution adds one module and stamps the activity time, keeping interviews and course progress |
| Arena.Page.constructor | frontend/js/modules/arena.js:5-6 | no problems and no current problem |
| Arena.Page.Load | frontend/js/modules/arena.js:12-16 | fetched data replaces the list (a bare array or its `problems` field); nothing changes without data |
| Arena.Page.OpenProblem | frontend/js/modules/arena.js:158-180 | the current problem becomes the one with the id; when there is one the editor opens on its opening text in JavaScript mode |
| Arena.Page.ChangeLanguage | frontend/js/modules/arena.js:195-213 | the editor shows the starter code and mode for the language |
| Arena.Page.Submit | frontend/js/modules/arena.js:349-360 | accepted exactly when every test passed; then the signed-in user's record gets the points and is saved |

## Left out

- Browser and server plumbing is not modelled: the DOM, CodeMirror,
  Chart.js, timers and toasts, `fetch`, the Deepgram socket and media
  recorder, speech synthesis, and Express routing beyond the submit handler.
  Fetched data and the outcome of a fetch are parameters.
- `localStorage` is a map from keys to parsed records. JSON round-tripping
  of the records is not modelled.
- Clocks are parameters.
  - `new Date().toISOString()` is a `now` string.
  - The interview timer takes the elapsed seconds.
  - The 15-minute branch in `moveToNextQuestion` is left out, because both of
    its branches end the interview.
- Randomness is a parameter.
  - `sort(() => 0.5 - Math.random())` is modelled by a permutation given by
    the caller.
  - The model does not capture that a comparator-based shuffle is not uniform.
- JavaScript numbers are exact reals or unbounded integers. Floating-point
  rounding, for example in the 0.6/0.4 readiness blend, is not modelled.
  `NaN` appears only in the as-written interview score
  (`Interview.ScoreAnswerAsWritten` and its neighbours); the session itself
  uses the corrected score.
- The sandbox (`runJSCode` on a fresh `vm2` VM) is an oracle parameter. It
  receives `Object.values(test.input)` as it is; the catalog's `isLinkedList`
  and `isTree` flags are never read by the handler.
- `runJSCode` itself, the Gemini calls (`callGemini`'s retry loop and the
  prompts) and the AI endpoints are not modelled, because they are network
  I/O. The de-duplicated model list and the key cursor are modelled.
- The dashboard heatmap placeholder (`js/modules/dashboard.js:12`) only
  changes the DOM.
- Dashboard dates: `toLocaleDateString()` is not modelled; the history row
  keeps the stored date string.
- Several `learning.js` functions only render or fetch and are not modelled:
  `loadPracticeQuestions`, `generateNotes`, `getGFGLinks` and `quitQuiz`.
- `openProblem` in `arena.js` throws when a problem has no `starter_code` or
  no `examples`. The model takes both as present (an empty starter-code list
  is allowed).
- Arena.OwnStarter: `starter_code[lang]` also finds inherited
  `Object.prototype` members. The model looks up own keys only.
- Arena.Page.OpenProblem: an unknown id sets the current problem to
  `undefined` (`frontend/js/modules/arena.js:159`) rather than leaving it
  unchanged. The model follows the code, and the editor and mode are left
  untouched.
- Interview.Session.StartSession: a fetch that resolves to `null` returns
  early like an empty list. The model has only the empty list, plus a failed
  fetch for the fallback question.
- Interview.Session.StopRecording: the spoken explanation for a "don't know"
  answer is left out. Only its effect is modelled: no score, then at once the
  next question, where the source waits for the speech to end.
- Interview.Gain: an answered question whose keyword list is empty scores 0,
  the corrected rule (`Interview.EmptyKeywordsCorrected`). As written it
  scores `NaN`, the session score stays `NaN`, "NaN" is shown and 0 is saved
  (`Interview.ScoreAnswerAsWritten`, `Interview.EmptyKeywordsZeroAsWritten`).
- Interview.ScoreAnswer: the corrected score, as for `Interview.Gain`.
- Interview.ScoreAt: the corrected score, as for `Interview.Gain`.
- Interview.Session.StopRecording: the session score is the corrected one, as
  for `Interview.Gain`; it never holds `NaN`. The saved record levels up by
  the corrected rule, as for `Auth.Store.SaveProgress`.
- Interview.Session.MoveNext: the saved record levels up by the corrected
  rule, as for `Auth.Store.SaveProgress`. The saves happen at once rather
  than after the feedback request.
- Interview.Session.EndInterview: the saved record levels up by the corrected
  rule, as for `Auth.Store.SaveProgress`, and the score is the corrected one,
  as for `Interview.Gain`.
- Auth.Store.SaveProgress: the stored record levels up by the corrected rule
  `Auth.LevelUp`. As written (`Auth.Store.SaveProgressAsWritten`) a record
  that levels up is stored with 1000 xp less (`Auth.LevelUpAsWrittenDiffers`);
  a record that does not level up is the same.
- Auth.Store.AddInterviewResult: the corrected level-up, as for
  `Auth.Store.SaveProgress`.
- Learning.Hub.WatchTick: the corrected level-up, as for
  `Auth.Store.SaveProgress`.
- Learning.QuizSession.Finish: the corrected level-up, as for
  `Auth.Store.SaveProgress`.
- Learning.QuizSession.Load: the corrected level-up when it finishes the
  quiz, as for `Auth.Store.SaveProgress`.
- Learning.QuizSession.Next: the corrected level-up when it finishes the
  quiz, as for `Auth.Store.SaveProgress`.
- Learning.QuizSession.Prev: the corrected level-up when it finishes the
  quiz, as for `Auth.Store.SaveProgress`.
- Arena.AwardEffect: the corrected level-up, as for
  `Auth.Store.SaveProgress`.
- Arena.Page.Submit: the corrected level-up, as for
  `Auth.Store.SaveProgress`.
- Learning.QuizSession.Finish: the review HTML and the evaluation message
  ("Outstanding Performance!", "Great Job!" and the rest,
  `js/modules/learning.js:666-670`) are not modelled.
- Json: numbers are integers. The sandbox's results are integer-valued JSON
  by the type of the oracle, so non-integral numbers, `NaN` and `Infinity`
  (which `JSON.stringify` prints as `null`), `-0`, `Date` values, functions
  and symbols are not covered. `undefined` follows `JSON.stringify`.
- Judge.SubmitCode: the catalog lookup finds own titles only, where
  `problemTests[problemTitle]` also finds inherited names
  (`backend/server.js:313`); the as-written handler is
  `Judge.SubmitAsWritten`, and `Judge.AsWrittenAgrees` bounds the difference
  (see "## Findings").
- Judge.Judge: the submitted `code` is a string. A request without a `code`
  field makes `code.trim()` throw (`backend/server.js:336`); that path is not
  modelled.
- Text: `toLowerCase` and `toUpperCase` map ASCII letters only, so
  `Auth.NormalizeEmail` leaves "É" as it is and "ß" is not upper-cased to
  "SS". Lengths count characters, while JavaScript counts UTF-16 code units:
  an emoji counts once here and twice in the source, which shifts the
  under-five-characters test of `Interview.IsDontKnow` and the line lengths
  of `Resume.BrevityScore` and `Resume.LongLineIssues` for such text.
- Parser.ParseFile: reading the file and the missing-file check are left out.
  The file is given as its list of lines.

## Findings

| source | as written | input that shows it | evidently intended | confidence | as-written member | corrected member |
|---|---|---|---|---|---|---|
| backend/server.js:313-315 | `problemTests[problemTitle]` also finds members inherited from `Object.prototype`, so the handler goes on with a function instead of a problem and sends no answer | `problemTitle = "toString"` | an unknown title gets the "Real execution not available" answer | not executed | Judge.InheritedTitleUnanswered | Judge.UnknownTitleAccepted |
| frontend/js/modules/interview.js:404-412 | a question whose `keywords` list is empty gives `0 / 0 = NaN`, which makes the whole score NaN; the saved score is then 0 | a parsed question "What is OOP?" (no word over 4 characters, so no keywords) answered with any non-trivial text | such a question scores 0 and the others still count | not executed | Interview.EmptyKeywordsZeroAsWritten | Interview.EmptyKeywordsCorrected |
| js/modules/auth.js:77-79 | the level is raised first, then the NEW level's 1000s are subtracted, so xp can go negative | level 1 with 1500 xp gives level 2 with −500 xp | the remainder is carried over: 1500 − 1000 = 500 | not executed | Auth.LevelUpGoesNegative | Auth.LevelUp |
