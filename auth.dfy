/**
 * The sign-in and progress store of the learning site. The browser's
 * `localStorage` is a map from keys to parsed progress records plus the
 * signed-in user; a user's record lives under `progress_` followed by the
 * trimmed, lower-cased e-mail address.
 */
module Auth {
  import opened Wrappers
  import opened Text

  datatype Interview = Interview(date: string, score: int, company: string, kind: string)

  /** A progress record; `courseProgress` maps module ids to videos watched, in insertion order. */
  datatype Progress = Progress(
    interviews: seq<Interview>,
    totalScore: int,
    modulesCompleted: int,
    level: int,
    xp: int,
    streak: int,
    lastActivity: Option<string>,
    courseProgress: Option<seq<(string, int)>>)

  /** The fields a caller passes to `saveProgress`; `None` where the object has no such property. */
  datatype Patch = Patch(
    interviews: Option<seq<Interview>>,
    totalScore: Option<int>,
    modulesCompleted: Option<int>,
    level: Option<int>,
    xp: Option<int>,
    streak: Option<int>,
    lastActivity: Option<Option<string>>,
    courseProgress: Option<Option<seq<(string, int)>>>)

  datatype User = User(name: string, email: string, joinedAt: string)

  /** `email.trim().toLowerCase()`. */
  function NormalizeEmail(email: string): string {
    ToLower(JsTrim(email))
  }

  function ProgressKey(email: string): string {
    "progress_" + NormalizeEmail(email)
  }

  /**
   * Normalising a normalised address changes nothing, so the key `login`
   * computes from the raw address is the key `getProgress` and
   * `saveProgress` compute from the stored one.
   */
  lemma NormalizeIdempotent(email: string)
    ensures NormalizeEmail(NormalizeEmail(email)) == NormalizeEmail(email)
    ensures ProgressKey(NormalizeEmail(email)) == ProgressKey(email)
  {
    var t := JsTrim(email);
    var l := ToLower(t);
    TrimFacts(email, IsJsSpace);
    if l != [] {
      LowerCharFacts(t[0]);
      LowerCharFacts(t[|t| - 1]);
      TrimUnchanged(l, IsJsSpace);
    }
    forall i | 0 <= i < |l|
      ensures ToLower(l)[i] == l[i]
    {
      LowerCharFacts(t[i]);
    }
  }

  /** The record `login` stores for a new address. */
  function Initial(now: string): Progress {
    Progress([], 0, 0, 1, 0, 0, Some(now), Some([]))
  }

  /** The record `getProgress` makes up when none is stored (it has no `courseProgress`). */
  const Default := Progress([], 0, 0, 1, 0, 0, None, None)

  /** `{ ...current, ...newData }`: the patch's fields win, every other field is kept. */
  function Merge(current: Progress, patch: Patch): (r: Progress) {
    Progress(
      patch.interviews.GetOr(current.interviews),
      patch.totalScore.GetOr(current.totalScore),
      patch.modulesCompleted.GetOr(current.modulesCompleted),
      patch.level.GetOr(current.level),
      patch.xp.GetOr(current.xp),
      patch.streak.GetOr(current.streak),
      patch.lastActivity.GetOr(current.lastActivity),
      patch.courseProgress.GetOr(current.courseProgress))
  }

  /** A patch holding every field of `p`. */
  function Whole(p: Progress): Patch {
    Patch(Some(p.interviews), Some(p.totalScore), Some(p.modulesCompleted), Some(p.level),
      Some(p.xp), Some(p.streak), Some(p.lastActivity), Some(p.courseProgress))
  }

  /** A patch that carries only `courseProgress`, as the learning page saves. */
  function CourseOnly(courseProgress: seq<(string, int)>): Patch {
    Patch(None, None, None, None, None, None, None, Some(Some(courseProgress)))
  }

  /**
   * Merging is overriding: a whole record replaces the current one, merging
   * the same patch twice is merging it once, and a course-only patch leaves
   * every other field as it was.
   */
  lemma MergeLaws(current: Progress, p: Progress, patch: Patch, course: seq<(string, int)>)
    ensures Merge(current, Whole(p)) == p
    ensures Merge(Merge(current, patch), patch) == Merge(current, patch)
    ensures Merge(current, CourseOnly(course)) == current.(courseProgress := Some(course))
  {
  }

  /**
   * The level-up of `saveProgress` as written: past `level * 1000` xp the
   * level goes up by one and xp drops by the NEW level times 1000.
   */
  function LevelUpAsWritten(p: Progress): (r: Progress)
    ensures r.level == p.level + 1 <==> p.xp > p.level * 1000
    ensures r.level != p.level + 1 ==> r == p
    ensures r.level == p.level + 1 ==> r == p.(level := p.level + 1, xp := p.xp - (p.level + 1) * 1000)
  {
    if p.xp > p.level * 1000 then
      var leveled := p.(level := p.level + 1);
      leveled.(xp := leveled.xp - leveled.level * 1000)
    else p
  }

  /**
   * As written, levelling up from level 1 with 1500 xp leaves -500 xp: any
   * record that levels up without reaching the next level's threshold goes
   * negative.
   */
  lemma LevelUpGoesNegative(p: Progress)
    requires p.level * 1000 < p.xp < (p.level + 1) * 1000
    ensures LevelUpAsWritten(p).xp < 0
    ensures LevelUpAsWritten(Default.(xp := 1500)).xp == -500
  {
  }

  /**
   * The level-up with the remainder carried over: xp drops by the threshold
   * it passed, the OLD level times 1000, so it stays positive.
   */
  function LevelUp(p: Progress): (r: Progress)
    ensures r.level == p.level + 1 <==> p.xp > p.level * 1000
    ensures r.level != p.level + 1 ==> r == p
    ensures r.level == p.level + 1 ==> r == p.(level := p.level + 1, xp := p.xp - p.level * 1000) && r.xp > 0
  {
    if p.xp > p.level * 1000 then p.(level := p.level + 1, xp := p.xp - p.level * 1000) else p
  }

  /**
   * At most one level per save, and xp is conserved up to the threshold
   * taken off: the old level's under the corrected rule, the new level's as
   * written.
   */
  lemma LevelUpOnce(p: Progress)
    ensures LevelUp(p).level <= p.level + 1 && LevelUpAsWritten(p).level <= p.level + 1
    ensures LevelUp(p).xp + (LevelUp(p).level - p.level) * p.level * 1000 == p.xp
    ensures LevelUpAsWritten(p).xp + (LevelUpAsWritten(p).level - p.level) * (p.level + 1) * 1000 == p.xp
  {
  }

  /**
   * Where the two rules differ: they agree on every record that does not
   * level up, and on one that does, the as-written record has the same
   * level and exactly 1000 xp less.
   */
  lemma LevelUpAsWrittenDiffers(p: Progress)
    ensures LevelUpAsWritten(p).level == LevelUp(p).level
    ensures p.xp <= p.level * 1000 ==> LevelUpAsWritten(p) == LevelUp(p) == p
    ensures p.xp > p.level * 1000 ==> LevelUpAsWritten(p) == LevelUp(p).(xp := LevelUp(p).xp - 1000)
  {
  }

  /** What `addInterviewResult` does to a record before saving it. */
  function Recorded(p: Progress, score: int, company: string, kind: string, now: string): (r: Progress)
    ensures r.interviews == p.interviews + [Interview(now, score, company, kind)]
    ensures r.totalScore == p.totalScore + score && r.xp == p.xp + 500 && r.modulesCompleted == p.modulesCompleted + 1
    ensures r.level == p.level && r.streak == p.streak && r.lastActivity == p.lastActivity && r.courseProgress == p.courseProgress
  {
    p.(interviews := p.interviews + [Interview(now, score, company, kind)],
       totalScore := p.totalScore + score,
       xp := p.xp + 500,
       modulesCompleted := p.modulesCompleted + 1)
  }

  /** `localStorage` as the module sees it. */
  class Store {
    var items: map<string, Progress>
    var currentUser: Option<User>

    constructor ()
      ensures items == map[] && currentUser == None
    {
      items := map[];
      currentUser := None;
    }

    /**
     * `login(name, email)`: nothing without both; otherwise the user is
     * signed in under the normalised address, and a fresh record is stored
     * only when the address has none.
     */
    method Login(name: string, email: string, now: string)
      modifies this
      ensures name == "" || email == "" ==> items == old(items) && currentUser == old(currentUser)
      ensures name != "" && email != "" ==>
                && currentUser == Some(User(JsTrim(name), NormalizeEmail(email), now))
                && items == if ProgressKey(email) in old(items) then old(items) else old(items)[ProgressKey(email) := Initial(now)]
    {
      if name == "" || email == "" {
        return;
      }
      var cleanEmail := NormalizeEmail(email);
      currentUser := Some(User(JsTrim(name), cleanEmail, now));
      var userKey := "progress_" + cleanEmail;
      if userKey !in items {
        items := items[userKey := Initial(now)];
      }
    }

    /** The key of the signed-in user's record. */
    function UserKey(): string
      reads this
      requires currentUser.Some?
    {
      ProgressKey(currentUser.value.email)
    }

    /**
     * `getProgress()`: nothing when nobody is signed in, the stored record
     * when there is one, else the default record.
     */
    function GetProgress(): (r: Option<Progress>)
      reads this
      ensures r.None? <==> currentUser.None?
      ensures currentUser.Some? && UserKey() in items ==> r == Some(items[UserKey()])
      ensures currentUser.Some? && UserKey() !in items ==> r == Some(Default)
    {
      if currentUser.None? then None
      else if UserKey() in items then Some(items[UserKey()])
      else Some(Default)
    }

    /**
     * `saveProgress(newData)`: nothing when nobody is signed in; otherwise
     * the current record merged with the patch, levelled up at most once,
     * is stored under the user's key and returned.
     */
    method SaveProgress(patch: Patch) returns (r: Option<Progress>)
      modifies this
      ensures currentUser == old(currentUser)
      ensures old(currentUser).None? ==> r.None? && items == old(items)
      ensures old(currentUser).Some? ==>
                && r == Some(LevelUp(Merge(old(GetProgress()).value, patch)))
                && items == old(items)[UserKey() := r.value]
    {
      if currentUser.None? {
        return None;
      }
      var userKey := "progress_" + NormalizeEmail(currentUser.value.email);
      var current := GetProgress().value;
      var updated := Merge(current, patch);
      if updated.xp > updated.level * 1000 {
        updated := updated.(level := updated.level + 1);
        updated := updated.(xp := updated.xp - (updated.level - 1) * 1000);
      }
      items := items[userKey := updated];
      return Some(updated);
    }

    /**
     * `saveProgress(newData)` with the level-up as written: the same record
     * as the corrected save except, when it levels up, 1000 xp lower.
     */
    method SaveProgressAsWritten(patch: Patch) returns (r: Option<Progress>)
      modifies this
      ensures currentUser == old(currentUser)
      ensures old(currentUser).None? ==> r.None? && items == old(items)
      ensures old(currentUser).Some? ==>
                && r == Some(LevelUpAsWritten(Merge(old(GetProgress()).value, patch)))
                && items == old(items)[UserKey() := r.value]
    {
      if currentUser.None? {
        return None;
      }
      var userKey := "progress_" + NormalizeEmail(currentUser.value.email);
      var current := GetProgress().value;
      var updated := Merge(current, patch);
      if updated.xp > updated.level * 1000 {
        updated := updated.(level := updated.level + 1);
        updated := updated.(xp := updated.xp - updated.level * 1000);
      }
      items := items[userKey := updated];
      return Some(updated);
    }

    /**
     * `addInterviewResult(result)`: with nobody signed in `getProgress()` is
     * null and the call fails (`false`) before anything is stored; otherwise
     * the interview is appended, the score, 500 xp and one module are added
     * and the record is saved.
     */
    method AddInterviewResult(score: int, company: string, kind: string, now: string) returns (ok: bool)
      modifies this
      ensures currentUser == old(currentUser)
      ensures ok <==> old(currentUser).Some?
      ensures !ok ==> items == old(items)
      ensures ok ==> items == old(items)[UserKey() := LevelUp(Recorded(old(GetProgress()).value, score, company, kind, now))]
    {
      var progress := GetProgress();
      if progress.None? {
        return false;
      }
      var p := Recorded(progress.value, score, company, kind, now);
      var saved := SaveProgress(Whole(p));
      assert Merge(progress.value, Whole(p)) == p;
      return true;
    }
  }
}
