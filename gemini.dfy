/**
 * The Gemini plumbing around the network calls: the API keys read from the
 * environment, the round-robin cursor `getGenAIClient` advances on every
 * call, and the list of models `callGemini` tries, without repeats, with the
 * preferred one first.
 */
module Gemini {
  import opened Wrappers
  import opened Text
  import opened Lists

  // ---------------------------------------------------------------- the keys

  /** `Boolean(s)` for a string: it is not empty. */
  predicate NotEmpty(s: string) {
    s != ""
  }

  function TrimAll(parts: seq<string>): (r: seq<string>)
    ensures |r| == |parts| && forall i :: 0 <= i < |parts| ==> r[i] == JsTrim(parts[i])
  {
    seq(|parts|, i requires 0 <= i < |parts| => JsTrim(parts[i]))
  }

  /**
   * `(process.env.GEMINI_API_KEYS || "").split(",").map(k => k.trim()).filter(Boolean)`:
   * the comma-separated keys, trimmed, the empty ones dropped.
   */
  function ParseKeys(env: Option<string>): (keys: seq<string>)
    ensures forall k :: k in keys ==> k != "" && ',' !in k && JsTrim(k) == k
  {
    var parts := Split(env.GetOr(""), ',');
    TrimmedParts(parts);
    Filter(TrimAll(parts), NotEmpty)
  }

  /** Trimmed parts of a split hold no separator and no space at either end. */
  lemma TrimmedParts(parts: seq<string>)
    requires forall i :: 0 <= i < |parts| ==> ',' !in parts[i]
    ensures forall k :: k in TrimAll(parts) ==> ',' !in k && JsTrim(k) == k
  {
    forall i | 0 <= i < |parts|
      ensures ',' !in JsTrim(parts[i]) && JsTrim(JsTrim(parts[i])) == JsTrim(parts[i])
    {
      TrimIdempotent(parts[i], IsJsSpace);
      TrimIsInfix(parts[i], IsJsSpace, ',');
    }
  }

  /** A trimmed part holds no character the part did not. */
  lemma TrimIsInfix(s: string, p: char -> bool, c: char)
    requires c !in s
    ensures c !in Trim(s, p)
  {
    var t := Trim(s, p);
    TrimFacts(s, p);
    var k :| OccursAt(s, t, k);
    forall j | 0 <= j < |t|
      ensures t[j] != c
    {
      assert t[j] == s[k + j];
    }
  }

  /** No key is lost and none is made up: keys written with commas read back as written. */
  lemma {:induction false} ParseKeysJoin(keys: seq<string>)
    requires forall k :: k in keys ==> k != "" && ',' !in k && JsTrim(k) == k
    ensures ParseKeys(Some(Join(keys, ","))) == keys
  {
    if keys == [] {
      assert Split("", ',') == [""];
    } else {
      SplitJoin(keys, ',');
      FilterAll(keys, NotEmpty);
      assert TrimAll(keys) == keys;
    }
  }

  /** Splitting a join of separator-free parts gives the parts back. */
  lemma {:induction false} SplitJoin(parts: seq<string>, sep: char)
    requires |parts| > 0 && forall k :: k in parts ==> sep !in k
    ensures Split(Join(parts, [sep]), sep) == parts
    decreases |parts|
  {
    var s := Join(parts, [sep]);
    if |parts| == 1 {
      assert IndexOfChar(s, sep) == |s|;
    } else {
      var rest := Join(parts[1..], [sep]);
      assert s == parts[0] + [sep] + rest;
      IndexOfCharAfter(parts[0], sep, rest);
      assert s[..|parts[0]|] == parts[0];
      assert s[|parts[0]| + 1..] == rest;
      SplitJoin(parts[1..], sep);
      assert [parts[0]] + parts[1..] == parts;
    }
  }

  lemma {:induction false} IndexOfCharAfter(a: string, c: char, b: string)
    requires c !in a
    ensures IndexOfChar(a + [c] + b, c) == |a|
    decreases |a|
  {
    if a != [] {
      IndexOfCharAfter(a[1..], c, b);
      assert (a + [c] + b)[1..] == a[1..] + [c] + b;
    }
  }

  // ---------------------------------------------------------------- the cursor

  /** `API_KEYS` with `currentKeyIndex`: each client takes the next key, round-robin. */
  class KeyRing {
    const keys: seq<string>
    var cursor: nat

    predicate Valid()
      reads this
    {
      cursor == 0 || cursor < |keys|
    }

    constructor (env: Option<string>)
      ensures keys == ParseKeys(env) && cursor == 0 && Valid()
    {
      keys := ParseKeys(env);
      cursor := 0;
    }

    /**
     * `getGenAIClient`: `None` where it raises "No Gemini API Keys available";
     * otherwise the key under the cursor, and the cursor moves on by one,
     * wrapping at the end.
     */
    method Next() returns (key: Option<string>)
      requires Valid()
      modifies this
      ensures Valid()
      ensures key.None? <==> |keys| == 0
      ensures key.None? ==> cursor == old(cursor)
      ensures key.Some? ==> key.value == keys[old(cursor)] && cursor == Advance(old(cursor), |keys|)
    {
      if |keys| == 0 {
        return None;
      }
      key := Some(keys[cursor]);
      cursor := (cursor + 1) % |keys|;
    }
  }

  /** Where the cursor goes from `c` in a ring of `size` keys: the next key, or back to the first. */
  function Advance(c: nat, size: nat): (d: nat)
    requires c < size
    ensures d < size && d == (c + 1) % size
  {
    if c + 1 == size then
      assert (c + 1) % size == size % size == 0;
      0
    else
      assert (c + 1) % size == c + 1;
      c + 1
  }

  /** The key indices `n` successive clients use, the first of them at cursor `c`. */
  function Schedule(c: nat, n: nat, size: nat): (ix: seq<nat>)
    requires c < size
    ensures |ix| == n && forall i :: 0 <= i < n ==> ix[i] < size
    decreases n
  {
    if n == 0 then [] else [c] + Schedule(Advance(c, size), n - 1, size)
  }

  function Range(a: nat, b: nat): (r: seq<nat>)
    requires a <= b
    ensures |r| == b - a && forall i :: 0 <= i < b - a ==> r[i] == a + i
  {
    seq(b - a, i requires 0 <= i < b - a => a + i)
  }

  /** Until it reaches the last key the cursor walks up one key at a time. */
  lemma {:induction false} ScheduleClimbs(c: nat, n: nat, size: nat)
    requires c < size && c + n <= size
    ensures Schedule(c, n, size) == Range(c, c + n)
    decreases n
  {
    if n > 1 {
      ScheduleClimbs(c + 1, n - 1, size);
      assert Range(c, c + n) == [c] + Range(c + 1, c + n);
    }
  }

  /** After the last key the cursor starts again at the first. */
  lemma {:induction false} ScheduleWraps(c: nat, n: nat, k: nat, size: nat)
    requires c < size && c + n == size
    ensures Schedule(c, n + k, size) == Range(c, size) + Schedule(0, k, size)
    decreases n
  {
    if n > 1 {
      ScheduleWraps(c + 1, n - 1, k, size);
      assert Range(c, size) == [c] + Range(c + 1, size);
    }
  }

  /** Any `size` successive clients, from any cursor, use every key, and none twice. */
  lemma ScheduleFair(c: nat, size: nat)
    requires c < size
    ensures forall k :: 0 <= k < size <==> k in Schedule(c, size, size)
    ensures Distinct(Schedule(c, size, size))
  {
    var s := Schedule(c, size, size);
    ScheduleWraps(c, size - c, c, size);
    ScheduleClimbs(0, c, size);
    assert s == Range(c, size) + Range(0, c);
    forall k | 0 <= k < size
      ensures k in s
    {
      var i := if k >= c then k - c else size - c + k;
      assert s[i] == k;
    }
  }

  // ---------------------------------------------------------------- the models

  /** The models tried after the preferred one. */
  const Fallbacks: seq<string> := ["gemini-2.5-flash", "gemini-flash-latest", "gemini-1.5-flash", "gemini-1.5-flash-latest", "gemini-pro"]

  const DefaultModel := "gemini-2.5-flash"

  /** `[...new Set(modelsToTry)]` in `callGemini`. */
  function ModelsToTry(preferred: string): seq<string> {
    Dedup([preferred] + Fallbacks)
  }

  /** `xs` without any `m`. */
  function Without(xs: seq<string>, m: string): (r: seq<string>)
    ensures forall x :: x in r <==> x in xs && x != m
    decreases |xs|
  {
    if xs == [] then []
    else if xs[|xs| - 1] == m then Without(xs[..|xs| - 1], m)
    else Without(xs[..|xs| - 1], m) + [xs[|xs| - 1]]
  }

  /** Dedup of an element put before a list without repeats: the element, then the list without it. */
  lemma {:induction false} DedupCons(m: string, fs: seq<string>)
    requires Distinct(fs)
    ensures Dedup([m] + fs) == [m] + Without(fs, m)
    decreases |fs|
  {
    if fs != [] {
      var n := |fs| - 1;
      var g := fs[..n];
      DedupCons(m, g);
      assert ([m] + fs)[..n + 1] == [m] + g;
      if fs[n] != m {
        assert fs[n] !in g;
      }
    }
  }

  lemma FallbacksDistinct()
    ensures Distinct(Fallbacks)
  {
    assert Fallbacks[0][7] != Fallbacks[2][7];
    assert forall i :: 0 <= i < 5 ==> |Fallbacks[i]| == [16, 19, 16, 23, 10][i];
  }

  /**
   * The preferred model is tried first, then the fallbacks in their order,
   * with the preferred one not tried twice; so five models when it is one of
   * the fallbacks and six otherwise.
   */
  lemma ModelsToTryShape(preferred: string)
    ensures ModelsToTry(preferred) == [preferred] + Without(Fallbacks, preferred)
    ensures Distinct(ModelsToTry(preferred))
    ensures |ModelsToTry(preferred)| == if preferred in Fallbacks then 5 else 6
  {
    FallbacksDistinct();
    DedupCons(preferred, Fallbacks);
    WithoutLength(Fallbacks, preferred);
  }

  lemma {:induction false} WithoutLength(xs: seq<string>, m: string)
    requires Distinct(xs)
    ensures |Without(xs, m)| == if m in xs then |xs| - 1 else |xs|
    decreases |xs|
  {
    if xs != [] {
      var n := |xs| - 1;
      WithoutLength(xs[..n], m);
      if xs[n] == m {
        assert m !in xs[..n];
      }
    }
  }

  /** With the default preferred model, the list is exactly the fallbacks. */
  lemma DefaultModels()
    ensures ModelsToTry(DefaultModel) == Fallbacks
  {
    ModelsToTryShape(DefaultModel);
    FallbacksDistinct();
    assert Fallbacks == [DefaultModel] + Fallbacks[1..];
    WithoutAbsent(Fallbacks[1..], DefaultModel);
    assert Without(Fallbacks, DefaultModel) == Fallbacks[1..] by {
      WithoutFront(DefaultModel, Fallbacks[1..]);
    }
  }

  lemma {:induction false} WithoutAbsent(xs: seq<string>, m: string)
    requires m !in xs
    ensures Without(xs, m) == xs
    decreases |xs|
  {
    if xs != [] {
      WithoutAbsent(xs[..|xs| - 1], m);
    }
  }

  lemma {:induction false} WithoutFront(m: string, xs: seq<string>)
    ensures Without([m] + xs, m) == Without(xs, m)
    decreases |xs|
  {
    if xs != [] {
      var n := |xs| - 1;
      WithoutFront(m, xs[..n]);
      assert ([m] + xs)[..n + 1] == [m] + xs[..n];
    }
  }
}
