/**
 * JavaScript values as the judge sees them (the catalog's inputs and expected
 * outputs, and whatever a submitted function returns), `JSON.stringify`, and
 * the judge's `isEqual`, which compares two values by their serialisations.
 *
 * Numbers are integers (the catalog holds nothing else). An object is the list
 * of its own enumerable properties in insertion order. JavaScript enumerates
 * integer-like keys first, in ascending order; the catalog has no such keys,
 * so for its objects insertion order is the order `JSON.stringify` and
 * `Object.values` use.
 */
module Json {
  import opened Wrappers
  import opened Text

  datatype Value =
    | Undefined                    // also stands for functions and symbols: JSON.stringify skips them alike
    | Null
    | Bool(b: bool)
    | Num(n: int)
    | Str(s: string)
    | Arr(items: seq<Value>)
    | Obj(fields: seq<(string, Value)>)

  /** No `undefined` anywhere in the value. */
  predicate Defined(v: Value)
    decreases v
  {
    match v
    case Undefined => false
    case Arr(items) => forall i :: 0 <= i < |items| ==> Defined(items[i])
    case Obj(fields) => forall i :: 0 <= i < |fields| ==> Defined(fields[i].1)
    case _ => true
  }

  /** The own property `key` of an object given by its properties, if it has one (the first, should it repeat). */
  function Get<V>(fields: seq<(string, V)>, key: string): (r: Option<V>)
    ensures r.None? <==> forall i :: 0 <= i < |fields| ==> fields[i].0 != key
    ensures r.Some? ==> exists i :: 0 <= i < |fields| && fields[i] == (key, r.value)
    decreases |fields|
  {
    if |fields| == 0 then None
    else if fields[0].0 == key then Some(fields[0].1)
    else
      var r := Get(fields[1..], key);
      assert r.Some? ==> exists i :: 0 <= i < |fields[1..]| && fields[1..][i] == (key, r.value);
      r
  }

  /** `Object.values`: the property values in insertion order. */
  function Values<V>(fields: seq<(string, V)>): (vs: seq<V>)
    ensures |vs| == |fields| && forall i :: 0 <= i < |fields| ==> vs[i] == fields[i].1
    decreases |fields|
  {
    if |fields| == 0 then [] else Values(fields[..|fields| - 1]) + [fields[|fields| - 1].1]
  }

  // ---------------------------------------------------------------- JSON.stringify

  function HexDigit(d: nat): char
    requires d < 16
  {
    "0123456789abcdef"[d]
  }

  /** How `JSON.stringify` writes one character inside a string literal. */
  function EscapeChar(c: char): string {
    if c == '"' then "\\\""
    else if c == '\\' then "\\\\"
    else if c == '\U{0008}' then "\\b"
    else if c == '\U{000C}' then "\\f"
    else if c == '\n' then "\\n"
    else if c == '\r' then "\\r"
    else if c == '\t' then "\\t"
    else if c < ' ' then "\\u00" + [HexDigit(c as int / 16), HexDigit(c as int % 16)]
    else [c]
  }

  function Escape(s: string): string
    decreases |s|
  {
    if s == [] then "" else EscapeChar(s[0]) + Escape(s[1..])
  }

  /** A string literal. */
  function Quote(s: string): string {
    "\"" + Escape(s) + "\""
  }

  /**
   * The serialisation of a value that is not itself `undefined` at the top;
   * an `undefined` array element is written `null` and an object property
   * whose value is `undefined` is left out.
   */
  function Ser(v: Value): string
    decreases v
  {
    match v
    case Undefined => "null"
    case Null => "null"
    case Bool(b) => if b then "true" else "false"
    case Num(n) => IntToString(n)
    case Str(s) => Quote(s)
    case Arr(items) => if |items| == 0 then "[]" else "[" + Ser(items[0]) + ItemsFrom(items, 1) + "]"
    case Obj(fields) => "{" + FieldsFrom(fields, 0, false) + "}"
  }

  /** The array elements from index `i` on, each preceded by a comma. */
  function ItemsFrom(items: seq<Value>, i: nat): string
    requires i <= |items|
    decreases Arr(items), |items| - i
  {
    if i == |items| then "" else "," + Ser(items[i]) + ItemsFrom(items, i + 1)
  }

  /** The properties from index `i` on; `comma` says whether one has been written already. */
  function FieldsFrom(fields: seq<(string, Value)>, i: nat, comma: bool): string
    requires i <= |fields|
    decreases Obj(fields), |fields| - i
  {
    if i == |fields| then ""
    else if fields[i].1.Undefined? then FieldsFrom(fields, i + 1, comma)
    else (if comma then "," else "") + Quote(fields[i].0) + ":" + Ser(fields[i].1) + FieldsFrom(fields, i + 1, true)
  }

  /** `JSON.stringify(v)`: no string at all for `undefined`. */
  function Stringify(v: Value): Option<string> {
    if v.Undefined? then None else Some(Ser(v))
  }

  /** The judge's `isEqual(a, b)`: `JSON.stringify(a) === JSON.stringify(b)`. */
  predicate IsEqual(a: Value, b: Value) {
    Stringify(a) == Stringify(b)
  }

  // ---------------------------------------------------------------- isEqual is structural equality

  /** `isEqual` is an equivalence relation. */
  lemma IsEqualEquivalence(a: Value, b: Value, c: Value)
    ensures IsEqual(a, a)
    ensures IsEqual(a, b) <==> IsEqual(b, a)
    ensures IsEqual(a, b) && IsEqual(b, c) ==> IsEqual(a, c)
  {
  }

  /**
   * For values without `undefined`, two values are `isEqual` exactly when they
   * are the same value: same shapes, same array order, same property names in
   * the same order with equal values.
   */
  lemma IsEqualIsStructural(a: Value, b: Value)
    requires Defined(a) && Defined(b)
    ensures IsEqual(a, b) <==> a == b
  {
    if IsEqual(a, b) {
      assert Ser(a) + "" == Ser(b) + "";
      SerInjective(a, b, "", "");
    }
  }

  /** Property order counts: `{a:1, b:2}` and `{b:2, a:1}` are not `isEqual`. */
  lemma KeyOrderMatters()
    ensures !IsEqual(Obj([("a", Num(1)), ("b", Num(2))]), Obj([("b", Num(2)), ("a", Num(1))]))
  {
    IsEqualIsStructural(Obj([("a", Num(1)), ("b", Num(2))]), Obj([("b", Num(2)), ("a", Num(1))]));
  }

  /** Where `undefined` hides inside a value, `isEqual` is coarser than equality. */
  lemma UndefinedIsCoarse()
    ensures IsEqual(Arr([Undefined]), Arr([Null]))
    ensures IsEqual(Obj([("a", Undefined)]), Obj([]))
    ensures !IsEqual(Undefined, Null)
  {
  }

  // ---------------------------------------------------------------- unique decoding

  predicate NoDigitStart(r: string) {
    r == [] || !IsAsciiDigit(r[0])
  }

  lemma Unroll<T>(s: seq<T>, i: nat)
    requires i < |s|
    ensures s[i..] == [s[i]] + s[i + 1..]
  {
  }

  lemma Cancel(p: string, u: string, v: string)
    requires p + u == p + v
    ensures u == v
  {
    assert u == (p + u)[|p|..];
    assert v == (p + v)[|p|..];
  }

  /** The first character of a serialisation tells which kind of value it is. */
  lemma SerFirst(v: Value)
    requires Defined(v)
    ensures |Ser(v)| > 0
    ensures Ser(v)[0] == 'n' <==> v.Null?
    ensures Ser(v)[0] == 't' <==> v == Bool(true)
    ensures Ser(v)[0] == 'f' <==> v == Bool(false)
    ensures Ser(v)[0] == '"' <==> v.Str?
    ensures Ser(v)[0] == '[' <==> v.Arr?
    ensures Ser(v)[0] == '{' <==> v.Obj?
    ensures (Ser(v)[0] == '-' || IsAsciiDigit(Ser(v)[0])) <==> v.Num?
  {
  }

  lemma EscapeCharFacts(c: char)
    ensures |EscapeChar(c)| > 0 && EscapeChar(c)[0] != '"'
    ensures EscapeChar(c)[0] == '\\' <==> |EscapeChar(c)| > 1
    ensures |EscapeChar(c)| > 1 ==> |EscapeChar(c)| == if EscapeChar(c)[1] == 'u' then 6 else 2
  {
  }

  function HexValue(h: char): nat {
    if '0' <= h <= '9' then h as int - '0' as int
    else if 'a' <= h <= 'f' then h as int - 'a' as int + 10
    else 0
  }

  /** Reads one escape back: the inverse of `EscapeChar`. */
  function UnescapeChar(e: string): char
    requires |e| > 0
  {
    if |e| == 1 || e[0] != '\\' then e[0]
    else if e[1] == 'b' then '\U{0008}'
    else if e[1] == 'f' then '\U{000C}'
    else if e[1] == 'n' then '\n'
    else if e[1] == 'r' then '\r'
    else if e[1] == 't' then '\t'
    else if e[1] == 'u' && |e| == 6 then (16 * HexValue(e[4]) + HexValue(e[5])) as char
    else e[1]
  }

  /** Every character's escape reads back as that character. */
  lemma UnescapeEscapeChar(c: char)
    ensures UnescapeChar(EscapeChar(c)) == c
  {
    if c < ' ' && c != '\U{0008}' && c != '\U{000C}' && c != '\n' && c != '\r' && c != '\t' {
      var hi, lo := c as int / 16, c as int % 16;
      assert HexValue(HexDigit(hi)) == hi;
      assert HexValue(HexDigit(lo)) == lo;
    }
  }

  /** No character's escape is a prefix of another's, and no two characters share one. */
  lemma EscapeCharInjective(c: char, d: char, x: string, y: string)
    requires EscapeChar(c) + x == EscapeChar(d) + y
    ensures c == d && x == y
  {
    var ec, ed := EscapeChar(c), EscapeChar(d);
    EscapeCharFacts(c);
    EscapeCharFacts(d);
    assert ec[0] == (ec + x)[0] == (ed + y)[0] == ed[0];
    if |ec| > 1 {
      assert ec[1] == (ec + x)[1] == (ed + y)[1] == ed[1];
    }
    assert ec == (ec + x)[..|ec|] == (ed + y)[..|ed|] == ed;
    UnescapeEscapeChar(c);
    UnescapeEscapeChar(d);
    Cancel(ec, x, y);
  }

  /** Escaped text, then the closing quote, then whatever follows the literal. */
  function Closed(s: string, x: string): string {
    Escape(s) + ("\"" + x)
  }

  lemma Regroup(p: string, q: string, r: string, x: string)
    ensures p + q + r + x == p + (q + (r + x))
  {
  }

  lemma Regroup4(a: string, b: string, c: string, d: string, t: string)
    ensures a + b + c + d + t == a + (b + (c + (d + t)))
  {
  }

  lemma Regroup5(a: string, b: string, c: string, d: string, e: string, t: string)
    ensures a + b + c + d + e + t == a + (b + (c + (d + (e + t))))
  {
  }

  lemma ClosedLead(s: string, x: string)
    ensures |Closed(s, x)| > 0
    ensures Closed(s, x)[0] == '"' <==> s == []
    ensures s == [] ==> Closed(s, x) == "\"" + x
    ensures s != [] ==> Closed(s, x) == EscapeChar(s[0]) + Closed(s[1..], x)
  {
    if s != [] {
      var e, r := EscapeChar(s[0]), Escape(s[1..]);
      assert Escape(s) == e + r;
      Regroup(e, r, "\"", x);
      assert Closed(s, x) == e + r + ("\"" + x);
      EscapeCharFacts(s[0]);
      assert Closed(s, x)[0] == e[0];
    }
  }

  /** The escaped text of a string literal ends at its closing quote, whatever follows. */
  lemma {:induction false} EscapeInjective(s: string, t: string, x: string, y: string)
    requires Closed(s, x) == Closed(t, y)
    ensures s == t && x == y
    decreases |s|
  {
    ClosedLead(s, x);
    ClosedLead(t, y);
    if s == [] {
      Cancel("\"", x, y);
    } else {
      EscapeCharInjective(s[0], t[0], Closed(s[1..], x), Closed(t[1..], y));
      EscapeInjective(s[1..], t[1..], x, y);
      assert s == [s[0]] + s[1..] && t == [t[0]] + t[1..];
    }
  }

  lemma QuoteInjective(s: string, t: string, x: string, y: string)
    requires Quote(s) + x == Quote(t) + y
    ensures s == t && x == y
  {
    Regroup("\"", Escape(s), "\"", x);
    Regroup("\"", Escape(t), "\"", y);
    Cancel("\"", Closed(s, x), Closed(t, y));
    EscapeInjective(s, t, x, y);
  }

  /** The digits of a number end where the next non-digit begins. */
  lemma DigitsInjective(d: string, e: string, x: string, y: string)
    requires AllChars(d, IsAsciiDigit) && AllChars(e, IsAsciiDigit)
    requires NoDigitStart(x) && NoDigitStart(y) && d + x == e + y
    ensures d == e && x == y
  {
    assert d == (d + x)[..|d|] == (e + y)[..|e|] == e;
    Cancel(d, x, y);
  }

  lemma NatToStringInjective(n: nat, m: nat)
    requires NatToString(n) == NatToString(m)
    ensures n == m
  {
    ParseNatToString(n);
    ParseNatToString(m);
  }

  lemma NumInjective(n: int, m: int, x: string, y: string)
    requires NoDigitStart(x) && NoDigitStart(y) && IntToString(n) + x == IntToString(m) + y
    ensures n == m && x == y
  {
    var a, b := IntToString(n), IntToString(m);
    assert (a + x)[0] == a[0] && (b + y)[0] == b[0];
    if n < 0 {
      assert m < 0;
      NegativeInjective(n, m, x, y);
    } else {
      assert m >= 0;
      DigitsInjective(NatToString(n), NatToString(m), x, y);
      NatToStringInjective(n, m);
    }
  }

  lemma NegativeInjective(n: int, m: int, x: string, y: string)
    requires n < 0 && m < 0
    requires NoDigitStart(x) && NoDigitStart(y) && IntToString(n) + x == IntToString(m) + y
    ensures n == m && x == y
  {
    var d, e := NatToString(-n), NatToString(-m);
    assert IntToString(n) == "-" + d && IntToString(m) == "-" + e;
    MinusCancel(d, e, x, y);
    DigitsInjective(d, e, x, y);
    NatToStringInjective(-n, -m);
  }

  lemma MinusCancel(d: string, e: string, x: string, y: string)
    requires ("-" + d) + x == ("-" + e) + y
    ensures d + x == e + y
  {
    assert ("-" + d) + x == "-" + (d + x);
    assert ("-" + e) + y == "-" + (e + y);
    Cancel("-", d + x, e + y);
  }

  /** An array's elements from index `i` on, its closing bracket, and what follows. */
  function ItemsClosed(xs: seq<Value>, i: nat, x: string): string
    requires i <= |xs|
  {
    ItemsFrom(xs, i) + ("]" + x)
  }

  /** An object's properties from index `i` on, its closing brace, and what follows. */
  function FieldsClosed(fs: seq<(string, Value)>, i: nat, comma: bool, x: string): string
    requires i <= |fs|
  {
    FieldsFrom(fs, i, comma) + ("}" + x)
  }

  lemma ItemsClosedLead(xs: seq<Value>, i: nat, x: string)
    requires i <= |xs|
    ensures NoDigitStart(ItemsClosed(xs, i, x))
    ensures i == |xs| ==> ItemsClosed(xs, i, x) == "]" + x
    ensures i < |xs| ==> ItemsClosed(xs, i, x) == "," + (Ser(xs[i]) + ItemsClosed(xs, i + 1, x))
  {
    if i < |xs| {
      Regroup(",", Ser(xs[i]), ItemsFrom(xs, i + 1), "]" + x);
    }
  }

  lemma FieldsClosedLead(fs: seq<(string, Value)>, i: nat, comma: bool, x: string)
    requires i <= |fs|
    requires forall k :: 0 <= k < |fs| ==> Defined(fs[k].1)
    ensures |FieldsClosed(fs, i, comma, x)| > 0
    ensures NoDigitStart(FieldsClosed(fs, i, comma, x))
    ensures FieldsClosed(fs, i, comma, x)[0] == '}' <==> i == |fs|
    ensures i == |fs| ==> FieldsClosed(fs, i, comma, x) == "}" + x
    ensures i < |fs| ==>
              FieldsClosed(fs, i, comma, x)
              == (if comma then "," else "") + (Quote(fs[i].0) + (":" + (Ser(fs[i].1) + FieldsClosed(fs, i + 1, true, x))))
  {
    if i < |fs| {
      assert !fs[i].1.Undefined?;
      var c := if comma then "," else "";
      Regroup5(c, Quote(fs[i].0), ":", Ser(fs[i].1), FieldsFrom(fs, i + 1, true), "}" + x);
      assert FieldsClosed(fs, i, comma, x)[0] == (if comma then ',' else '"');
    }
  }

  /**
   * Unique decoding: a serialisation followed by text that does not start with
   * a digit determines both the value and the text that follows.
   */
  lemma {:induction false} SerInjective(a: Value, b: Value, x: string, y: string)
    requires Defined(a) && Defined(b) && NoDigitStart(x) && NoDigitStart(y)
    requires Ser(a) + x == Ser(b) + y
    ensures a == b && x == y
    decreases a, 2
  {
    SerFirst(a);
    SerFirst(b);
    assert (Ser(a) + x)[0] == Ser(a)[0] && (Ser(b) + y)[0] == Ser(b)[0];
    match a
    case Null =>
      assert b.Null?;
      Cancel(Ser(a), x, y);
    case Bool(_) =>
      assert b == a;
      Cancel(Ser(a), x, y);
    case Num(n) =>
      NumInjective(n, b.n, x, y);
    case Str(s) =>
      QuoteInjective(s, b.s, x, y);
    case Arr(xs) =>
      ArrInjective(xs, b.items, x, y);
    case Obj(fs) =>
      var gs := b.fields;
      assert b == Obj(gs);
      Regroup("{", FieldsFrom(fs, 0, false), "}", x);
      Regroup("{", FieldsFrom(gs, 0, false), "}", y);
      Cancel("{", FieldsClosed(fs, 0, false, x), FieldsClosed(gs, 0, false, y));
      FieldsInjective(fs, 0, gs, 0, false, x, y);
  }

  lemma ArrLead(xs: seq<Value>, x: string)
    requires Defined(Arr(xs))
    ensures |Ser(Arr(xs)) + x| > 1
    ensures (Ser(Arr(xs)) + x)[1] == ']' <==> |xs| == 0
    ensures |xs| == 0 ==> Ser(Arr(xs)) + x == "[]" + x
    ensures |xs| > 0 ==> Ser(Arr(xs)) + x == "[" + (Ser(xs[0]) + ItemsClosed(xs, 1, x))
  {
    if |xs| > 0 {
      SerFirst(xs[0]);
      Regroup4("[", Ser(xs[0]), ItemsFrom(xs, 1), "]", x);
      assert (Ser(Arr(xs)) + x)[1] == Ser(xs[0])[0];
    }
  }

  lemma {:induction false} ArrInjective(xs: seq<Value>, ys: seq<Value>, x: string, y: string)
    requires Defined(Arr(xs)) && Defined(Arr(ys)) && NoDigitStart(x) && NoDigitStart(y)
    requires Ser(Arr(xs)) + x == Ser(Arr(ys)) + y
    ensures xs == ys && x == y
    decreases Arr(xs), 1
  {
    var l, r := Ser(Arr(xs)) + x, Ser(Arr(ys)) + y;
    ArrLead(xs, x);
    ArrLead(ys, y);
    if |xs| == 0 {
      Cancel("[]", x, y);
    } else {
      Cancel("[", Ser(xs[0]) + ItemsClosed(xs, 1, x), Ser(ys[0]) + ItemsClosed(ys, 1, y));
      ItemsClosedLead(xs, 1, x);
      ItemsClosedLead(ys, 1, y);
      SerInjective(xs[0], ys[0], ItemsClosed(xs, 1, x), ItemsClosed(ys, 1, y));
      ItemsInjective(xs, 1, ys, 1, x, y);
      Unroll(xs, 0);
      Unroll(ys, 0);
    }
  }

  lemma {:induction false} ItemsInjective(xs: seq<Value>, i: nat, ys: seq<Value>, j: nat, x: string, y: string)
    requires i <= |xs| && j <= |ys|
    requires forall k :: 0 <= k < |xs| ==> Defined(xs[k])
    requires forall k :: 0 <= k < |ys| ==> Defined(ys[k])
    requires ItemsClosed(xs, i, x) == ItemsClosed(ys, j, y)
    ensures xs[i..] == ys[j..] && x == y
    decreases Arr(xs), 0, |xs| - i
  {
    ItemsClosedLead(xs, i, x);
    ItemsClosedLead(ys, j, y);
    if i == |xs| || j == |ys| {
      assert ItemsClosed(xs, i, x)[0] == ItemsClosed(ys, j, y)[0];
      Cancel("]", x, y);
    } else {
      var tx, ty := ItemsClosed(xs, i + 1, x), ItemsClosed(ys, j + 1, y);
      Cancel(",", Ser(xs[i]) + tx, Ser(ys[j]) + ty);
      ItemsClosedLead(xs, i + 1, x);
      ItemsClosedLead(ys, j + 1, y);
      SerInjective(xs[i], ys[j], tx, ty);
      ItemsInjective(xs, i + 1, ys, j + 1, x, y);
      Unroll(xs, i);
      Unroll(ys, j);
    }
  }

  /** One property, `"key":value`, followed by text that does not start with a digit. */
  lemma {:induction false} FieldInjective(c: string, k1: string, v1: Value, k2: string, v2: Value, u1: string, u2: string)
    requires Defined(v1) && Defined(v2) && NoDigitStart(u1) && NoDigitStart(u2)
    requires c + (Quote(k1) + (":" + (Ser(v1) + u1))) == c + (Quote(k2) + (":" + (Ser(v2) + u2)))
    ensures k1 == k2 && v1 == v2 && u1 == u2
    decreases v1, 3
  {
    Cancel(c, Quote(k1) + (":" + (Ser(v1) + u1)), Quote(k2) + (":" + (Ser(v2) + u2)));
    QuoteInjective(k1, k2, ":" + (Ser(v1) + u1), ":" + (Ser(v2) + u2));
    Cancel(":", Ser(v1) + u1, Ser(v2) + u2);
    SerInjective(v1, v2, u1, u2);
  }

  /** The first property of two equal object tails is the same, and so is the rest. */
  lemma {:induction false} FieldsHead(fs: seq<(string, Value)>, i: nat, gs: seq<(string, Value)>, j: nat,
                                      comma: bool, x: string, y: string)
    requires i < |fs| && j <= |gs|
    requires forall k :: 0 <= k < |fs| ==> Defined(fs[k].1)
    requires forall k :: 0 <= k < |gs| ==> Defined(gs[k].1)
    requires FieldsClosed(fs, i, comma, x) == FieldsClosed(gs, j, comma, y)
    ensures j < |gs| && fs[i] == gs[j] && FieldsClosed(fs, i + 1, true, x) == FieldsClosed(gs, j + 1, true, y)
    decreases Obj(fs), 0, |fs| - i, 0
  {
    FieldsClosedLead(fs, i, comma, x);
    FieldsClosedLead(gs, j, comma, y);
    FieldsClosedLead(fs, i + 1, true, x);
    FieldsClosedLead(gs, j + 1, true, y);
    var c := if comma then "," else "";
    FieldInjective(c, fs[i].0, fs[i].1, gs[j].0, gs[j].1, FieldsClosed(fs, i + 1, true, x), FieldsClosed(gs, j + 1, true, y));
  }

  lemma {:induction false} FieldsInjective(fs: seq<(string, Value)>, i: nat, gs: seq<(string, Value)>, j: nat,
                                           comma: bool, x: string, y: string)
    requires i <= |fs| && j <= |gs|
    requires forall k :: 0 <= k < |fs| ==> Defined(fs[k].1)
    requires forall k :: 0 <= k < |gs| ==> Defined(gs[k].1)
    requires FieldsClosed(fs, i, comma, x) == FieldsClosed(gs, j, comma, y)
    ensures fs[i..] == gs[j..] && x == y
    decreases Obj(fs), 0, |fs| - i, 1
  {
    if i == |fs| {
      FieldsClosedLead(fs, i, comma, x);
      FieldsClosedLead(gs, j, comma, y);
      Cancel("}", x, y);
    } else {
      FieldsHead(fs, i, gs, j, comma, x, y);
      FieldsInjective(fs, i + 1, gs, j + 1, true, x, y);
      Unroll(fs, i);
      Unroll(gs, j);
    }
  }
}
