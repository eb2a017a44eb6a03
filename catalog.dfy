/**
 * The judge's problem catalog: for each problem title, the test cases to run
 * in order, each an input object (whose property values, in insertion order,
 * are the arguments) and the expected return value.
 */
module Catalog {
  import opened Wrappers
  import opened Json

  datatype TestCase = TestCase(input: seq<(string, Value)>, expected: Value)

  /**
   * `isLinkedList` and `isTree` say how the arrays in the inputs are meant to be
   * read; nothing in the judge looks at them.
   */
  datatype Problem = Problem(testCases: seq<TestCase>, isLinkedList: bool, isTree: bool)

  function Ints(xs: seq<int>): (v: Value)
    ensures v.Arr? && |v.items| == |xs| && forall i :: 0 <= i < |xs| ==> v.items[i] == Num(xs[i])
  {
    Arr(seq(|xs|, i requires 0 <= i < |xs| => Num(xs[i])))
  }

  const TwoSum := Problem([
    TestCase([("nums", Ints([2, 7, 11, 15])), ("target", Num(9))], Ints([0, 1])),
    TestCase([("nums", Ints([3, 2, 4])), ("target", Num(6))], Ints([1, 2])),
    TestCase([("nums", Ints([3, 3])), ("target", Num(6))], Ints([0, 1]))
  ], false, false)

  const ValidParentheses := Problem([
    TestCase([("s", Str("()"))], Bool(true)),
    TestCase([("s", Str("()[]{}"))], Bool(true)),
    TestCase([("s", Str("(]"))], Bool(false)),
    TestCase([("s", Str("([)]"))], Bool(false)),
    TestCase([("s", Str("{[]}"))], Bool(true))
  ], false, false)

  const ReverseLinkedList := Problem([
    TestCase([("head", Ints([1, 2, 3, 4, 5]))], Ints([5, 4, 3, 2, 1])),
    TestCase([("head", Ints([1, 2]))], Ints([2, 1])),
    TestCase([("head", Ints([]))], Ints([]))
  ], true, false)

  const InorderTraversal := Problem([
    TestCase([("root", Arr([Num(1), Null, Num(2), Num(3)]))], Ints([1, 3, 2])),
    TestCase([("root", Ints([]))], Ints([])),
    TestCase([("root", Ints([1]))], Ints([1]))
  ], false, true)

  const ClimbingStairs := Problem([
    TestCase([("n", Num(2))], Num(2)),
    TestCase([("n", Num(3))], Num(3)),
    TestCase([("n", Num(4))], Num(5))
  ], false, false)

  /** `problemTestCases`, in the order its properties are written. */
  const Problems: seq<(string, Problem)> := [
    ("Two Sum", TwoSum),
    ("Valid Parentheses", ValidParentheses),
    ("Reverse Linked List", ReverseLinkedList),
    ("Binary Tree Inorder Traversal", InorderTraversal),
    ("Climbing Stairs", ClimbingStairs)
  ]

  const Titles: seq<string> := ["Two Sum", "Valid Parentheses", "Reverse Linked List", "Binary Tree Inorder Traversal", "Climbing Stairs"]

  /** The catalog's own entry for `title`. */
  function Lookup(title: string): Option<Problem> {
    Get(Problems, title)
  }

  /** The arguments a test case passes: `Object.values(test.input)`. */
  function Args(t: TestCase): seq<Value> {
    Values(t.input)
  }

  /** Exactly five problems, under five distinct titles, none of them without test cases. */
  lemma CatalogShape()
    ensures |Problems| == 5
    ensures forall i :: 0 <= i < |Problems| ==> Problems[i].0 == Titles[i] && |Problems[i].1.testCases| > 0
    ensures forall i, j :: 0 <= i < j < |Titles| ==> Titles[i] != Titles[j]
  {
    assert forall i :: 0 <= i < |Titles| ==> |Titles[i]| == [7, 17, 19, 29, 15][i];
  }

  /** A title finds the entry written under it, and only the five titles find anything. */
  lemma LookupFinds(title: string)
    ensures Lookup(title).Some? <==> title in Titles
    ensures forall i :: 0 <= i < |Titles| && Titles[i] == title ==> Lookup(title) == Some(Problems[i].1)
  {
    CatalogShape();
    if title in Titles {
      var i :| 0 <= i < |Titles| && Titles[i] == title;
      assert Problems[i].0 == title;
      var r := Lookup(title);
      var j :| 0 <= j < |Problems| && Problems[j] == (title, r.value);
      assert Titles[j] == title;
    } else {
      assert forall i :: 0 <= i < |Problems| ==> Problems[i].0 != title;
    }
  }

  lemma TwoSumCases()
    ensures Lookup("Two Sum") == Some(TwoSum)
    ensures |TwoSum.testCases| == 3
    ensures Args(TwoSum.testCases[0]) == [Ints([2, 7, 11, 15]), Num(9)] && TwoSum.testCases[0].expected == Ints([0, 1])
    ensures Args(TwoSum.testCases[1]) == [Ints([3, 2, 4]), Num(6)] && TwoSum.testCases[1].expected == Ints([1, 2])
    ensures Args(TwoSum.testCases[2]) == [Ints([3, 3]), Num(6)] && TwoSum.testCases[2].expected == Ints([0, 1])
  {
  }

  lemma ValidParenthesesCases()
    ensures Lookup("Valid Parentheses") == Some(ValidParentheses)
    ensures |ValidParentheses.testCases| == 5
    ensures Args(ValidParentheses.testCases[0]) == [Str("()")] && ValidParentheses.testCases[0].expected == Bool(true)
    ensures Args(ValidParentheses.testCases[1]) == [Str("()[]{}")] && ValidParentheses.testCases[1].expected == Bool(true)
    ensures Args(ValidParentheses.testCases[2]) == [Str("(]")] && ValidParentheses.testCases[2].expected == Bool(false)
    ensures Args(ValidParentheses.testCases[3]) == [Str("([)]")] && ValidParentheses.testCases[3].expected == Bool(false)
    ensures Args(ValidParentheses.testCases[4]) == [Str("{[]}")] && ValidParentheses.testCases[4].expected == Bool(true)
  {
    LookupFinds("Valid Parentheses");
    assert Titles[1] == "Valid Parentheses";
  }

  lemma ClimbingStairsCases()
    ensures Lookup("Climbing Stairs") == Some(ClimbingStairs)
    ensures |ClimbingStairs.testCases| == 3
    ensures forall i :: 0 <= i < 3 ==>
              Args(ClimbingStairs.testCases[i]) == [Num(i + 2)] && ClimbingStairs.testCases[i].expected == Num([2, 3, 5][i])
  {
    LookupFinds("Climbing Stairs");
    assert Titles[4] == "Climbing Stairs";
  }

  /** Only the linked-list problem is marked as a linked list, only the traversal as a tree. */
  lemma ShapeFlags()
    ensures forall i :: 0 <= i < |Problems| ==> (Problems[i].1.isLinkedList <==> Problems[i].0 == "Reverse Linked List")
    ensures forall i :: 0 <= i < |Problems| ==> (Problems[i].1.isTree <==> Problems[i].0 == "Binary Tree Inorder Traversal")
  {
  }

  /**
   * Arguments go in the order the input's properties are written: Two Sum gets
   * `nums` before `target`.
   */
  lemma ArgumentOrder()
    ensures forall t :: t in TwoSum.testCases ==>
              |t.input| == 2 && t.input[0].0 == "nums" && t.input[1].0 == "target" && Args(t) == [t.input[0].1, t.input[1].1]
  {
  }

  /** Every expected value is free of `undefined` and is never a string. */
  lemma ExpectedValues(p: Problem, t: TestCase)
    requires (exists i :: 0 <= i < |Problems| && Problems[i].1 == p) && t in p.testCases
    ensures Defined(t.expected) && !t.expected.Str?
  {
    var i :| 0 <= i < |Problems| && Problems[i].1 == p;
    assert forall k :: 0 <= k < 6 ==> Defined(Num(k));
  }
}
