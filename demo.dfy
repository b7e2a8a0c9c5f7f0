/** The demonstration program (`demo/buggy.py`) and its test suite
    (`demo/test_cases.py`): a loop that classifies list items, once with the
    off-by-one bound `range(len(items) + 1)` and once with the corrected bound,
    and the eight unit tests that pin both behaviours down. The progress lines
    the loop prints are summarised by the record of the items it processed. */
module Demo {
  import opened Text

  /** The two branches of the classification: items whose text starts with
      "重要" are important, all others are normal. */
  datatype Kind = Important | Normal

  function Classify(item: string): (k: Kind)
    ensures k == Important <==> StartsWith(item, "重要")
  {
    if StartsWith(item, "重要") then Important else Normal
  }

  /** One pass of the loop body: the index, the item read there, and its branch. */
  datatype Processed = Processed(index: nat, item: string, kind: Kind)

  /** Every item processed exactly once, in index order. */
  function Classified(items: seq<string>): (p: seq<Processed>)
    ensures |p| == |items|
    ensures forall k :: 0 <= k < |p| ==> p[k] == Processed(k, items[k], Classify(items[k]))
  {
    seq(|items|, k requires 0 <= k < |items| => Processed(k, items[k], Classify(items[k])))
  }

  /** How a call ends: the completion message after the loop, or an `IndexError`
      raised by `items[i]` at index `at`; either way with the items processed before. */
  datatype Outcome = Completed(processed: seq<Processed>) | IndexError(at: nat, processed: seq<Processed>)

  /** `process_items`: the loop runs `i` over `0..len(items)` inclusive, so after
      processing every item once it reads one past the end and raises; the
      completion message is never reached, for any list, the empty one included. */
  method ProcessItems(items: seq<string>) returns (o: Outcome)
    ensures o == IndexError(|items|, Classified(items))
  {
    var processed: seq<Processed> := [];
    for i := 0 to |items| + 1
      invariant i <= |items|
      invariant |processed| == i
      invariant forall k :: 0 <= k < i ==> processed[k] == Processed(k, items[k], Classify(items[k]))
    {
      if i >= |items| {
        return IndexError(i, processed);
      }
      processed := processed + [Processed(i, items[i], Classify(items[i]))];
    }
    assert false;
  }

  /** `process_items_fixed`: the loop runs `i` over `0..len(items) - 1`, every read
      is in bounds, every item is processed once in order and the completion
      message follows the loop. */
  method ProcessItemsFixed(items: seq<string>) returns (o: Outcome)
    ensures o == Completed(Classified(items))
  {
    var processed: seq<Processed> := [];
    for i := 0 to |items|
      invariant |processed| == i
      invariant forall k :: 0 <= k < i ==> processed[k] == Processed(k, items[k], Classify(items[k]))
    {
      processed := processed + [Processed(i, items[i], Classify(items[i]))];
    }
    return Completed(processed);
  }

  /** Classification of the items the tests use, and the ones of the demo program. */
  lemma ClassifyExamples()
    ensures Classify("重要-项目A") == Important
    ensures Classify("项目@B") == Normal
    ensures Classify("单个项目") == Normal
  {
    assert StartsWith("重要-项目A", "重要") by { assert "重要-项目A"[..2] == "重要"; }
    assert !StartsWith("项目@B", "重要") by { assert "项目@B"[0] != "重要"[0]; }
    assert !StartsWith("单个项目", "重要") by { assert "单个项目"[0] != "重要"[0]; }
  }

  /** How a unittest case ends. */
  datatype TestOutcome = Pass | Failure | Error

  /** `with self.assertRaises(IndexError)`: passes when the call raised an
      `IndexError`, fails when it returned normally. */
  function AssertRaisesIndexError(o: Outcome): (t: TestOutcome)
    ensures t == Pass <==> o.IndexError?
    ensures t != Error
  {
    if o.IndexError? then Pass else Failure
  }

  /** `try: … except Exception as e: self.fail(…)`: passes when the call returned
      normally, fails when it raised. */
  function AssertNoException(o: Outcome): (t: TestOutcome)
    ensures t == Pass <==> o.Completed?
    ensures t != Error
  {
    if o.Completed? then Pass else Failure
  }

  /** The ten items `["项目0", …, "项目9"]` of the large-list test. */
  function LargeList(): (items: seq<string>)
    ensures |items| == 10
    ensures forall k :: 0 <= k < 10 ==> items[k] == "项目" + NatToString(k)
  {
    seq(10, k requires 0 <= k < 10 => "项目" + NatToString(k))
  }

  method TestNormalList() returns (t: TestOutcome)
    ensures t == Pass
  {
    var o := ProcessItems(["项目A", "项目B", "项目C"]);
    t := AssertRaisesIndexError(o);
  }

  method TestEmptyList() returns (t: TestOutcome)
    ensures t == Pass
  {
    var o := ProcessItems([]);
    t := AssertRaisesIndexError(o);
  }

  method TestSingleItem() returns (t: TestOutcome)
    ensures t == Pass
  {
    var o := ProcessItems(["单个项目"]);
    t := AssertRaisesIndexError(o);
  }

  method TestLargeList() returns (t: TestOutcome)
    ensures t == Pass
  {
    var o := ProcessItems(LargeList());
    t := AssertRaisesIndexError(o);
  }

  method TestSpecialCharacters() returns (t: TestOutcome)
    ensures t == Pass
  {
    var o := ProcessItems(["重要-项目A", "项目@B", "项目#C"]);
    t := AssertRaisesIndexError(o);
  }

  method TestFixedNormalList() returns (t: TestOutcome)
    ensures t == Pass
  {
    var o := ProcessItemsFixed(["项目A", "项目B", "项目C"]);
    t := AssertNoException(o);
  }

  method TestFixedEmptyList() returns (t: TestOutcome)
    ensures t == Pass
  {
    var o := ProcessItemsFixed([]);
    t := AssertNoException(o);
  }

  method TestFixedSingleItem() returns (t: TestOutcome)
    ensures t == Pass
  {
    var o := ProcessItemsFixed(["单个项目"]);
    t := AssertNoException(o);
  }

  /** The summary `run_all_tests` prints. */
  datatype TestSummary = TestSummary(testsRun: nat, failures: nat, errors: nat, successes: int)

  /** Number of outcomes equal to `t`. */
  function Count(outcomes: seq<TestOutcome>, t: TestOutcome): (n: nat)
    ensures n <= |outcomes|
  {
    if outcomes == [] then 0
    else Count(outcomes[..|outcomes| - 1], t) + (if outcomes[|outcomes| - 1] == t then 1 else 0)
  }

  /** Every case ends in exactly one of the three ways. */
  lemma {:induction false} CountsPartition(outcomes: seq<TestOutcome>)
    ensures Count(outcomes, Pass) + Count(outcomes, Failure) + Count(outcomes, Error) == |outcomes|
    ensures Count(outcomes, Pass) == |outcomes| <==> forall k :: 0 <= k < |outcomes| ==> outcomes[k] == Pass
  {
    if outcomes != [] {
      var init := outcomes[..|outcomes| - 1];
      CountsPartition(init);
      if Count(outcomes, Pass) == |outcomes| {
        forall k | 0 <= k < |outcomes| ensures outcomes[k] == Pass {
          if k < |init| { assert init[k] == outcomes[k]; }
        }
      }
      if forall k :: 0 <= k < |outcomes| ==> outcomes[k] == Pass {
        assert forall k :: 0 <= k < |init| ==> init[k] == outcomes[k];
      }
    }
  }

  /** The printed summary: tests run, failures, errors, and successes computed as
      `testsRun - failures - errors`, which is the number of passing cases. */
  function Summarise(outcomes: seq<TestOutcome>): (s: TestSummary)
    ensures s.testsRun == |outcomes|
    ensures s.failures == Count(outcomes, Failure) && s.errors == Count(outcomes, Error)
    ensures s.successes == Count(outcomes, Pass)
  {
    CountsPartition(outcomes);
    var failures := Count(outcomes, Failure);
    var errors := Count(outcomes, Error);
    TestSummary(|outcomes|, failures, errors, |outcomes| - failures - errors)
  }

  /** `run_all_tests`: the five cases of the original version, then the three of the
      fixed version, in suite order; all eight pass. */
  method RunAllTests() returns (s: TestSummary)
    ensures s == TestSummary(8, 0, 0, 8)
  {
    var t1 := TestNormalList();
    var t2 := TestEmptyList();
    var t3 := TestSingleItem();
    var t4 := TestLargeList();
    var t5 := TestSpecialCharacters();
    var t6 := TestFixedNormalList();
    var t7 := TestFixedEmptyList();
    var t8 := TestFixedSingleItem();
    var outcomes := [t1, t2, t3, t4, t5, t6, t7, t8];
    CountsPartition(outcomes);
    assert Count(outcomes, Pass) == 8;
    s := Summarise(outcomes);
  }
}
