/** The rule tables of the diagnostic back end (`backend/main.py`): which root-cause
    hypotheses an error message suggests, which instrumentation a hypothesis calls
    for, which patch it leads to, and how a regression run is summarised. HTTP
    routing, logging, timestamps and the floating-point confidences are not part
    of these rules; confidences are kept as integer percentages. */
module Backend {
  import opened Text

  /** The fields of a bug report these rules read (`error_message`, `stack_trace`). */
  datatype BugReport = BugReport(errorMessage: string, stackTrace: seq<string>)

  /** A candidate root cause; `confidence` is the source's fraction times 100. */
  datatype Hypothesis = Hypothesis(description: string, evidence: string, confidence: nat)

  /** Where the loop-boundary evidence points: the first stack frame, if any. */
  function Location(stackTrace: seq<string>): string
  {
    if |stackTrace| > 0 then stackTrace[0] else "未知位置"
  }

  const LoopBoundaryText: string := "循环边界" + "错误: range(len(items)+1) 应该是 range(len(items))"

  /** The off-by-one loop hypothesis an `IndexError` suggests first. */
  function LoopBoundary(stackTrace: seq<string>): Hypothesis
  {
    Hypothesis(LoopBoundaryText, "堆栈跟踪显示 " + Location(stackTrace), 85)
  }

  const EmptyList: Hypothesis := Hypothesis("空列表处理不当", "可能传入了空列表导致索引访问失败", 65)

  const Concurrency: Hypothesis := Hypothesis("列表状态异常: 并发访问或意外修改", "多线程环境下列表可能被意外修改", 45)

  /** The generic logic-error hypothesis, quoting the error message. */
  function LogicError(errorMessage: string): Hypothesis
  {
    Hypothesis("代码逻辑错误", "错误信息: " + errorMessage, 70)
  }

  const BadInput: Hypothesis := Hypothesis("输入数据异常", "可能是输入参数不符合预期", 60)

  /** The message names an `IndexError`. */
  predicate IndexErrorRule(errorMessage: string)
  {
    Contains(errorMessage, "IndexError")
  }

  /** The lower-cased message mentions a list. */
  predicate ListRule(errorMessage: string)
  {
    Contains(Lower(errorMessage), "list")
  }

  /** `analyze_root_cause`: the two `IndexError` hypotheses, then the list-state
      hypothesis, each group when its rule fires; the two generic hypotheses when
      neither does. */
  method AnalyzeRootCause(report: BugReport) returns (hypotheses: seq<Hypothesis>)
    ensures |hypotheses| > 0
    ensures IndexErrorRule(report.errorMessage) ==>
              |hypotheses| >= 2 && hypotheses[0] == LoopBoundary(report.stackTrace) && hypotheses[1] == EmptyList
    ensures ListRule(report.errorMessage) ==> hypotheses[|hypotheses| - 1] == Concurrency
    ensures IndexErrorRule(report.errorMessage) || ListRule(report.errorMessage) ==>
              |hypotheses| == (if IndexErrorRule(report.errorMessage) then 2 else 0)
                              + (if ListRule(report.errorMessage) then 1 else 0)
    ensures !IndexErrorRule(report.errorMessage) && !ListRule(report.errorMessage) ==>
              hypotheses == [LogicError(report.errorMessage), BadInput]
  {
    hypotheses := [];
    if IndexErrorRule(report.errorMessage) {
      hypotheses := hypotheses + [LoopBoundary(report.stackTrace), EmptyList];
    }
    if ListRule(report.errorMessage) {
      hypotheses := hypotheses + [Concurrency];
    }
    if hypotheses == [] {
      hypotheses := [LogicError(report.errorMessage), BadInput];
    }
  }

  /** The message of the demo program's failure fires both rules. */
  lemma TypicalMessageFiresBoth()
    ensures IndexErrorRule("IndexError: list index out of range")
    ensures ListRule("IndexError: list index out of range")
  {
    var m := "IndexError: " + "list" + " index out of range";
    assert m == "IndexError: list index out of range";
    ContainsAt(m, "IndexError", 0);
    assert Lower(m)[12..16] == "list";
    ContainsAt(Lower(m), "list", 12);
  }

  /** Scenario: the demo program's failure gets exactly the three hypotheses, the
      loop boundary first. */
  method AnalyzeTypicalFailure(stackTrace: seq<string>) returns (hypotheses: seq<Hypothesis>)
    ensures hypotheses == [LoopBoundary(stackTrace), EmptyList, Concurrency]
  {
    TypicalMessageFiresBoth();
    hypotheses := AnalyzeRootCause(BugReport("IndexError: list index out of range", stackTrace));
  }

  /** Probes for a loop hypothesis. */
  const LoopProbes: seq<string> := [
    "在循环入口添加: print(f'循环范围: i={i}, len(items)={len(items)}')",
    "在索引访问前添加: assert i < len(items), f'索引越界: {i} >= {len(items)}'",
    "在函数入口添加: print(f'输入参数: items={items}, 长度={len(items)}')"]

  /** Probes for an empty-list hypothesis. */
  const EmptyProbes: seq<string> := [
    "在函数开始添加: if not items: print('警告: 输入列表为空')",
    "添加长度检查: print(f'列表长度检查: {len(items)}')"]

  /** Probes for a concurrency hypothesis. */
  const ConcurrencyProbes: seq<string> := [
    "添加线程安全检查: import threading; print(f'当前线程: {threading.current_thread().name}')",
    "添加状态快照: print(f'列表状态快照: {items.copy()}')"]

  /** Probes when no rule fires. */
  const DefaultProbes: seq<string> := [
    "添加调试输出: print(f'调试信息: 当前状态')",
    "添加异常捕获: try-except 包装关键代码"]

  predicate LoopRule(description: string)
  {
    Contains(description, "循环") || Contains(description, "range")
  }

  predicate EmptyRule(description: string)
  {
    Contains(description, "空列表")
  }

  predicate ConcurrencyRule(description: string)
  {
    Contains(description, "并发")
  }

  /** `generate_instrumentation`: the probe groups of every rule the description
      fires, in the fixed order loop, empty list, concurrency; the default pair
      when none fires. */
  method GenerateInstrumentation(description: string) returns (probes: seq<string>)
    ensures |probes| > 0
    ensures LoopRule(description) || EmptyRule(description) || ConcurrencyRule(description) ==>
              probes == (if LoopRule(description) then LoopProbes else [])
                        + (if EmptyRule(description) then EmptyProbes else [])
                        + (if ConcurrencyRule(description) then ConcurrencyProbes else [])
    ensures !(LoopRule(description) || EmptyRule(description) || ConcurrencyRule(description)) ==>
              probes == DefaultProbes
    ensures |probes| == if LoopRule(description) || EmptyRule(description) || ConcurrencyRule(description)
                        then (if LoopRule(description) then 3 else 0) + (if EmptyRule(description) then 2 else 0)
                             + (if ConcurrencyRule(description) then 2 else 0)
                        else 2
  {
    probes := [];
    if LoopRule(description) {
      probes := probes + LoopProbes;
    }
    if EmptyRule(description) {
      probes := probes + EmptyProbes;
    }
    if ConcurrencyRule(description) {
      probes := probes + ConcurrencyProbes;
    }
    if probes == [] {
      probes := DefaultProbes;
    }
  }

  /** The loop-boundary hypothesis fires the loop rule, the empty-list hypothesis the
      empty-list rule and the list-state hypothesis the concurrency rule. */
  lemma HypothesesFireTheirProbes(stackTrace: seq<string>)
    ensures LoopRule(LoopBoundary(stackTrace).description)
    ensures EmptyRule(EmptyList.description)
    ensures ConcurrencyRule(Concurrency.description)
  {
    ContainsAt(LoopBoundaryText, "循环", 0);
    ContainsAt(EmptyList.description, "空列表", 0);
    ContainsAt(Concurrency.description, "并发", 8);
  }

  /** Scenario: instrumenting the loop-boundary hypothesis starts with the loop probes. */
  method InstrumentLoopBoundary(stackTrace: seq<string>) returns (probes: seq<string>)
    ensures |probes| >= 3 && probes[..3] == LoopProbes
  {
    HypothesesFireTheirProbes(stackTrace);
    probes := GenerateInstrumentation(LoopBoundary(stackTrace).description);
  }

  datatype Patch = Patch(oldCode: string, newCode: string, filePath: string, lineNumber: nat, patchType: string)

  const RangePatch: Patch :=
    Patch("for i in range(len(items) + 1):", "for i in range(len(items)):", "buggy.py", 42, "循环边界修复")

  const GenericPatch: Patch := Patch("# 原始代码", "# 修复后代码", "unknown.py", 1, "通用修复")

  /** `generate_patch`: the range fix in `buggy.py` exactly when the hypothesis is
      about a loop boundary, the generic placeholder otherwise. */
  function GeneratePatch(description: string): (p: Patch)
    ensures p == RangePatch <==> Contains(description, "循环边界")
    ensures p == GenericPatch <==> !Contains(description, "循环边界")
    ensures p.filePath == "buggy.py" ==> p.lineNumber == 42 && p.newCode == "for i in range(len(items)):"
  {
    if Contains(description, "循环边界") then RangePatch else GenericPatch
  }

  /** The first hypothesis of an `IndexError` leads to the range fix. */
  lemma LoopBoundaryGetsRangePatch(stackTrace: seq<string>)
    ensures GeneratePatch(LoopBoundary(stackTrace).description) == RangePatch
  {
    ContainsAt(LoopBoundaryText, "循环边界", 0);
  }

  /** The impact list that accompanies every patch. */
  const ImpactAnalysis: seq<string> := [
    "影响的测试用例: case_001, case_002, case_003, case_004",
    "影响的函数: process_items()",
    "潜在副作用: 无",
    "向后兼容性: 完全兼容"]

  /** The outcome of each named test, in the order of the results table. */
  type TestResults = seq<(string, string)>

  /** Number of results equal to "passed". */
  function PassedCount(results: TestResults): nat
  {
    if results == [] then 0
    else PassedCount(results[..|results| - 1]) + (if results[|results| - 1].1 == "passed" then 1 else 0)
  }

  /** Every test passed. */
  predicate AllPassed(results: TestResults)
  {
    forall k :: 0 <= k < |results| ==> results[k].1 == "passed"
  }

  /** The count never exceeds the number of results, and it reaches it exactly when
      every test passed. */
  lemma {:induction false} PassedCountBounds(results: TestResults)
    ensures PassedCount(results) <= |results|
    ensures PassedCount(results) == |results| <==> AllPassed(results)
  {
    if results != [] {
      var init := results[..|results| - 1];
      PassedCountBounds(init);
      if AllPassed(results) {
        assert AllPassed(init) by {
          forall k | 0 <= k < |init| ensures init[k].1 == "passed" {
            assert init[k] == results[k];
          }
        }
      }
      if PassedCount(results) == |results| {
        assert results[|results| - 1].1 == "passed";
        assert PassedCount(init) == |init|;
        forall k | 0 <= k < |results| ensures results[k].1 == "passed" {
          if k < |init| {
            assert init[k] == results[k];
          }
        }
      }
    }
  }

  datatype RegressionSummary = RegressionSummary(total: nat, passed: nat, failed: nat, allPassed: bool)

  /** `run_regression`'s counts: `failed = total − passed`, and the run passed as a
      whole exactly when every test did. */
  function Summarise(results: TestResults): (s: RegressionSummary)
    ensures s.total == |results| && s.passed == PassedCount(results)
    ensures s.passed + s.failed == s.total
    ensures s.allPassed <==> AllPassed(results)
  {
    PassedCountBounds(results);
    var passed := PassedCount(results);
    RegressionSummary(|results|, passed, |results| - passed, passed == |results|)
  }

  /** The canned results the service reports. */
  const CannedResults: TestResults := [
    ("case_001", "passed"), ("case_002", "passed"), ("case_003", "passed"),
    ("case_004", "passed"), ("fuzz_test_10x", "passed"), ("performance_test", "passed")]

  /** The canned run passes all six tests. */
  lemma CannedRunPasses()
    ensures Summarise(CannedResults) == RegressionSummary(6, 6, 0, true)
  {
    assert AllPassed(CannedResults);
  }
}
