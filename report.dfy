/** The debugging report compiled in the last step (`generateMarkdownReport`):
    the rows and indicators it projects out of the audit log and the session
    facts. The Markdown template around them is not modelled. */
module Report {
  import opened Optional
  import opened Json
  import opened Text
  import opened Audit
  import opened Facts

  /** The `reportContent` object the last step builds. */
  datatype ReportContent = ReportContent(
    problem: Value,        // 问题
    evidence: string,      // 证据
    decision: string,      // 决策
    patch: string,         // 补丁
    regression: string,    // 回归结果
    timestamp: Timestamp)  // 时间戳

  /** A step record that is an internal error or retry notice: kept in the log,
      left out of the step table. */
  predicate Hidden(name: string)
  {
    Contains(name, "错误") || Contains(name, "重试")
  }

  /** The step records the step table shows, in log order. */
  function ShownSteps(steps: seq<StepDetail>): (shown: seq<StepDetail>)
    ensures |shown| <= |steps|
    ensures forall k :: 0 <= k < |shown| ==> !Hidden(shown[k].stepName)
  {
    if steps == [] then []
    else ShownSteps(steps[..|steps| - 1])
         + (if Hidden(steps[|steps| - 1].stepName) then [] else [steps[|steps| - 1]])
  }

  /** The filter keeps exactly the records whose name is not hidden, both directions. */
  lemma {:induction false} ShownStepsExact(steps: seq<StepDetail>)
    ensures |ShownSteps(steps)| <= |steps|
    ensures forall s :: s in ShownSteps(steps) <==> s in steps && !Hidden(s.stepName)
    ensures |ShownSteps(steps)| == |steps| ==> ShownSteps(steps) == steps
  {
    if steps != [] {
      var p := steps[..|steps| - 1];
      ShownStepsExact(p);
      assert steps == p + [steps[|steps| - 1]];
    }
  }

  /** No record is hidden exactly when the table shows them all. */
  lemma {:induction false} ShownStepsAll(steps: seq<StepDetail>)
    ensures ShownSteps(steps) == steps <==> forall k :: 0 <= k < |steps| ==> !Hidden(steps[k].stepName)
  {
    if steps != [] && forall k :: 0 <= k < |steps| ==> !Hidden(steps[k].stepName) {
      var p := steps[..|steps| - 1];
      assert forall k :: 0 <= k < |p| ==> p[k] == steps[k];
      ShownStepsAll(p);
      assert steps == p + [steps[|steps| - 1]];
    }
  }

  /** Status column of a step row: `data.result || data.summary || "进行中"`. */
  function StepStatus(s: StepDetail): (status: Value)
    ensures Truthy(status)
    ensures status == Lookup(s.data, "result") || status == Lookup(s.data, "summary") || status == Str("进行中")
  {
    Or(Or(Get(Obj(s.data), "result"), Get(Obj(s.data), "summary")), Str("进行中"))
  }

  /** The status column is never blank, and it is the recorded result whenever there is one. */
  lemma StepStatusNeverBlank(s: StepDetail)
    ensures Truthy(StepStatus(s))
    ensures Truthy(Lookup(s.data, "result")) ==> StepStatus(s) == Lookup(s.data, "result")
    ensures (!Truthy(Lookup(s.data, "result")) && Truthy(Lookup(s.data, "summary")))
              ==> StepStatus(s) == Lookup(s.data, "summary")
    ensures (!Truthy(Lookup(s.data, "result")) && !Truthy(Lookup(s.data, "summary")))
              ==> StepStatus(s) == Str("进行中")
  {
  }

  datatype StepRow = StepRow(number: nat, name: string, status: Value, time: Timestamp)

  /** The step table. */
  function StepRows(steps: seq<StepDetail>): (rows: seq<StepRow>)
  {
    var shown := ShownSteps(steps);
    seq(|shown|, k requires 0 <= k < |shown| => StepRow(shown[k].stepNumber, shown[k].stepName, StepStatus(shown[k]), shown[k].timestamp))
  }

  datatype DecisionRow = DecisionRow(index: nat, context: string, selected: string, reasoning: string)

  /** The decision table, numbered from 1 in log order. */
  function DecisionRows(decisions: seq<Decision>): (rows: seq<DecisionRow>)
  {
    seq(|decisions|, k requires 0 <= k < |decisions| =>
      DecisionRow(k + 1, decisions[k].context, decisions[k].selected, decisions[k].reasoning))
  }

  /** The row a shown step record gets. */
  function StepRowOf(s: StepDetail): StepRow
  {
    StepRow(s.stepNumber, s.stepName, StepStatus(s), s.timestamp)
  }

  /** Recording one more step leaves the rows already in the table as they were
      and adds a row for the new record at the end, unless it is an error or
      retry notice. */
  lemma StepRowsRecord(steps: seq<StepDetail>, s: StepDetail)
    ensures StepRows(steps + [s]) == StepRows(steps) + (if Hidden(s.stepName) then [] else [StepRowOf(s)])
  {
    assert (steps + [s])[..|steps + [s]| - 1] == steps;
  }

  /** Recording one more decision leaves the earlier rows as they were and adds
      its row at the end, numbered after all of them. */
  lemma DecisionRowsRecord(decisions: seq<Decision>, d: Decision)
    ensures DecisionRows(decisions + [d]) == DecisionRows(decisions) + [DecisionRow(|decisions| + 1, d.context, d.selected, d.reasoning)]
  {
    assert (decisions + [d])[|decisions|] == d;
  }

  const Success: string := "✅"
  const Failure: string := "❌"
  const Warning: string := "⚠️"

  /** Status glyph of an experiment: success language wins over failure language. */
  function ExperimentGlyph(analysis: string): (g: string)
    ensures g == Success <==> Contains(analysis, "成功") || Contains(analysis, "通过")
    ensures g == Failure <==> !(Contains(analysis, "成功") || Contains(analysis, "通过"))
                              && (Contains(analysis, "失败") || Contains(analysis, "错误"))
    ensures g == Warning <==> !(Contains(analysis, "成功") || Contains(analysis, "通过")
                                || Contains(analysis, "失败") || Contains(analysis, "错误"))
  {
    if Contains(analysis, "成功") || Contains(analysis, "通过") then Success
    else if Contains(analysis, "失败") || Contains(analysis, "错误") then Failure
    else Warning
  }

  datatype ExperimentRow = ExperimentRow(index: nat, kind: string, status: string, analysis: string, time: Timestamp)

  /** The experiment table, numbered from 1 in log order. */
  function ExperimentRows(experiments: seq<Experiment>): (rows: seq<ExperimentRow>)
  {
    seq(|experiments|, k requires 0 <= k < |experiments| =>
      ExperimentRow(k + 1, experiments[k].kind, ExperimentGlyph(experiments[k].analysis),
                    experiments[k].analysis, experiments[k].timestamp))
  }

  /** Recording one more experiment leaves the earlier rows as they were and adds
      its row at the end, numbered after all of them, with the glyph of its analysis. */
  lemma ExperimentRowsRecord(experiments: seq<Experiment>, x: Experiment)
    ensures ExperimentRows(experiments + [x]) ==
              ExperimentRows(experiments) + [ExperimentRow(|experiments| + 1, x.kind, ExperimentGlyph(x.analysis), x.analysis, x.timestamp)]
  {
    assert (experiments + [x])[|experiments|] == x;
  }

  /** The step table shows a row for a record exactly when the record is in the
      log and names neither an error nor a retry. */
  lemma StepRowsFromLog(steps: seq<StepDetail>, s: StepDetail)
    ensures s in steps && !Hidden(s.stepName) ==> StepRowOf(s) in StepRows(steps)
    ensures forall r :: r in StepRows(steps) ==> exists t :: t in steps && !Hidden(t.stepName) && r == StepRowOf(t)
  {
    ShownStepsExact(steps);
    var shown := ShownSteps(steps);
    if s in steps && !Hidden(s.stepName) {
      var k :| 0 <= k < |shown| && shown[k] == s;
      assert StepRows(steps)[k] == StepRowOf(s);
    }
    forall r | r in StepRows(steps) ensures exists t :: t in steps && !Hidden(t.stepName) && r == StepRowOf(t) {
      var k :| 0 <= k < |StepRows(steps)| && StepRows(steps)[k] == r;
      assert shown[k] in shown;
    }
  }

  /** The root-cause section: the selected hypothesis and whether it was confirmed,
      or "未进行根因分析" when none was selected. */
  datatype RootCauseSection = NotAnalysed | Analysed(hypothesis: string, evidence: string, verification: string)

  /** One row of the quality-indicator table. */
  datatype Indicator = Indicator(name: string, status: string, note: string)

  datatype Document = Document(
    problem: Value,
    rootCause: string,
    solution: string,
    verification: string,
    stepCount: nat,
    evidence: string,
    analysis: RootCauseSection,
    patchStatus: string,
    stepRows: seq<StepRow>,
    decisionRows: seq<DecisionRow>,
    experimentRows: seq<ExperimentRow>,
    indicators: seq<Indicator>,
    generatedAt: Timestamp)

  /** The quality-indicator table: MRE, root cause, patch and regression, in
      that order; the regression row's note is the regression summary. */
  function Indicators(content: ReportContent, facts: SessionData): (r: seq<Indicator>)
    ensures |r| == 4
    ensures r[0].name == "MRE 复现" && r[1].name == "根因确认" && r[2].name == "补丁应用" && r[3].name == "回归测试"
    ensures r[3].note == content.regression
  {
    [ Indicator("MRE 复现", if Holds(facts.mreConfirmed) then "✅ 成功" else "❌ 失败",
                if Holds(facts.mreConfirmed) then "能够稳定复现问题" else "无法复现原始问题"),
      Indicator("根因确认", if Holds(facts.rootCauseConfirmed) then "✅ 已确认" else "❌ 未确认",
                if Holds(facts.rootCauseConfirmed) then "实验验证了假设" else "假设未得到验证"),
      Indicator("补丁应用", if Holds(facts.patchApplied) then "✅ 已应用" else "❌ 未应用",
                if Holds(facts.patchApplied) then "修复方案已实施" else "未实施修复方案"),
      Indicator("回归测试", if Contains(content.regression, "通过") then "✅ 通过" else "❌ 失败", content.regression) ]
  }

  /** The whole report for the given content, session facts and log lists. */
  function Compile(content: ReportContent, facts: SessionData, steps: seq<StepDetail>,
                   decisions: seq<Decision>, experiments: seq<Experiment>): Document
  {
    Document(
      content.problem,
      DescriptionOr(facts.selectedHypothesis, "未确定"),
      content.patch,
      content.regression,
      |steps|,
      content.evidence,
      match facts.selectedHypothesis
        case None => NotAnalysed
        case Some(h) => Analysed(h.description, h.evidence, if Holds(facts.rootCauseConfirmed) then "✅ 已确认" else "❌ 未确认"),
      if Holds(facts.patchApplied) then "✅ 已应用" else "❌ 未应用",
      StepRows(steps),
      DecisionRows(decisions),
      ExperimentRows(experiments),
      Indicators(content, facts),
      content.timestamp)
  }

  /** The sections of a report agree with each other: one decision and one
      experiment row per record, the root-cause section present exactly when a
      hypothesis was selected and naming the same root cause as the summary, and
      the patch status and root-cause verification repeating their indicators. */
  lemma CompileConsistent(content: ReportContent, facts: SessionData, steps: seq<StepDetail>,
                          decisions: seq<Decision>, experiments: seq<Experiment>)
    ensures var d := Compile(content, facts, steps, decisions, experiments);
      && |d.decisionRows| == |decisions| && |d.experimentRows| == |experiments|
      && (d.analysis.Analysed? <==> facts.selectedHypothesis.Some?)
      && (d.analysis.Analysed? && d.analysis.hypothesis != "" ==> d.rootCause == d.analysis.hypothesis)
      && |d.indicators| == 4
      && (d.analysis.Analysed? ==> (d.analysis.verification == "✅ 已确认" <==> d.indicators[1].status == "✅ 已确认"))
      && (d.patchStatus == "✅ 已应用" <==> d.indicators[2].status == "✅ 已应用")
      && d.generatedAt == content.timestamp
  {
  }

  /** The step count covers every record, the step table only the shown ones; they
      agree exactly when no record is an error or retry notice. */
  lemma StepCountCoversAll(content: ReportContent, facts: SessionData, steps: seq<StepDetail>,
                           decisions: seq<Decision>, experiments: seq<Experiment>)
    ensures Compile(content, facts, steps, decisions, experiments).stepCount == |steps|
    ensures |Compile(content, facts, steps, decisions, experiments).stepRows| <= |steps|
    ensures (|Compile(content, facts, steps, decisions, experiments).stepRows| == |steps|)
              <==> forall k :: 0 <= k < |steps| ==> !Hidden(steps[k].stepName)
  {
    ShownStepsExact(steps);
    ShownStepsAll(steps);
  }

  /** Each quality indicator is ✅ exactly when its fact is true; an unset fact,
      like a false one, renders as ❌ (it never fails the compilation). */
  lemma IndicatorsFollowFacts(content: ReportContent, facts: SessionData, steps: seq<StepDetail>,
                              decisions: seq<Decision>, experiments: seq<Experiment>)
    ensures var d := Compile(content, facts, steps, decisions, experiments);
      && |d.indicators| == 4
      && (d.indicators[0].status == "✅ 成功" <==> facts.mreConfirmed == Some(true))
      && (d.indicators[1].status == "✅ 已确认" <==> facts.rootCauseConfirmed == Some(true))
      && (d.indicators[2].status == "✅ 已应用" <==> facts.patchApplied == Some(true))
      && (d.indicators[3].status == "✅ 通过" <==> Contains(content.regression, "通过"))
      && (d.patchStatus == "✅ 已应用" <==> facts.patchApplied == Some(true))
  {
  }

  /** A session in which no step wrote anything still gets a complete report,
      made of the fallbacks. */
  lemma SparseSessionFallbacks(content: ReportContent, bugReport: Value, steps: seq<StepDetail>,
                               decisions: seq<Decision>, experiments: seq<Experiment>)
    ensures var d := Compile(content, Initial(bugReport), steps, decisions, experiments);
      && d.rootCause == "未确定"
      && d.analysis == NotAnalysed
      && d.patchStatus == "❌ 未应用"
      && d.indicators[0] == Indicator("MRE 复现", "❌ 失败", "无法复现原始问题")
      && d.indicators[1] == Indicator("根因确认", "❌ 未确认", "假设未得到验证")
      && d.indicators[2] == Indicator("补丁应用", "❌ 未应用", "未实施修复方案")
  {
  }

  /** The two analysis texts of steps 1 and 6 get the glyphs the report shows
      for them: MRE generation and regression count as success. */
  lemma RecordedAnalysesGlyphs()
    ensures ExperimentGlyph("成功生成了能够复现原始问题的最小测试用例") == Success
    ensures ExperimentGlyph("回归测试全部通过，确认修复成功且未引入新问题") == Success
  {
    ContainsAt("成功生成了能够复现原始问题的最小测试用例", "成功", 0);
    ContainsAt("回归测试全部通过，确认修复成功且未引入新问题", "通过", 6);
  }
}
