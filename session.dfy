/** The debugging session (`DebugSession`): seven step methods that prompt the
    operator, call the diagnostic service, write session facts and record the
    audit trail, and `Start`, the loop that runs them under the sequencer's
    navigation rules.

    The operator's answers and the diagnostic service's results are inputs: an
    `Inbox` of queues that the steps consume in order. A prompt whose queue is
    empty, or whose next answer is not one of the choices it offers, does not
    return: the step reports `Blocked` and the session waits there. */
module Session {
  import opened Optional
  import opened Json
  import opened Text
  import opened Sequencer
  import opened Audit
  import opened Facts
  import opened Report

  /** Result of `apiClient.generateMRE`: the payload itself is never read. */
  datatype MreCall = MreReturned | MreThrew(message: string)

  /** Result of `apiClient.analyzeRootCause`. */
  datatype Analysis = Hypotheses(list: seq<Hypothesis>) | AnalysisThrew(message: string)

  /** Inputs, in the order the session consumes them: answers to list prompts
      (`choices`), to the hypothesis prompt (`picks`), to the yes/no prompt
      (`confirms`), and results of the two remote calls. */
  datatype Inbox = Inbox(
    choices: seq<string>,
    picks: seq<int>,
    confirms: seq<bool>,
    mreCalls: seq<MreCall>,
    analyses: seq<Analysis>)

  function Size(inbox: Inbox): nat
  {
    |inbox.choices| + |inbox.picks| + |inbox.confirms| + |inbox.mreCalls| + |inbox.analyses|
  }

  /** What running a step gives the loop: the step's return value, or nothing yet
      because a prompt or a remote call is still waiting. */
  datatype Reply = Returns(result: StepResult) | Blocked

  /** The choices of the navigation prompt at step `currentStep`. */
  function NavMenu(currentStep: int): (menu: seq<string>)
    ensures "continue" in menu && "exit" in menu
    ensures "back" in menu <==> currentStep > 1
    ensures |menu| == if currentStep > 1 then 3 else 2
    ensures menu[0] == "continue" && menu[|menu| - 1] == "exit"
  {
    ["continue"] + (if currentStep > 1 then ["back"] else []) + ["exit"]
  }

  /** What the navigation prompt gives for the queued answers: the first answer
      when it is one of the menu's choices, otherwise no answer yet. */
  function NavAnswer(choices: seq<string>, currentStep: int): Reply
  {
    if |choices| > 0 && choices[0] in NavMenu(currentStep) then Returns(Signal(choices[0])) else Blocked
  }

  /** The names of the seven steps' opening records, by step index. */
  const StepTitles: seq<string> := ["复现场景", "假设成因", "插桩计划", "实验执行", "最小修复", "回归测试", "知识沉淀"]

  /** The choices of the step-specific prompts. */
  const MreActions: seq<string> := ["confirm", "retry", "skip"]
  const InstrumentActions: seq<string> := ["all", "partial", "custom", "skip"]
  const RootCauseActions: seq<string> := ["confirm", "reanalyze", "skip"]
  const PatchActions: seq<string> := ["confirm", "reexperiment", "skip"]
  const SubmitActions: seq<string> := ["local", "github", "both", "skip"]

  /** `String.fromCharCode(97 + i)`: the letter that labels the i-th hypothesis. */
  function Letter(i: nat): char
  {
    if 97 + i < 0xD800 then (97 + i) as char else '?'
  }

  /** The first hypotheses are lettered a, b, c, and different positions get
      different letters. */
  lemma LettersDistinct(i: nat, j: nat)
    requires i != j && 97 + i < 0xD800 && 97 + j < 0xD800
    ensures Letter(i) != Letter(j)
    ensures Letter(0) == 'a' && Letter(1) == 'b' && Letter(2) == 'c'
  {
  }

  /** The label of a hypothesis in the prompt and in the decision record. */
  function Label(i: nat, h: Hypothesis): string
  {
    "(" + [Letter(i)] + ") " + h.description
  }

  /** The options of the hypothesis prompt, one per hypothesis in list order: the
      letter of its position in parentheses, then its description. */
  function Labels(hs: seq<Hypothesis>): (r: seq<string>)
    ensures |r| == |hs|
    ensures forall i :: 0 <= i < |hs| ==> |r[i]| == 4 + |hs[i].description|
    ensures forall i :: 0 <= i < |hs| ==> r[i][1] == Letter(i) && r[i][4..] == hs[i].description
  {
    seq(|hs|, i requires 0 <= i < |hs| => Label(i, hs[i]))
  }

  /** Message of the error a hypothesis prompt without choices ends in; its exact
      text is the prompt library's and is not modelled. */
  const NoHypothesisError: string := "no hypothesis to choose from"

  /** The data of step 2's error record. */
  function AnalysisError(message: string): Fields
  {
    [("summary", Str("根因分析过程中发生错误")),
     ("error", Str(message)),
     ("impact", Str("无法生成候选假设")),
     ("suggestion", Str("检查API服务状态或使用手动分析"))]
  }

  /** How one round of step 1 ended: waiting for the service, the service call
      failed, waiting for the operator's verdict on the generated case, a retry,
      or a verdict ("confirm" or "skip") that ends the step. */
  datatype Round = AwaitingMre | MreFailed | AwaitingAction | RetryChosen | ActionChosen(action: string)

  /** How a round ends that reads the next service result and then the next answer. */
  function RoundOf(calls: seq<MreCall>, choices: seq<string>): Round
  {
    if |calls| == 0 then AwaitingMre
    else if calls[0].MreThrew? then MreFailed
    else if |choices| == 0 || choices[0] !in MreActions then AwaitingAction
    else if choices[0] == "retry" then RetryChosen
    else ActionChosen(choices[0])
  }

  /** The tags of the records after the generated case came back: the experiment
      record, then the verdict and, for a retry, the retry notice. */
  function VerdictTags(r: Round): seq<Tag>
  {
    match r
    case RetryChosen => [ExperimentTag("MRE生成"), DecisionTag("MRE验证", "retry"), StepTag(1, "复现场景 - 重试")]
    case ActionChosen(a) => [ExperimentTag("MRE生成"), DecisionTag("MRE验证", a)]
    case _ => [ExperimentTag("MRE生成")]
  }

  /** The tags one round of step 1 records up to the operator's verdict. */
  function OpeningTags(r: Round): seq<Tag>
  {
    match r
    case AwaitingMre => [StepTag(1, "复现场景")]
    case MreFailed => [StepTag(1, "复现场景"), StepTag(1, "复现场景 - 错误")]
    case _ => [StepTag(1, "复现场景")] + VerdictTags(r)
  }

  /** The tags step 1 records in a round that ended as `r`, including the
      completion record of a final verdict. */
  function RoundTags(r: Round): seq<Tag>
  {
    if r.ActionChosen? then OpeningTags(r) + [StepTag(1, "复现场景 - 完成")] else OpeningTags(r)
  }

  function RetryRound(): seq<Tag>
  {
    RoundTags(RetryChosen)
  }

  function Repeat(t: seq<Tag>, k: nat): seq<Tag>
  {
    if k == 0 then [] else t + Repeat(t, k - 1)
  }

  /** Step-record counts of `k` copies of a round followed by a last round. */
  lemma {:induction false} RepeatCount(t: seq<Tag>, k: nat, tail: seq<Tag>, name: string)
    ensures CountStep(Repeat(t, k) + tail, name) == k * CountStep(t, name) + CountStep(tail, name)
  {
    if k == 0 {
      assert Repeat(t, k) + tail == tail;
    } else {
      RepeatCount(t, k - 1, tail, name);
      assert Repeat(t, k) + tail == t + (Repeat(t, k - 1) + tail);
      CountStepAppend(t, Repeat(t, k - 1) + tail, name);
      assert k * CountStep(t, name) == (k - 1) * CountStep(t, name) + CountStep(t, name);
    }
  }

  /** Whether a tag is a step record named `name`. */
  function Hit(x: Tag, name: string): nat
  {
    if x.StepTag? && x.name == name then 1 else 0
  }

  /** Counting a short list tag by tag. */
  lemma CountShort(t: seq<Tag>, name: string)
    requires 1 <= |t| <= 4
    ensures CountStep(t, name) == Hit(t[0], name) + (if |t| > 1 then Hit(t[1], name) else 0)
                                  + (if |t| > 2 then Hit(t[2], name) else 0) + (if |t| > 3 then Hit(t[3], name) else 0)
  {
    assert t[..1][..0] == [];
    if |t| > 1 { assert t[..2][..1] == t[..1]; }
    if |t| > 2 { assert t[..3][..2] == t[..2]; }
    if |t| > 3 { assert t[..4][..3] == t[..3]; assert t[..4] == t; }
    if |t| == 3 { assert t[..3] == t; }
    if |t| == 2 { assert t[..2] == t; }
    if |t| == 1 { assert t[..1] == t; }
  }

  /** Every round holds one start record; only a retry holds a retry notice and
      only a final verdict a completion record. */
  lemma RoundCounts(r: Round)
    ensures CountStep(RoundTags(r), "复现场景") == 1
    ensures CountStep(RoundTags(r), "复现场景 - 重试") == (if r == RetryChosen then 1 else 0)
    ensures CountStep(RoundTags(r), "复现场景 - 完成") == (if r.ActionChosen? then 1 else 0)
  {
    CountShort(RoundTags(r), "复现场景");
    CountShort(RoundTags(r), "复现场景 - 重试");
    CountShort(RoundTags(r), "复现场景 - 完成");
  }

  /** Step-record counts of step 1: `k` retried rounds, then the last one. */
  lemma Step1Counts(k: nat, last: Round)
    requires last != RetryChosen
    ensures CountStep(Repeat(RetryRound(), k) + RoundTags(last), "复现场景") == k + 1
    ensures CountStep(Repeat(RetryRound(), k) + RoundTags(last), "复现场景 - 重试") == k
    ensures CountStep(Repeat(RetryRound(), k) + RoundTags(last), "复现场景 - 完成") == (if last.ActionChosen? then 1 else 0)
  {
    var rounds, tl := Repeat(RetryRound(), k), RoundTags(last);
    RoundCounts(RetryChosen);
    RoundCounts(last);
    RepeatCount(RetryRound(), k, tl, "复现场景");
    assert CountStep(rounds + tl, "复现场景") == k * 1 + 1;
    RepeatCount(RetryRound(), k, tl, "复现场景 - 重试");
    assert CountStep(rounds + tl, "复现场景 - 重试") == k * 1 + 0;
    RepeatCount(RetryRound(), k, tl, "复现场景 - 完成");
    assert CountStep(rounds + tl, "复现场景 - 完成") == k * 0 + CountStep(tl, "复现场景 - 完成");
  }

  /** A retried round followed by `k` more retries and a last round. */
  lemma RetryThen(k: nat, last: Round, more: seq<Tag>)
    requires more == Repeat(RetryRound(), k) + RoundTags(last)
    ensures OpeningTags(RetryChosen) + more == Repeat(RetryRound(), k + 1) + RoundTags(last)
  {
    AppendAssoc(RetryRound(), Repeat(RetryRound(), k), RoundTags(last));
  }

  /** Step 1's records open with its start record, whether or not it was retried. */
  lemma Step1Opens(k: nat, last: Round)
    ensures var t := Repeat(RetryRound(), k) + RoundTags(last); |t| > 0 && t[0] == StepTag(1, StepTitles[0])
  {
    if k > 0 {
      assert (Repeat(RetryRound(), k) + RoundTags(last))[0] == RetryRound()[0];
    }
  }

  /** The first record appended to `before` in `after` is `first`. */
  predicate OpensWith(before: seq<Tag>, after: seq<Tag>, first: Tag)
  {
    |after| > |before| && after[|before|] == first
  }

  /** A retried round followed by `k` more retries: the answers read after the
      first round, shifted by one. */
  lemma RetryShift(calls: seq<MreCall>, choices: seq<string>, k: nat)
    requires |calls| > 0 && |choices| > 0 && calls[0] == MreReturned && choices[0] == "retry"
    requires k <= |calls| - 1 && k <= |choices| - 1
    requires forall j :: 0 <= j < k ==> calls[1..][j] == MreReturned && choices[1..][j] == "retry"
    ensures forall j :: 0 <= j < k + 1 ==> calls[j] == MreReturned && choices[j] == "retry"
    ensures calls[1..][k..] == calls[k + 1..] && choices[1..][k..] == choices[k + 1..]
    ensures k + 1 <= |choices[1..]| ==> choices[1..][k + 1..] == choices[k + 2..]
  {
    forall j | 0 <= j < k + 1 ensures calls[j] == MreReturned && choices[j] == "retry" {
      if j > 0 {
        assert calls[j] == calls[1..][j - 1] && choices[j] == choices[1..][j - 1];
      }
    }
  }

  /** A round that is not retried is the last one, with the completion record
      when it ended in a final verdict. */
  lemma LastRound(r: Round, first: seq<Tag>)
    requires first == OpeningTags(r)
    ensures (if r.ActionChosen? then first + [StepTag(1, "复现场景 - 完成")] else first) == Repeat(RetryRound(), 0) + RoundTags(r)
  {
  }

  lemma AppendAssoc<T>(a: seq<T>, b: seq<T>, c: seq<T>)
    ensures (a + b) + c == a + (b + c)
  {
  }

  /** Records appended one at a time form the list of their tags. */
  lemma Append2<T>(t: seq<T>, a: T, b: T)
    ensures t + [a] + [b] == t + [a, b]
  {
  }

  lemma Append3<T>(t: seq<T>, a: T, b: T, c: T)
    ensures t + [a] + [b] + [c] == t + [a, b, c]
  {
  }

  /** A record followed by a list of records. */
  lemma Push2<T>(t: seq<T>, a: T, b: T, c: T)
    ensures t + [a] + [b, c] == t + [a, b, c]
  {
  }

  lemma Push3<T>(t: seq<T>, a: T, b: T, c: T, d: T)
    ensures t + [a] + [b, c, d] == t + [a, b, c, d]
  {
  }

  lemma Append4<T>(t: seq<T>, a: T, b: T, c: T, d: T)
    ensures t + [a] + [b] + [c] + [d] == t + [a, b, c, d]
  {
  }

  /** Reasoning text of the step-1 decision. */
  function MreReasoning(a: string): string
  {
    if a == "confirm" then "MRE成功复现了原始问题"
    else if a == "retry" then "MRE未能复现问题，需要重新生成"
    else "选择跳过MRE验证步骤"
  }

  function InstrumentReasoning(a: string): string
  {
    if a == "all" then "采用全部插桩点以获取最全面的调试信息"
    else if a == "partial" then "采用部分插桩点平衡效率和信息量"
    else if a == "custom" then "需要更精细的插桩控制"
    else "跳过插桩直接进入实验阶段"
  }

  function RootCauseReasoning(a: string): string
  {
    if a == "confirm" then "实验证据强有力地支持了所选假设"
    else if a == "reanalyze" then "实验结果与预期不符，需要重新考虑其他假设"
    else "选择跳过根因确认步骤"
  }

  function PatchReasoning(a: string): string
  {
    if a == "confirm" then "补丁方案符合最小修复原则且针对性强"
    else if a == "reexperiment" then "补丁方案可能存在问题，需要重新实验"
    else "选择跳过补丁应用步骤"
  }

  /** The instrumentation points step 3 proposes. */
  const Instrumentations: seq<string> := [
    "1. 在 loop 入口打印 i, len(list)",
    "2. 在 case_003 输入时打印 list 长度",
    "3. 在全局变量 X 写入时加断言"]

  const RegressionSuite: seq<string> := ["case_001", "case_002", "case_003", "case_004", "fuzz_10x"]
  const RegressionLines: seq<string> := ["case_001: ✅", "case_002: ✅", "case_003: ✅", "case_004: ✅", "fuzz_10x: ✅"]

  /** The fixed content of the report step, around the problem text and the clock reading. */
  function Content(bugReport: Value, at: Timestamp): ReportContent
  {
    ReportContent(Or(Get(bugReport, "error_message"), Str("IndexError: list index out of range")),
                  "日志 i=5, len(list)=5", "假设 (a) 循环边界错误 → 验证成立", "修改 for 循环边界条件",
                  "全部通过 (5/5)", at)
  }

  /** The report content: the problem is the bug report's error message when it
      has one and the default `IndexError` text otherwise, so it is never empty;
      the regression summary is one the report marks as passed; the timestamp is
      the one given. */
  lemma ContentShape(bugReport: Value, at: Timestamp)
    ensures var c := Content(bugReport, at);
      && Truthy(c.problem)
      && (Truthy(Get(bugReport, "error_message")) ==> c.problem == Get(bugReport, "error_message"))
      && (!Truthy(Get(bugReport, "error_message")) ==> c.problem == Str("IndexError: list index out of range"))
      && Contains(c.regression, "通过")
      && c.timestamp == at
  {
    ContainsAt("全部通过 (5/5)", "通过", 2);
  }

  function PatchOpening(rootCause: string): Fields
  {
    [("summary", Str("基于验证的根因设计最小侵入式修复方案")),
     ("rootCause", Str(rootCause)),
     ("objective", Str("以最小的代码变更解决问题，减少引入新bug的风险"))]
  }

  function PatchDone(action: string): Fields
  {
    [("summary", Str("补丁设计完成 - " + action)),
     ("patchDetails", Obj([("file", Str("buggy.py")),
                           ("change", Str("for i in range(len(items)+1): → for i in range(len(items)):")),
                           ("impact", Str("单元测试 case_001 ~ case_004, 下游函数 process_items()")),
                           ("applied", Bool(action == "confirm"))])),
     ("nextStep", Str(if action == "confirm" then "执行回归测试" else if action == "reexperiment" then "重新设计实验" else "跳过到测试"))]
  }

  /** How the answers decide the reply of steps 1 to 3 (indices 0 to 2). */
  ghost predicate EarlyAnswered(i: nat, inbox: Inbox, reply: Reply, currentStep: int)
  {
    var c := inbox.choices;
    && (i == 0 && |inbox.mreCalls| > 0 && inbox.mreCalls[0].MreThrew? ==> reply == Returns(False))
    && (i == 0 && |inbox.mreCalls| > 0 && inbox.mreCalls[0] == MreReturned && |c| > 0 && c[0] in ["confirm", "skip"] ==>
          reply == NavAnswer(c[1..], currentStep))
    && (i == 1 && |inbox.analyses| > 0 && (inbox.analyses[0].AnalysisThrew? || inbox.analyses[0] == Hypotheses([])) ==>
          reply == Returns(False))
    && ((i == 1 && |inbox.analyses| > 0 && inbox.analyses[0].Hypotheses? && |inbox.picks| > 0 &&
         0 <= inbox.picks[0] < |inbox.analyses[0].list|) ==> reply == NavAnswer(c, currentStep))
    && (i == 2 && |c| > 0 && c[0] in InstrumentActions ==> reply == NavAnswer(c[1..], currentStep))
  }

  /** How the answers decide the reply of steps 4 to 7 (indices 3 to 6). */
  ghost predicate LateAnswered(i: nat, inbox: Inbox, reply: Reply, currentStep: int)
  {
    var c := inbox.choices;
    && (i == 3 && |c| > 0 && c[0] == "reanalyze" ==> reply == Returns(Signal("back")))
    && (i == 3 && |c| > 0 && c[0] in ["confirm", "skip"] ==> reply == NavAnswer(c[1..], currentStep))
    && (i == 4 && |c| > 0 && c[0] == "reexperiment" ==> reply == Returns(Signal("back")))
    && (i == 4 && |c| > 0 && c[0] in ["confirm", "skip"] ==> reply == NavAnswer(c[1..], currentStep))
    && (i == 5 && |inbox.confirms| > 0 ==> reply == NavAnswer(c, currentStep))
    && (i == 6 && |c| > 0 && c[0] in SubmitActions ==> reply == NavAnswer(c[1..], currentStep))
  }

  class DebugSession {
    var currentStep: int
    const totalSteps: nat
    var sessionData: SessionData
    const debugLog: DebugLog

    ghost predicate Valid()
      reads this, debugLog
    {
      && debugLog.Valid()
      && totalSteps == StepCount
      && 1 <= currentStep <= StepCount
    }

    /** A session that has not loaded its bug report yet: no facts, an empty log
        started at the first reading of `clock`. */
    constructor (clock: nat -> Timestamp)
      ensures Valid() && fresh(debugLog)
      ensures currentStep == 1 && sessionData == Initial(Undefined)
      ensures debugLog.history == [] && debugLog.tags == []
      ensures debugLog.clock == clock && debugLog.sessionStart == clock(0) && debugLog.ticks == 1
    {
      currentStep := 1;
      totalSteps := StepCount;
      sessionData := Initial(Undefined);
      debugLog := new DebugLog(clock);
    }

    /** A step consumes inputs and never more than it was given; a step that goes
        back or navigates has answered at least one prompt. */
    ghost predicate Progress(inbox: Inbox, rest: Inbox, reply: Reply)
    {
      && Size(rest) <= Size(inbox)
      && (reply.Returns? && reply.result.Signal? ==> Size(rest) < Size(inbox))
    }

    /** `askStepNavigation`: the operator picks one of the navigation choices. */
    method AskStepNavigation(inbox: Inbox) returns (reply: Reply, rest: Inbox)
      requires Valid()
      ensures |inbox.choices| > 0 && inbox.choices[0] in NavMenu(currentStep) ==>
                reply == Returns(Signal(inbox.choices[0])) && rest == inbox.(choices := inbox.choices[1..])
      ensures !(|inbox.choices| > 0 && inbox.choices[0] in NavMenu(currentStep)) ==> reply == Blocked && rest == inbox
      ensures reply == NavAnswer(inbox.choices, currentStep)
      ensures Size(rest) <= Size(inbox)
    {
      if |inbox.choices| > 0 && inbox.choices[0] in NavMenu(currentStep) {
        reply, rest := Returns(Signal(inbox.choices[0])), inbox.(choices := inbox.choices[1..]);
      } else {
        reply, rest := Blocked, inbox;
      }
    }

    /** One round of step 1 up to the operator's verdict on the generated case:
        the start record, then the service call and, when it returned, the rest
        of the round (`MreVerdict`). Facts are not written here, nor the
        completion record of a final verdict. */
    method MreRound(inbox: Inbox) returns (round: Round, rest: Inbox, ghost added: seq<Tag>)
      requires Valid()
      modifies this, debugLog
      ensures Valid() && currentStep == old(currentStep) && sessionData == old(sessionData)
      ensures debugLog.tags == old(debugLog.tags) + added
      ensures added == OpeningTags(round)
      ensures round == AwaitingMre <==> |inbox.mreCalls| == 0
      ensures round == MreFailed <==> |inbox.mreCalls| > 0 && inbox.mreCalls[0].MreThrew?
      ensures |inbox.mreCalls| > 0 && inbox.mreCalls[0] == MreReturned ==>
                && (round == AwaitingAction <==> !(|inbox.choices| > 0 && inbox.choices[0] in MreActions))
                && (round == RetryChosen <==> |inbox.choices| > 0 && inbox.choices[0] == "retry")
      ensures round.ActionChosen? ==> |inbox.choices| > 0 && round.action == inbox.choices[0] && round.action in ["confirm", "skip"]
      ensures round == RoundOf(inbox.mreCalls, inbox.choices)
      ensures round == RetryChosen || round.ActionChosen? ==>
                rest == inbox.(mreCalls := inbox.mreCalls[1..], choices := inbox.choices[1..])
      ensures Size(rest) <= Size(inbox)
      ensures round == RetryChosen || round.ActionChosen? ==> Size(rest) < Size(inbox)
    {
      var e := debugLog.LogStepDetail(1, "复现场景",
        [("summary", Str("开始生成最小化可复现用例")),
         ("bugReport", sessionData.bugReport),
         ("objective", Str("创建能够稳定复现问题的最小测试用例")),
         ("approach", Str("基于bug报告信息，提取核心逻辑生成MRE"))]);
      rest := inbox;
      if |rest.mreCalls| == 0 {
        added, round := [StepTag(1, "复现场景")], AwaitingMre;
        return;
      }
      var call := rest.mreCalls[0];
      rest := rest.(mreCalls := rest.mreCalls[1..]);
      if call.MreThrew? {
        e := debugLog.LogStepDetail(1, "复现场景 - 错误",
          [("summary", Str("MRE生成过程中发生错误")),
           ("error", Str(call.message)),
           ("impact", Str("无法继续进行问题复现")),
           ("suggestion", Str("检查网络连接和API服务状态"))]);
        Append2(old(debugLog.tags), StepTag(1, "复现场景"), StepTag(1, "复现场景 - 错误"));
        added, round := [StepTag(1, "复现场景"), StepTag(1, "复现场景 - 错误")], MreFailed;
        return;
      }
      ghost var tail;
      round, rest, tail := MreVerdict(rest);
      AppendAssoc(old(debugLog.tags), [StepTag(1, "复现场景")], tail);
      added := [StepTag(1, "复现场景")] + tail;
    }

    /** The rest of a round whose service call returned a case: the experiment
        record, the operator's verdict with its decision record and, for "retry",
        the retry notice. */
    method MreVerdict(inbox: Inbox) returns (round: Round, rest: Inbox, ghost added: seq<Tag>)
      requires Valid()
      modifies this, debugLog
      ensures Valid() && currentStep == old(currentStep) && sessionData == old(sessionData)
      ensures debugLog.tags == old(debugLog.tags) + added
      ensures added == VerdictTags(round)
      ensures round == AwaitingAction || round == RetryChosen || round.ActionChosen?
      ensures round == AwaitingAction <==> !(|inbox.choices| > 0 && inbox.choices[0] in MreActions)
      ensures round == RetryChosen <==> |inbox.choices| > 0 && inbox.choices[0] == "retry"
      ensures round.ActionChosen? ==> |inbox.choices| > 0 && round.action == inbox.choices[0] && round.action in ["confirm", "skip"]
      ensures round == AwaitingAction ==> rest == inbox
      ensures round != AwaitingAction ==> rest == inbox.(choices := inbox.choices[1..])
      ensures round != AwaitingAction ==> Size(rest) < Size(inbox)
    {
      var e := debugLog.LogExperiment("MRE生成",
        Obj([("bugReport", Or(Get(sessionData.bugReport, "error_message"), Str("未知错误"))),
             ("method", Str("API调用生成MRE"))]),
        Obj([("file", Str("test_mre.py")),
             ("status", Str("生成成功")),
             ("executionResult", Str("IndexError: list index out of range"))]),
        "成功生成了能够复现原始问题的最小测试用例");
      rest := inbox;
      if |rest.choices| == 0 || rest.choices[0] !in MreActions {
        added, round := [ExperimentTag("MRE生成")], AwaitingAction;
        return;
      }
      var action := rest.choices[0];
      rest := rest.(choices := rest.choices[1..]);
      e := debugLog.LogDecision("MRE验证",
        ["确认 - MRE能够复现问题", "重试 - MRE无法复现，需要重新生成", "跳过 - 暂时跳过MRE验证"],
        action, MreReasoning(action));
      if action == "retry" {
        e := debugLog.LogStepDetail(1, "复现场景 - 重试",
          [("summary", Str("MRE未能复现问题，重新生成")),
           ("reason", Str("用户确认当前MRE无法复现原始问题")),
           ("action", Str("重新执行MRE生成流程"))]);
        Append3(old(debugLog.tags), ExperimentTag("MRE生成"), DecisionTag("MRE验证", action), StepTag(1, "复现场景 - 重试"));
        added, round := [ExperimentTag("MRE生成"), DecisionTag("MRE验证", action), StepTag(1, "复现场景 - 重试")], RetryChosen;
      } else {
        Append2(old(debugLog.tags), ExperimentTag("MRE生成"), DecisionTag("MRE验证", action));
        added, round := [ExperimentTag("MRE生成"), DecisionTag("MRE验证", action)], ActionChosen(action);
      }
    }

    /** Step 1, reproduce: rounds of `MreRound` until the operator does not ask
        for a retry (the step runs itself again). Only the last round writes
        `mreConfirmed` and a completion record, then navigates; a failed service
        call ends the step with `false` after an error record. */
    method Step1(inbox: Inbox)
      returns (reply: Reply, rest: Inbox, ghost added: seq<Tag>, ghost retries: nat, ghost last: Round)
      requires Valid()
      modifies this, debugLog
      ensures Valid() && currentStep == old(currentStep)
      ensures Progress(inbox, rest, reply)
      ensures reply.Returns? && reply.result.Signal? ==> reply.result.value in NavMenu(currentStep) && last.ActionChosen?
      ensures debugLog.tags == old(debugLog.tags) + added
      ensures added == Repeat(RetryRound(), retries) + RoundTags(last)
      ensures last != RetryChosen
      ensures last.ActionChosen? ==>
                last.action in ["confirm", "skip"] && sessionData == old(sessionData).(mreConfirmed := Some(last.action == "confirm"))
      ensures !last.ActionChosen? ==> sessionData == old(sessionData)
      ensures reply == Returns(False) <==> last == MreFailed
      ensures last == AwaitingMre || last == AwaitingAction ==> reply == Blocked
      ensures retries <= |inbox.mreCalls| && retries <= |inbox.choices|
      ensures forall j :: 0 <= j < retries ==> inbox.mreCalls[j] == MreReturned && inbox.choices[j] == "retry"
      ensures last == RoundOf(inbox.mreCalls[retries..], inbox.choices[retries..])
      ensures last.ActionChosen? ==> retries < |inbox.choices| && reply == NavAnswer(inbox.choices[retries + 1..], currentStep)
      decreases Size(inbox)
    {
      var round;
      ghost var first;
      round, rest, first := MreRound(inbox);
      if round == RetryChosen {
        ghost var more, k;
        ghost var after := rest;
        reply, rest, more, k, last := Step1(rest);
        added, retries := first + more, k + 1;
        AppendAssoc(old(debugLog.tags), first, more);
        RetryThen(k, last, more);
        RetryShift(inbox.mreCalls, inbox.choices, k);
      } else {
        added, retries, last := first, 0, round;
        assert inbox.mreCalls[0..] == inbox.mreCalls && inbox.choices[0..] == inbox.choices;
        if round.ActionChosen? {
          reply, rest := MreComplete(round.action, rest);
          AppendAssoc(old(debugLog.tags), first, [StepTag(1, "复现场景 - 完成")]);
          added := first + [StepTag(1, "复现场景 - 完成")];
        } else {
          reply := if round == MreFailed then Returns(False) else Blocked;
        }
        LastRound(round, first);
      }
    }

    /** The end of step 1 after a final verdict: store whether the case was
        confirmed, record the completion and navigate. The prompt offers three
        values, so the action is "confirm" or "skip" here and the step's closing
        `return "continue"` is never reached. */
    method MreComplete(action: string, inbox: Inbox) returns (reply: Reply, rest: Inbox)
      requires Valid()
      modifies this, debugLog
      ensures Valid() && currentStep == old(currentStep)
      ensures sessionData == old(sessionData).(mreConfirmed := Some(action == "confirm"))
      ensures debugLog.tags == old(debugLog.tags) + [StepTag(1, "复现场景 - 完成")]
      ensures reply.Returns? ==> reply.result.Signal? && reply.result.value in NavMenu(currentStep)
      ensures reply == NavAnswer(inbox.choices, currentStep)
      ensures Size(rest) <= Size(inbox)
      ensures reply.Returns? ==> Size(rest) < Size(inbox)
    {
      sessionData := sessionData.(mreConfirmed := Some(action == "confirm"));
      var e := debugLog.LogStepDetail(1, "复现场景 - 完成",
        [("summary", Str("步骤1完成 - " + (if action == "confirm" then "MRE验证成功" else if action == "skip" then "跳过验证" else "其他"))),
         ("result", Str(action)),
         ("mreStatus", Str(if action == "confirm" then "已确认能复现" else if action == "skip" then "跳过验证" else "未确认")),
         ("nextStep", Str("进入假设成因分析阶段"))]);
      reply, rest := AskStepNavigation(inbox);
    }

    /** Step 2, hypothesise: ask the service for candidate root causes, record them
        as an experiment, let the operator pick one and store it. A failed call, or
        an empty list (whose prompt has nothing to pick), ends the step with
        `false` after an error record. */
    method Step2(inbox: Inbox) returns (reply: Reply, rest: Inbox)
      requires Valid()
      modifies this, debugLog
      ensures OpensWith(old(debugLog.tags), debugLog.tags, StepTag(2, StepTitles[1]))
      ensures Valid() && currentStep == old(currentStep)
      ensures Progress(inbox, rest, reply)
      ensures reply.Returns? && reply.result.Signal? ==> reply.result.value in NavMenu(currentStep)
      ensures |inbox.analyses| == 0 ==>
                reply == Blocked && debugLog.tags == old(debugLog.tags) + [StepTag(2, "假设成因")] && sessionData == old(sessionData)
      ensures |inbox.analyses| > 0 && inbox.analyses[0].AnalysisThrew? ==>
                && reply == Returns(False)
                && debugLog.tags == old(debugLog.tags) + [StepTag(2, "假设成因"), StepTag(2, "假设成因 - 错误")]
                && sessionData == old(sessionData)
      ensures |inbox.analyses| > 0 && inbox.analyses[0] == Hypotheses([]) ==>
                && reply == Returns(False)
                && debugLog.tags == old(debugLog.tags) + [StepTag(2, "假设成因"), ExperimentTag("根因假设生成"), StepTag(2, "假设成因 - 错误")]
                && sessionData == old(sessionData)
      ensures |inbox.analyses| > 0 && inbox.analyses[0].Hypotheses? && |inbox.analyses[0].list| > 0 ==>
                var hs := inbox.analyses[0].list;
                if |inbox.picks| > 0 && 0 <= inbox.picks[0] < |hs| then
                  && debugLog.tags == old(debugLog.tags) + [StepTag(2, "假设成因"), ExperimentTag("根因假设生成"),
                                      DecisionTag("根因假设选择", Label(inbox.picks[0], hs[inbox.picks[0]])),
                                      StepTag(2, "假设成因 - 完成")]
                  && sessionData == old(sessionData).(selectedHypothesis := Some(hs[inbox.picks[0]]))
                  && reply == NavAnswer(inbox.choices, currentStep)
                else
                  && reply == Blocked
                  && debugLog.tags == old(debugLog.tags) + [StepTag(2, "假设成因"), ExperimentTag("根因假设生成")]
                  && sessionData == old(sessionData)
    {
      var e := debugLog.LogStepDetail(2, "假设成因",
        [("summary", Str("开始分析可能的根本原因")),
         ("input", Obj([("bugReport", Get(sessionData.bugReport, "error_message")),
                        ("mreStatus", OptBool(sessionData.mreConfirmed))])),
         ("objective", Str("基于已有信息生成候选根因假设")),
         ("method", Str("使用AI分析结合经验规则生成假设列表"))]);
      rest := inbox;
      if |rest.analyses| == 0 {
        reply := Blocked;
        return;
      }
      var analysis := rest.analyses[0];
      rest := rest.(analyses := rest.analyses[1..]);
      if analysis.AnalysisThrew? {
        e := debugLog.LogStepDetail(2, "假设成因 - 错误", AnalysisError(analysis.message));
        Append2(old(debugLog.tags), StepTag(2, "假设成因"), StepTag(2, "假设成因 - 错误"));
        reply := Returns(False);
        return;
      }
      var hs := analysis.list;
      ghost var picks := rest.picks;
      reply, rest := Hypothesise(hs, rest);
      if |hs| == 0 {
        Push2(old(debugLog.tags), StepTag(2, "假设成因"), ExperimentTag("根因假设生成"), StepTag(2, "假设成因 - 错误"));
      } else if |picks| > 0 && 0 <= picks[0] < |hs| {
        Push3(old(debugLog.tags), StepTag(2, "假设成因"), ExperimentTag("根因假设生成"),
              DecisionTag("根因假设选择", Label(picks[0], hs[picks[0]])), StepTag(2, "假设成因 - 完成"));
      } else {
        Append2(old(debugLog.tags), StepTag(2, "假设成因"), ExperimentTag("根因假设生成"));
      }
    }

    /** Step 2 once the service returned a list: record it as an experiment; an
        empty list ends the step with `false` after an error record, otherwise
        the operator picks a hypothesis (`PickHypothesis`). */
    method Hypothesise(hs: seq<Hypothesis>, inbox: Inbox) returns (reply: Reply, rest: Inbox)
      requires Valid()
      modifies this, debugLog
      ensures Valid() && currentStep == old(currentStep)
      ensures Progress(inbox, rest, reply)
      ensures reply.Returns? && reply.result.Signal? ==> reply.result.value in NavMenu(currentStep)
      ensures |hs| == 0 ==>
                && reply == Returns(False)
                && debugLog.tags == old(debugLog.tags) + [ExperimentTag("根因假设生成"), StepTag(2, "假设成因 - 错误")]
                && sessionData == old(sessionData)
      ensures |hs| > 0 ==>
                if |inbox.picks| > 0 && 0 <= inbox.picks[0] < |hs| then
                  && debugLog.tags == old(debugLog.tags) + [ExperimentTag("根因假设生成"),
                                      DecisionTag("根因假设选择", Label(inbox.picks[0], hs[inbox.picks[0]])),
                                      StepTag(2, "假设成因 - 完成")]
                  && sessionData == old(sessionData).(selectedHypothesis := Some(hs[inbox.picks[0]]))
                  && reply == NavAnswer(inbox.choices, currentStep)
                else
                  && reply == Blocked
                  && debugLog.tags == old(debugLog.tags) + [ExperimentTag("根因假设生成")]
                  && sessionData == old(sessionData)
    {
      var e := debugLog.LogExperiment("根因假设生成",
        Obj([("bugReport", sessionData.bugReport),
             ("analysisMethod", Str("AI驱动的根因分析"))]),
        Obj([("hypothesesCount", Num(|hs|)),
             ("hypotheses", Arr(seq(|hs|, i requires 0 <= i < |hs| =>
                                      Obj([("id", Str([Letter(i)])),
                                           ("description", Str(hs[i].description)),
                                           ("evidence", Str(hs[i].evidence))]))))]),
        "生成了" + NatToString(|hs|) + "个候选根因假设，涵盖了不同的可能性");
      if |hs| == 0 {
        e := debugLog.LogStepDetail(2, "假设成因 - 错误", AnalysisError(NoHypothesisError));
        Append2(old(debugLog.tags), ExperimentTag("根因假设生成"), StepTag(2, "假设成因 - 错误"));
        reply, rest := Returns(False), inbox;
        return;
      }
      reply, rest := PickHypothesis(hs, inbox);
      if |inbox.picks| > 0 && 0 <= inbox.picks[0] < |hs| {
        Push2(old(debugLog.tags), ExperimentTag("根因假设生成"),
              DecisionTag("根因假设选择", Label(inbox.picks[0], hs[inbox.picks[0]])), StepTag(2, "假设成因 - 完成"));
      }
    }

    /** The operator picks one of the hypotheses; the choice is recorded as a
        decision, stored, and followed by the completion record and navigation. */
    method PickHypothesis(hs: seq<Hypothesis>, inbox: Inbox) returns (reply: Reply, rest: Inbox)
      requires Valid() && |hs| > 0
      modifies this, debugLog
      ensures Valid() && currentStep == old(currentStep)
      ensures Progress(inbox, rest, reply)
      ensures reply.Returns? ==> reply.result.Signal? && reply.result.value in NavMenu(currentStep)
      ensures |inbox.picks| > 0 && 0 <= inbox.picks[0] < |hs| ==>
                && debugLog.tags == old(debugLog.tags) + [DecisionTag("根因假设选择", Label(inbox.picks[0], hs[inbox.picks[0]])),
                                                           StepTag(2, "假设成因 - 完成")]
                && sessionData == old(sessionData).(selectedHypothesis := Some(hs[inbox.picks[0]]))
                && reply == NavAnswer(inbox.choices, currentStep)
      ensures !(|inbox.picks| > 0 && 0 <= inbox.picks[0] < |hs|) ==>
                reply == Blocked && rest == inbox && debugLog.tags == old(debugLog.tags) && sessionData == old(sessionData)
    {
      rest := inbox;
      if |rest.picks| == 0 || !(0 <= rest.picks[0] < |hs|) {
        reply := Blocked;
        return;
      }
      var index: nat := rest.picks[0];
      rest := rest.(picks := rest.picks[1..]);
      var selected := hs[index];
      var e := debugLog.LogDecision("根因假设选择", Labels(hs), Label(index, selected),
                                    "基于证据强度和可能性选择了最有可能的根因假设");
      sessionData := sessionData.(selectedHypothesis := Some(selected));
      e := debugLog.LogStepDetail(2, "假设成因 - 完成",
        [("summary", Str("根因假设分析完成")),
         ("selectedHypothesis", Obj([("description", Str(selected.description)),
                                     ("evidence", Str(selected.evidence)),
                                     ("confidence", Str("待验证"))])),
         ("nextStep", Str("制定插桩计划验证假设"))]);
      Append2(old(debugLog.tags), DecisionTag("根因假设选择", Label(index, selected)), StepTag(2, "假设成因 - 完成"));
      reply, rest := AskStepNavigation(rest);
    }

    /** Step 3, instrument: the operator picks an instrumentation plan, which is
        stored whatever it is ("skip" included). */
    method Step3(inbox: Inbox) returns (reply: Reply, rest: Inbox)
      requires Valid()
      modifies this, debugLog
      ensures OpensWith(old(debugLog.tags), debugLog.tags, StepTag(3, StepTitles[2]))
      ensures Valid() && currentStep == old(currentStep)
      ensures Progress(inbox, rest, reply)
      ensures reply.Returns? ==> reply.result.Signal? && reply.result.value in NavMenu(currentStep)
      ensures |inbox.choices| > 0 && inbox.choices[0] in InstrumentActions ==>
                var a := inbox.choices[0];
                && debugLog.tags == old(debugLog.tags) + [StepTag(3, "插桩计划"), DecisionTag("插桩计划选择", a), StepTag(3, "插桩计划 - 完成")]
                && sessionData == old(sessionData).(instrumentationPlan := Some(a))
                && reply == NavAnswer(inbox.choices[1..], currentStep)
      ensures !(|inbox.choices| > 0 && inbox.choices[0] in InstrumentActions) ==>
                reply == Blocked && debugLog.tags == old(debugLog.tags) + [StepTag(3, "插桩计划")] && sessionData == old(sessionData)
    {
      var e := debugLog.LogStepDetail(3, "插桩计划",
        [("summary", Str("制定最小侵入式插桩计划")),
         ("objective", Str("在不影响程序正常运行的情况下收集关键调试信息")),
         ("approach", Str("基于选定的根因假设设计针对性的插桩点")),
         ("hypothesis", Str(DescriptionOr(sessionData.selectedHypothesis, "未选择假设")))]);
      rest := inbox;
      if |rest.choices| == 0 || rest.choices[0] !in InstrumentActions {
        reply := Blocked;
        return;
      }
      var action := rest.choices[0];
      rest := rest.(choices := rest.choices[1..]);
      e := debugLog.LogDecision("插桩计划选择",
        ["全部采纳 - 使用所有建议的插桩点", "仅部1,2 - 只使用部分插桩点", "自定义 - 手动设计插桩方案", "跳过 - 不使用插桩直接进入实验"],
        action, InstrumentReasoning(action));
      sessionData := sessionData.(instrumentationPlan := Some(action));
      e := debugLog.LogStepDetail(3, "插桩计划 - 完成",
        [("summary", Str("插桩计划制定完成 - " + action)),
         ("plan", Str(action)),
         ("instrumentations", if action != "skip" then Strings(Instrumentations) else Arr([])),
         ("nextStep", Str("执行实验验证假设"))]);
      Append3(old(debugLog.tags), StepTag(3, "插桩计划"), DecisionTag("插桩计划选择", action), StepTag(3, "插桩计划 - 完成"));
      reply, rest := AskStepNavigation(rest);
    }

    /** Step 4, experiment: the operator confirms the root cause, skips, or rejects
        it; a rejection goes back before any decision, completion record or fact is
        written. */
    method Step4(inbox: Inbox) returns (reply: Reply, rest: Inbox)
      requires Valid()
      modifies this, debugLog
      ensures OpensWith(old(debugLog.tags), debugLog.tags, StepTag(4, StepTitles[3]))
      ensures Valid() && currentStep == old(currentStep)
      ensures Progress(inbox, rest, reply)
      ensures reply.Returns? ==> reply.result.Signal? && (reply.result.value in NavMenu(currentStep) || reply.result.value == "back")
      ensures |inbox.choices| > 0 && inbox.choices[0] == "reanalyze" ==>
                reply == Returns(Signal("back")) && debugLog.tags == old(debugLog.tags) + [StepTag(4, "实验执行")] && sessionData == old(sessionData)
      ensures |inbox.choices| > 0 && inbox.choices[0] in ["confirm", "skip"] ==>
                var a := inbox.choices[0];
                && debugLog.tags == old(debugLog.tags) + [StepTag(4, "实验执行"), DecisionTag("根因确认", a), StepTag(4, "实验执行 - 完成")]
                && sessionData == old(sessionData).(rootCauseConfirmed := Some(a == "confirm"))
                && reply == NavAnswer(inbox.choices[1..], currentStep)
      ensures !(|inbox.choices| > 0 && inbox.choices[0] in RootCauseActions) ==>
                reply == Blocked && debugLog.tags == old(debugLog.tags) + [StepTag(4, "实验执行")] && sessionData == old(sessionData)
    {
      var e := debugLog.LogStepDetail(4, "实验执行",
        [("summary", Str("在控制环境中执行实验验证假设")),
         ("hypothesis", Str(DescriptionOr(sessionData.selectedHypothesis, "未选择假设"))),
         ("instrumentationPlan", Or(OptStr(sessionData.instrumentationPlan), Str("未制定"))),
         ("objective", Str("通过实际执行收集证据验证或反驳假设"))]);
      rest := inbox;
      if |rest.choices| == 0 || rest.choices[0] !in RootCauseActions {
        reply := Blocked;
        return;
      }
      var action := rest.choices[0];
      rest := rest.(choices := rest.choices[1..]);
      if action == "reanalyze" {
        reply := Returns(Signal("back"));
        return;
      }
      reply, rest := RootCauseVerdict(action, rest);
      Push2(old(debugLog.tags), StepTag(4, "实验执行"), DecisionTag("根因确认", action), StepTag(4, "实验执行 - 完成"));
    }

    /** The end of step 4 after "confirm" or "skip": the decision record, whether
        the root cause was confirmed, the completion record and navigation ("reanalyze"
        has gone back before, so the step's closing `return "continue"` is never
        reached). */
    method RootCauseVerdict(action: string, inbox: Inbox) returns (reply: Reply, rest: Inbox)
      requires Valid()
      modifies this, debugLog
      ensures Valid() && currentStep == old(currentStep)
      ensures sessionData == old(sessionData).(rootCauseConfirmed := Some(action == "confirm"))
      ensures debugLog.tags == old(debugLog.tags) + [DecisionTag("根因确认", action), StepTag(4, "实验执行 - 完成")]
      ensures reply.Returns? ==> reply.result.Signal? && reply.result.value in NavMenu(currentStep)
      ensures reply == NavAnswer(inbox.choices, currentStep)
      ensures Size(rest) <= Size(inbox)
    {
      var e := debugLog.LogDecision("根因确认",
        ["确认 - 实验结果支持假设", "否定 - 需要重新分析假设", "跳过 - 直接进入下一步骤"],
        action, RootCauseReasoning(action));
      sessionData := sessionData.(rootCauseConfirmed := Some(action == "confirm"));
      e := debugLog.LogStepDetail(4, "实验执行 - 完成",
        [("summary", Str("实验执行完成 - " + action)),
         ("experimentResults", Obj([("logOutput", Str("i=5, len(list)=5 → 出现 IndexError")),
                                    ("coverageData", Str("case_003 失败，其他通过")),
                                    ("rootCauseConfirmed", Bool(action == "confirm"))])),
         ("nextStep", Str(if action == "confirm" then "制定修复方案" else if action == "reanalyze" then "重新分析假设" else "跳过到下一步"))]);
      Append2(old(debugLog.tags), DecisionTag("根因确认", action), StepTag(4, "实验执行 - 完成"));
      reply, rest := AskStepNavigation(inbox);
    }

    /** Step 5, patch: the operator applies the patch, skips, or rejects it; a
        rejection goes back before any decision, completion record or fact is
        written. */
    method Step5(inbox: Inbox) returns (reply: Reply, rest: Inbox)
      requires Valid()
      modifies this, debugLog
      ensures OpensWith(old(debugLog.tags), debugLog.tags, StepTag(5, StepTitles[4]))
      ensures Valid() && currentStep == old(currentStep)
      ensures Progress(inbox, rest, reply)
      ensures reply.Returns? ==> reply.result.Signal? && (reply.result.value in NavMenu(currentStep) || reply.result.value == "back")
      ensures |inbox.choices| > 0 && inbox.choices[0] == "reexperiment" ==>
                reply == Returns(Signal("back")) && debugLog.tags == old(debugLog.tags) + [StepTag(5, "最小修复")] && sessionData == old(sessionData)
      ensures |inbox.choices| > 0 && inbox.choices[0] in ["confirm", "skip"] ==>
                var a := inbox.choices[0];
                && debugLog.tags == old(debugLog.tags) + [StepTag(5, "最小修复"), DecisionTag("补丁应用", a), StepTag(5, "最小修复 - 完成")]
                && sessionData == old(sessionData).(patchApplied := Some(a == "confirm"))
                && reply == NavAnswer(inbox.choices[1..], currentStep)
      ensures !(|inbox.choices| > 0 && inbox.choices[0] in PatchActions) ==>
                reply == Blocked && debugLog.tags == old(debugLog.tags) + [StepTag(5, "最小修复")] && sessionData == old(sessionData)
    {
      var e := debugLog.LogStepDetail(5, "最小修复",
        PatchOpening(DescriptionOr(sessionData.selectedHypothesis, "未确认根因")));
      rest := inbox;
      if |rest.choices| == 0 || rest.choices[0] !in PatchActions {
        reply := Blocked;
        return;
      }
      var action := rest.choices[0];
      rest := rest.(choices := rest.choices[1..]);
      if action == "reexperiment" {
        reply := Returns(Signal("back"));
        return;
      }
      reply, rest := PatchVerdict(action, rest);
      Push2(old(debugLog.tags), StepTag(5, "最小修复"), DecisionTag("补丁应用", action), StepTag(5, "最小修复 - 完成"));
    }

    /** The end of step 5 after "confirm" or "skip": the decision record, whether
        the patch was applied, the completion record and navigation. */
    method PatchVerdict(action: string, inbox: Inbox) returns (reply: Reply, rest: Inbox)
      requires Valid()
      modifies this, debugLog
      ensures Valid() && currentStep == old(currentStep)
      ensures sessionData == old(sessionData).(patchApplied := Some(action == "confirm"))
      ensures debugLog.tags == old(debugLog.tags) + [DecisionTag("补丁应用", action), StepTag(5, "最小修复 - 完成")]
      ensures reply.Returns? ==> reply.result.Signal? && reply.result.value in NavMenu(currentStep)
      ensures reply == NavAnswer(inbox.choices, currentStep)
      ensures Size(rest) <= Size(inbox)
    {
      var e := debugLog.LogDecision("补丁应用",
        ["确认 - 应用补丁修复问题", "否定 - 需要重新实验设计方案", "跳过 - 不应用补丁直接进入测试"],
        action, PatchReasoning(action));
      sessionData := sessionData.(patchApplied := Some(action == "confirm"));
      e := debugLog.LogStepDetail(5, "最小修复 - 完成", PatchDone(action));
      Append2(old(debugLog.tags), DecisionTag("补丁应用", action), StepTag(5, "最小修复 - 完成"));
      reply, rest := AskStepNavigation(inbox);
    }

    /** Step 6, regression: record the regression run as an experiment, ask whether
        to go on to the last step, record that answer and navigate. No fact is
        written. */
    method Step6(inbox: Inbox) returns (reply: Reply, rest: Inbox)
      requires Valid()
      modifies this, debugLog
      ensures OpensWith(old(debugLog.tags), debugLog.tags, StepTag(6, StepTitles[5]))
      ensures Valid() && currentStep == old(currentStep) && sessionData == old(sessionData)
      ensures Progress(inbox, rest, reply)
      ensures reply.Returns? ==> reply.result.Signal? && reply.result.value in NavMenu(currentStep)
      ensures |inbox.confirms| > 0 ==>
                debugLog.tags == old(debugLog.tags) + [StepTag(6, "回归测试"), ExperimentTag("回归测试"),
                                 DecisionTag("进入最终步骤", if inbox.confirms[0] then "确认" else "取消"),
                                 StepTag(6, "回归测试 - 完成")]
      ensures |inbox.confirms| > 0 ==> reply == NavAnswer(inbox.choices, currentStep)
      ensures |inbox.confirms| == 0 ==>
                reply == Blocked && debugLog.tags == old(debugLog.tags) + [StepTag(6, "回归测试"), ExperimentTag("回归测试")]
    {
      RegressionRun();
      rest := inbox;
      if |rest.confirms| == 0 {
        reply := Blocked;
        return;
      }
      var proceed := rest.confirms[0];
      rest := rest.(confirms := rest.confirms[1..]);
      reply, rest := RegressionVerdict(proceed, rest);
      Push3(old(debugLog.tags), StepTag(6, "回归测试"), ExperimentTag("回归测试"),
            DecisionTag("进入最终步骤", if proceed then "确认" else "取消"), StepTag(6, "回归测试 - 完成"));
    }

    /** The start of step 6: its opening record and the regression run. */
    method RegressionRun()
      requires Valid()
      modifies this, debugLog
      ensures Valid() && currentStep == old(currentStep) && sessionData == old(sessionData)
      ensures debugLog.tags == old(debugLog.tags) + [StepTag(6, "回归测试"), ExperimentTag("回归测试")]
    {
      var e := debugLog.LogStepDetail(6, "回归测试",
        [("summary", Str("执行全面回归测试验证修复效果")),
         ("patchApplied", Or(OptBool(sessionData.patchApplied), Bool(false))),
         ("objective", Str("确保修复没有引入新问题且解决了原始问题")),
         ("testScope", Str("原有测试用例 + 模糊测试"))]);
      e := debugLog.LogExperiment("回归测试",
        Obj([("patchStatus", Str(if Holds(sessionData.patchApplied) then "已应用" else "未应用")),
             ("testSuite", Strings(RegressionSuite))]),
        Obj([("results", Strings(RegressionLines)),
             ("passRate", Str("5/5 (100%)")),
             ("status", Str("全部通过"))]),
        "回归测试全部通过，确认修复成功且未引入新问题");
      Append2(old(debugLog.tags), StepTag(6, "回归测试"), ExperimentTag("回归测试"));
    }

    /** The end of step 6 once the operator answered whether to go on: the
        decision record, the completion record and navigation. Either answer
        leads to the navigation prompt; only its message differs. */
    method RegressionVerdict(proceed: bool, inbox: Inbox) returns (reply: Reply, rest: Inbox)
      requires Valid()
      modifies this, debugLog
      ensures Valid() && currentStep == old(currentStep) && sessionData == old(sessionData)
      ensures debugLog.tags == old(debugLog.tags) + [DecisionTag("进入最终步骤", if proceed then "确认" else "取消"),
                                                     StepTag(6, "回归测试 - 完成")]
      ensures reply.Returns? ==> reply.result.Signal? && reply.result.value in NavMenu(currentStep)
      ensures reply == NavAnswer(inbox.choices, currentStep)
      ensures Size(rest) <= Size(inbox)
    {
      var e := debugLog.LogDecision("进入最终步骤", ["确认 - 进入知识沉淀阶段", "取消 - 不进入最终步骤"],
        if proceed then "确认" else "取消",
        if proceed then "所有测试通过，可以进入最终的知识沉淀阶段" else "用户选择不进入最终步骤");
      e := debugLog.LogStepDetail(6, "回归测试 - 完成",
        [("summary", Str("回归测试完成 - " + (if proceed then "进入最终步骤" else "停止在此"))),
         ("testResults", Obj([("totalTests", Num(5)), ("passed", Num(5)), ("failed", Num(0)),
                              ("passRate", Str("100%"))])),
         ("nextStep", Str(if proceed then "知识沉淀和报告生成" else "结束调试会话"))]);
      Append2(old(debugLog.tags), DecisionTag("进入最终步骤", if proceed then "确认" else "取消"), StepTag(6, "回归测试 - 完成"));
      reply, rest := AskStepNavigation(inbox);
    }

    /** Step 7, document: record the start of the step, compile the report from the
        log as it then stands, ask where to put it (saving and posting are left to
        the caller) and navigate. */
    method Step7(inbox: Inbox) returns (reply: Reply, rest: Inbox, report: Document)
      requires Valid()
      modifies this, debugLog
      ensures OpensWith(old(debugLog.tags), debugLog.tags, StepTag(7, StepTitles[6]))
      ensures Valid() && currentStep == old(currentStep) && sessionData == old(sessionData)
      ensures Progress(inbox, rest, reply)
      ensures reply.Returns? ==> reply.result.Signal? && reply.result.value in NavMenu(currentStep)
      ensures debugLog.tags == old(debugLog.tags) + [StepTag(7, "知识沉淀")]
      ensures report == Compile(Content(sessionData.bugReport, debugLog.clock(old(debugLog.ticks) + 1)), sessionData,
                                debugLog.steps, debugLog.decisions, debugLog.experiments)
      ensures !(|inbox.choices| > 0 && inbox.choices[0] in SubmitActions) ==> reply == Blocked
      ensures |inbox.choices| > 0 && inbox.choices[0] in SubmitActions ==> reply == NavAnswer(inbox.choices[1..], currentStep)
    {
      report := CompileReport();
      rest := inbox;
      if |rest.choices| == 0 || rest.choices[0] !in SubmitActions {
        reply := Blocked;
        return;
      }
      rest := rest.(choices := rest.choices[1..]);
      reply, rest := AskStepNavigation(rest);
    }

    /** The start of step 7: its opening record, then the report compiled from
        the log as it stands after that record. */
    method CompileReport() returns (report: Document)
      requires Valid()
      modifies this, debugLog
      ensures Valid() && currentStep == old(currentStep) && sessionData == old(sessionData)
      ensures debugLog.tags == old(debugLog.tags) + [StepTag(7, "知识沉淀")]
      ensures report == Compile(Content(sessionData.bugReport, debugLog.clock(old(debugLog.ticks) + 1)), sessionData,
                                debugLog.steps, debugLog.decisions, debugLog.experiments)
    {
      var e := debugLog.LogStepDetail(7, "知识沉淀",
        [("summary", Str("开始生成详细调试报告")),
         ("objective", Str("整理整个调试过程，生成透明详细的报告")),
         ("scope", Str("包含所有步骤、决策、实验和时间线"))]);
      var at := debugLog.Now();
      var content := Content(sessionData.bugReport, at);
      report := Compile(content, sessionData, debugLog.steps, debugLog.decisions, debugLog.experiments);
    }

    /** One turn of `start`: the step at index `i` (`steps[i].call(this)`). The
        step's opening record comes first among what it adds; the operator's
        answers decide what it returns. Only the report step, at index 6,
        produces a report. */
    method RunStep(i: nat, inbox: Inbox) returns (reply: Reply, rest: Inbox, report: Option<Document>)
      requires Valid() && i < StepCount
      modifies this, debugLog
      ensures Valid() && currentStep == old(currentStep)
      ensures sessionData.bugReport == old(sessionData.bugReport)
      ensures Progress(inbox, rest, reply)
      ensures report.Some? <==> i == 6
      ensures OpensWith(old(debugLog.tags), debugLog.tags, StepTag(i + 1, StepTitles[i]))
      ensures i < 3 ==> EarlyAnswered(i, inbox, reply, currentStep)
      ensures i >= 3 ==> LateAnswered(i, inbox, reply, currentStep)
    {
      if i < 3 {
        reply, rest := RunEarlyStep(i, inbox);
        report := None;
      } else {
        reply, rest, report := RunLateStep(i, inbox);
      }
    }

    /** Steps 1 to 3. */
    method RunEarlyStep(i: nat, inbox: Inbox) returns (reply: Reply, rest: Inbox)
      requires Valid() && i < 3
      modifies this, debugLog
      ensures Valid() && currentStep == old(currentStep)
      ensures sessionData.bugReport == old(sessionData.bugReport)
      ensures Progress(inbox, rest, reply)
      ensures OpensWith(old(debugLog.tags), debugLog.tags, StepTag(i + 1, StepTitles[i]))
      ensures EarlyAnswered(i, inbox, reply, currentStep)
    {
      if i == 0 {
        ghost var added, retries, last;
        reply, rest, added, retries, last := Step1(inbox);
        Step1Opens(retries, last);
        if |inbox.mreCalls| > 0 && |inbox.choices| > 0 && inbox.choices[0] != "retry" {
          assert retries == 0;
          assert inbox.mreCalls[0..] == inbox.mreCalls && inbox.choices[0..] == inbox.choices;
        }
      } else if i == 1 {
        reply, rest := Step2(inbox);
      } else {
        reply, rest := Step3(inbox);
      }
    }

    /** Steps 4 to 7; only the last produces a report. */
    method RunLateStep(i: nat, inbox: Inbox) returns (reply: Reply, rest: Inbox, report: Option<Document>)
      requires Valid() && 3 <= i < StepCount
      modifies this, debugLog
      ensures Valid() && currentStep == old(currentStep)
      ensures sessionData.bugReport == old(sessionData.bugReport)
      ensures Progress(inbox, rest, reply)
      ensures report.Some? <==> i == 6
      ensures OpensWith(old(debugLog.tags), debugLog.tags, StepTag(i + 1, StepTitles[i]))
      ensures LateAnswered(i, inbox, reply, currentStep)
    {
      report := None;
      if i == 3 {
        reply, rest := Step4(inbox);
      } else if i == 4 {
        reply, rest := Step5(inbox);
      } else if i == 5 {
        reply, rest := Step6(inbox);
      } else {
        var document;
        reply, rest, document := Step7(inbox);
        report := Some(document);
      }
    }

    /** `start`: run the steps from index 0, setting `currentStep` before each one
        and moving as `Next` says, until the run completes, the operator exits, or
        a step waits for an answer. `bugReport` is what the loader fetched. */
    method Start(bugReport: Value, inbox: Inbox)
      returns (end: RunEnd, results: seq<StepResult>, reports: seq<Document>)
      requires Valid()
      modifies this, debugLog
      ensures Valid()
      ensures Walk(0, results) == Run(end, |results|)
      ensures sessionData.bugReport == bugReport
      ensures (end.Exited? || end.Pending?) ==> currentStep == end.at + 1
      ensures end == Completed ==> currentStep == StepCount
      ensures |debugLog.timeline| == |debugLog.steps| + |debugLog.decisions| + |debugLog.experiments|
      ensures reports != [] ==> 6 in Visits(0, results) || end == Pending(6)
    {
      sessionData := sessionData.(bugReport := bugReport);
      var i: nat := 0;
      var pending := inbox;
      results, reports := [], [];
      while i < StepCount
        invariant i <= StepCount
        invariant Valid()
        invariant Walk(0, results) == Run(if i == StepCount then Completed else Pending(i), |results|)
        invariant sessionData.bugReport == bugReport
        invariant i == StepCount ==> currentStep == StepCount
        invariant reports != [] ==> 6 in Visits(0, results)
        decreases Size(pending), StepCount - i
      {
        currentStep := i + 1;
        var reply, rest, report := RunStep(i, pending);
        if report.Some? {
          reports := reports + [report.value];
        }
        if reply.Blocked? {
          end := Pending(i);
          assert Walk(0, results).end == Pending(i);
          assert reports != [] ==> 6 in Visits(0, results) || i == 6;
          TimelineCounts(debugLog.history);
          return;
        }
        var r := reply.result;
        WalkExtend(0, results, i, r);
        results := results + [r];
        match Next(i, r)
        case Halt =>
          end := Exited(i);
          TimelineCounts(debugLog.history);
          return;
        case MoveTo(j) =>
          pending := rest;
          i := j;
      }
      end := Completed;
      TimelineCounts(debugLog.history);
    }
  }
}
