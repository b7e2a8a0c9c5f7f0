# truedebug workflow engine in Dafny

This is a Dafny model of the core of truedebug, a terminal tool that walks an operator
through a seven-step debugging protocol. The steps are reproduce, hypothesise,
instrument, experiment, patch, regression and document. The tool records every step,
decision and experiment in an append-only audit log, and compiles that log into a
debugging report at the end. The model covers the following parts. Each is proved
against its own contracts and lemmas.

- **Text** (`text.dfy`): substring and prefix tests (`includes`, `in`,
  `startswith`), decimal rendering of naturals, and ASCII lower-casing.
- **Json** (`json.dfy`): the dynamically typed values of the front end. It gives
  JavaScript truthiness, `a || b` and `v?.key`. Objects are association lists in
  insertion order.
- **Sequencer** (`sequencer.dfy`): the navigation rule of the `start` loop. A step
  returns "exit", "back", "continue", "skip", another value, or `false`, and the
  rule picks the next step index. It includes the two back-edges 3 → 1 and 4 → 3.
  `Walk` and `Visits` replay a whole run from the returned values.
- **Audit** (`audit.dfy`): the `debugLog` recorder, a class whose list fields the
  three `log*` methods extend. A ghost history of every record says what the lists
  and the timeline are.
- **Facts** (`facts.dfy`): `sessionData`. Each fact is unset until its step writes it.
- **Report** (`report.dfy`): the projections of `generateMarkdownReport`. These are
  the filtered step table, the decision and experiment tables with their status
  glyphs, the root-cause section and the quality indicators, with every fallback.
- **Session** (`session.dfy`): the `DebugSession` class, with its seven step
  methods and the `start` loop.
  - Operator answers and service results arrive in an `Inbox` of queues.
  - A prompt whose queue is empty, or whose next answer is not among the prompt's
    choices, blocks. The step then reports `Blocked` and the run ends `Pending` at
    that step.
  - Each source step function is split into a few methods, one per phase: the
    step-1 round (`MreRound`, `MreVerdict`, `MreComplete`), the step-2 phases
    (`Hypothesise`, `PickHypothesis`), and the closing part of steps 4 and 5
    (`RootCauseVerdict`, `PatchVerdict`). `RunStep` is one call through the
    `steps` array.
- **Backend** (`backend.dfy`): the rule tables of the diagnostic service
  (`backend/main.py`). These are the root-cause hypotheses an error message
  suggests, the instrumentation probes of a hypothesis, the patch choice and the
  regression counts.
- **StepUtils** (`utils.dfy`): `extract_hypothesis`, a first-match lookup of a
  hypothesis by id. A Python exception that escapes the lookup is modelled as the
  outcome `Raised`.
- **Demo** (`demo.dfy`): the demonstration program `process_items` and its
  off-by-one loop, the fixed version, the eight unit tests and the test summary.

Behaviour of the code that a reader of its prompts and names might not expect:

- A step that returns `false` after catching an error is skipped: the loop moves on
  to the next index (`debugSession.js:76-78`). The run does not halt.
- There is no retry outcome in the loop. Step 1 retries by calling itself
  (`debugSession.js:334`).
- A rejection at step 4 ("reanalyze") or step 5 ("reexperiment") returns "back"
  before any decision is recorded (`debugSession.js:605-608`, `692-695`). The
  rejection itself is not in the decision table.
- Step 4's error handler records nothing (`debugSession.js:649-652`).
- The closing `return "continue"` of steps 1, 4 and 5 is unreachable, because the
  prompt only offers the values that return earlier.
- A step runs again from the beginning when the loop resumes at it, so every visit
  adds a new opening record.

## Model

| member | source | states |
|---|---|---|
| Text.ContainsIff | src/debugSession.js:948 | the substring search holds exactly when some position starts an occurrence |
| Text.NatToStringRoundTrip | src/debugSession.js:417 | the decimal rendering of a count reads back as the same count |
| Text.Lower | backend/main.py:150 | lower-casing keeps the length and lowers each ASCII capital, leaving every other character as it was |
| Json.Or | src/debugSession.js:195 | `a \|\| b` is `a` when `a` is truthy and `b` otherwise; the result is truthy exactly when one operand is |
| Json.LookupFirst | src/debugSession.js:954 | an object property read returns the value of the first property with that name |
| Json.LookupMissing | src/debugSession.js:954 | reading a missing property gives `undefined`; when no value is `undefined`, only a missing property gives it |
| Sequencer.BackTarget | src/debugSession.js:55-73 | "back" stays at index 0, goes from 3 to 1 and from 4 to 3, and otherwise goes to the previous index; it never moves forward |
| Sequencer.Next | src/debugSession.js:52-81 | the loop halts exactly on "exit"; "back" follows `BackTarget`; every other value, including `false` and "skip", advances by one |
| Sequencer.Walk | src/debugSession.js:47-82 | a replayed run uses at most the given results; an exited or pending run stops at a step index |
| Sequencer.VisitsShape | src/debugSession.js:47-82 | one visited step per consumed result, each a step index, starting at the first index, each move following `Next` |
| Sequencer.CompletesOnlyAtEnd | src/debugSession.js:48 | a completed run has visited at least as many steps as remained |
| Sequencer.StraightRun | src/debugSession.js:74-81 | with no "exit" or "back", the run completes after one result per step and visits the steps in order |
| Sequencer.EndedRunIgnoresRest | src/debugSession.js:52-54 | once the run has exited or completed, later answers are never consumed and no further step runs |
| Sequencer.ReachedAfterPredecessors | src/debugSession.js:74-81 | a step is reached only after every earlier step has run, so the report step never runs in a session left earlier |
| Sequencer.PrefixCovers | src/debugSession.js:74-81 | by induction on the visit list: every index below a visited one occurs before it |
| Sequencer.BackEdgesResume | src/debugSession.js:59-68 | "back" at index 3 resumes at 1 and at index 4 resumes at 3, whatever came before and after |
| Sequencer.ExitStops | src/debugSession.js:52-54 | "exit" at any step ends the run there with that one step visited |
| Sequencer.WalkExtend | src/debugSession.js:48-82 | one more loop turn extends the replay exactly as `Next` says |
| Audit.StepDetails | src/debugSession.js:195 | a step's timeline text is its `summary` when truthy, otherwise the step name |
| Audit.TimelineExact | src/debugSession.js:192-196 | the timeline has one entry per record, in order, with the record's timestamp |
| Audit.TimelineCounts | src/debugSession.js:191-232 | the timeline is exactly as long as the step, decision and experiment lists together |
| Audit.StepsAreRecorded | src/debugSession.js:191 | every step record in the list came from the history of calls |
| Audit.ProjectShowsKind | src/debugSession.js:191-232 | a timeline entry carries its record's timestamp; its text starts with "Step ", "决策: " or "实验: " exactly when the record is a step, a decision or an experiment; a step entry's details are its summary or name |
| Audit.EventKind | src/debugSession.js:191-232 | the three event prefixes tell the kinds apart: a text that starts with one starts with no other |
| Audit.ShapeExact | src/debugSession.js:183-233 | the tag list has one tag per record, in order |
| Audit.ShapeAppend | src/debugSession.js:183-233 | the tags of two histories appended are the two tag lists appended |
| Audit.CountStepAppend | src/debugSession.js:183-197 | counting named step records distributes over concatenation |
| Audit.Record | src/debugSession.js:191-232 | appending one record extends exactly one list, the timeline by its projection, and keeps the length sum |
| Audit.RecordStep | src/debugSession.js:191-196 | a step record keeps the lists consistent with the history |
| Audit.RecordDecision | src/debugSession.js:209-214 | a decision record keeps the lists consistent with the history |
| Audit.RecordExperiment | src/debugSession.js:227-232 | an experiment record keeps the lists consistent with the history |
| Audit.DebugLog.constructor | src/debugSession.js:21-27 | an empty log whose session start is the first clock reading |
| Audit.DebugLog.Now | src/debugSession.js:855 | reading the clock records nothing |
| Audit.DebugLog.LogStepDetail | src/debugSession.js:183-197 | appends the step record with a fresh timestamp and a copy of the data, plus its timeline entry, and changes no other list |
| Audit.DebugLog.LogDecision | src/debugSession.js:200-215 | appends the decision record and its timeline entry, and changes no other list |
| Audit.DebugLog.LogExperiment | src/debugSession.js:218-233 | appends the experiment record and its timeline entry, and changes no other list |
| Facts.DescriptionOrIsJsReading | src/debugSession.js:490 | the description-or-fallback value is what `selectedHypothesis?.description \|\| fallback` gives, through optional access and `\|\|` on the front end's values |
| Report.ShownStepsExact | src/debugSession.js:945-949 | the step table keeps exactly the records whose name marks neither an error nor a retry, both directions |
| Report.ShownStepsAll | src/debugSession.js:945-949 | the table shows every record exactly when none is an error or retry notice |
| Report.ShownSteps | src/debugSession.js:945-949 | the shown records are drawn from the log and none of them names an error or a retry |
| Report.StepStatus | src/debugSession.js:954 | the status is truthy and is the record's `result`, its `summary` or "进行中" |
| Report.StepStatusNeverBlank | src/debugSession.js:954 | a step row's status is the truthy `result`, else the truthy `summary`, else "进行中", and is never blank |
| Report.StepRowsRecord | src/debugSession.js:945-956 | one more step record keeps the earlier rows and adds its row at the end, unless it names an error or retry |
| Report.DecisionRowsRecord | src/debugSession.js:960-966 | one more decision keeps the earlier rows and adds its row at the end, numbered one past them |
| Report.StepRowsFromLog | src/debugSession.js:945-956 | a record has a row in the step table exactly when it is in the log and names neither an error nor a retry; every row is the row of such a record |
| Report.ExperimentGlyph | src/debugSession.js:973-978 | ✅ exactly on success language, ❌ exactly on failure language without success language, ⚠️ otherwise |
| Report.ExperimentRowsRecord | src/debugSession.js:970-982 | one more experiment keeps the earlier rows and adds its row at the end, numbered one past them, with the glyph of its analysis |
| Report.Indicators | src/debugSession.js:1049-1066 | four indicators, MRE, root cause, patch and regression in that order, the last one noting the regression summary |
| Report.CompileConsistent | src/debugSession.js:936-1082 | the report sections agree: one row per decision and experiment, a root-cause section exactly when a hypothesis was selected and naming the summary's root cause, statuses repeating their indicators, generation time from the content |
| Report.StepCountCoversAll | src/debugSession.js:996 | the step count covers every record, and the table matches it exactly when nothing is hidden |
| Report.IndicatorsFollowFacts | src/debugSession.js:1049-1066 | each quality indicator is ✅ exactly when its fact is true; unset reads as ❌ |
| Report.SparseSessionFallbacks | src/debugSession.js:992 | a session with no facts still compiles, with "未确定", "未进行根因分析" and the ❌ fallbacks |
| Report.RecordedAnalysesGlyphs | src/debugSession.js:290 | the MRE and regression analyses that steps 1 and 6 record get the ✅ glyph |
| Session.NavMenu | src/debugSession.js:235-243 | the navigation prompt offers continue and exit, and back exactly after the first step |
| Session.Labels | src/debugSession.js:443-445 | one label per hypothesis, "(x) " followed by its description, where x is the hypothesis's letter |
| Session.LettersDistinct | src/debugSession.js:444 | different hypotheses get different letters, the first three "a", "b", "c" |
| Session.ContentShape | src/debugSession.js:848-858 | the problem is the bug report's error message when truthy and the default `IndexError` text otherwise, never empty; the regression summary reads as passed; the timestamp is the one given |
| Session.Step1Opens | src/debugSession.js:260-265 | whatever the rounds, the log of step 1 begins with its start record |
| Session.RoundCounts | src/debugSession.js:257-356 | each round of step 1 has one start record; only a retry has a retry notice and only a final verdict a completion record |
| Session.Step1Counts | src/debugSession.js:327-334 | after k retries step 1 holds k + 1 start records, k retry notices and at most one completion record |
| Session.RetryThen | src/debugSession.js:334 | a retried round followed by the rest of the step is one more repetition |
| Session.LastRound | src/debugSession.js:337-363 | a round that is not retried is the step's last one |
| Session.RepeatCount | src/debugSession.js:327-334 | named records in k repeated rounds are k times those of one round |
| Session.DebugSession.constructor | src/debugSession.js:9-28 | a session at step 1 with no facts and an empty log |
| Session.DebugSession.AskStepNavigation | src/debugSession.js:235-255 | the reply is `NavAnswer`: the first answer when it is on the menu, consumed; otherwise blocked with nothing consumed |
| Session.DebugSession.MreRound | src/debugSession.js:257-335 | the round is `RoundOf` the queued service result and answer: waiting exactly when no result is queued, failing exactly when it is an error, retrying exactly on "retry"; the tags of that round |
| Session.DebugSession.MreVerdict | src/debugSession.js:279-335 | records the experiment, then the verdict; retry exactly on "retry"; a final verdict is "confirm" or "skip" |
| Session.DebugSession.Step1 | src/debugSession.js:257-376 | the first k service results returned and the first k answers were "retry", and the last round is `RoundOf` what follows; the log grows by k retried rounds and that round; only the last writes `mreConfirmed`; `false` exactly when the service failed; after a verdict the reply is the navigation answer to the next answer |
| Session.DebugSession.MreComplete | src/debugSession.js:337-361 | stores whether the case was confirmed, adds the completion record, and replies with the navigation answer |
| Session.DebugSession.Step2 | src/debugSession.js:378-479 | per service result: blocked, error record with `false`, or experiment, decision and completion with the picked hypothesis stored and the navigation answer as reply; the log opens with the step record |
| Session.DebugSession.Hypothesise | src/debugSession.js:403-466 | records the experiment; an empty list ends with an error record and `false`; otherwise picks, and a valid pick ends with the navigation answer |
| Session.DebugSession.PickHypothesis | src/debugSession.js:427-466 | a pick in range is recorded, stored and followed by the completion record and the navigation answer; else blocked with nothing changed |
| Session.DebugSession.Step3 | src/debugSession.js:481-552 | a plan among the four choices is recorded and stored, and the reply is the navigation answer to the next answer; else blocked after the opening record |
| Session.DebugSession.Step4 | src/debugSession.js:554-653 | "reanalyze" returns "back" with only the opening record; "confirm" or "skip" records, stores the verdict and replies with the navigation answer to the next answer |
| Session.DebugSession.RootCauseVerdict | src/debugSession.js:610-646 | the decision, `rootCauseConfirmed`, the completion record, and the navigation answer as reply |
| Session.DebugSession.Step5 | src/debugSession.js:655-737 | "reexperiment" returns "back" with only the opening record; "confirm" or "skip" records, stores the verdict and replies with the navigation answer to the next answer |
| Session.DebugSession.PatchVerdict | src/debugSession.js:697-734 | the decision, `patchApplied`, the completion record, and the navigation answer as reply |
| Session.DebugSession.Step6 | src/debugSession.js:739-835 | records the regression experiment, the proceed decision and the completion; writes no fact; once the operator answered, the reply is the navigation answer |
| Session.DebugSession.RegressionRun | src/debugSession.js:739-791 | the opening record of step 6 and the regression experiment, and no fact written |
| Session.DebugSession.RegressionVerdict | src/debugSession.js:802-829 | the proceed decision and the completion record for either answer, then the navigation answer |
| Session.DebugSession.Step7 | src/debugSession.js:837-934 | records the opening, compiles the report from the log as it then stands, and after a submit choice replies with the navigation answer to the next answer |
| Session.DebugSession.CompileReport | src/debugSession.js:837-867 | the opening record of step 7, then the report compiled from the log as it stands after that record, at the next clock reading |
| Session.DebugSession.RunStep | src/debugSession.js:37-50 | the step at the index runs: the log opens with that step's record, the reply is the one that step promises for the queued answers, and only index 6 yields a report |
| Session.DebugSession.RunEarlyStep | src/debugSession.js:37-50 | steps 1 to 3 by index, each with its own reply |
| Session.DebugSession.RunLateStep | src/debugSession.js:37-50 | steps 4 to 7 by index, each with its own reply; only step 7 yields a report |
| Session.DebugSession.Start | src/debugSession.js:30-83 | the run is the replay of the step results under `Next`; `currentStep` is the last step run; the timeline length sum holds; a report means step 7 was reached |
| Backend.AnalyzeRootCause | backend/main.py:134-170 | the loop-boundary, then empty-list hypotheses on `IndexError`; the list-state one last when the message mentions a list; the two generic ones otherwise; never empty |
| Backend.TypicalMessageFiresBoth | backend/main.py:136-150 | the demo failure message fires both rules |
| Backend.AnalyzeTypicalFailure | backend/main.py:134-155 | the demo failure gets exactly three hypotheses, the loop boundary first |
| Backend.GenerateInstrumentation | backend/main.py:188-214 | the probe groups of the rules that fire, in the order loop, empty list, concurrency, or the default pair; never empty |
| Backend.HypothesesFireTheirProbes | backend/main.py:190-203 | each hypothesis of the root-cause table fires its own probe rule |
| Backend.InstrumentLoopBoundary | backend/main.py:190-195 | instrumenting the loop-boundary hypothesis starts with the three loop probes |
| Backend.GeneratePatch | backend/main.py:276-291 | the `buggy.py` line-42 range fix exactly when "循环边界" occurs, the generic patch otherwise |
| Backend.LoopBoundaryGetsRangePatch | backend/main.py:276-283 | the first `IndexError` hypothesis leads to the range fix |
| Backend.PassedCountBounds | backend/main.py:328 | the passed count is at most the total and equals it exactly when every test passed |
| Backend.Summarise | backend/main.py:328-336 | total, passed, failed = total − passed, all passed exactly when every test did |
| Backend.CannedRunPasses | backend/main.py:319-336 | the canned results give six of six passed |
| StepUtils.SearchFindsFirst | backend/steps/utils.py:24-26 | the first element with the id is returned as it is |
| StepUtils.SearchRaisesAtBad | backend/steps/utils.py:24-25 | a non-dictionary element reached before any match raises |
| StepUtils.SearchOutcomes | backend/steps/utils.py:24-28 | a found element is the first match; nothing is found exactly when every element is a dictionary with another id |
| StepUtils.SearchValue | backend/steps/utils.py:24 | a list is searched, an empty string or dictionary yields nothing, and every other value raises |
| StepUtils.ExtractHypothesis | backend/steps/utils.py:21-28 | `None` for a missing or empty response or one without hypotheses; otherwise the search |
| StepUtils.FoundIsFirstListElement | backend/steps/utils.py:24-26 | a found hypothesis is the first list element with that id, unchanged |
| StepUtils.ExtractFindsFirst | backend/steps/utils.py:21-26 | a response whose list has its first match at i returns that element |
| StepUtils.ExtractNoMatch | backend/steps/utils.py:24-28 | a list of dictionaries without the id gives `None` |
| StepUtils.PickSecond | backend/steps/utils.py:24-26 | picking "b" among "a", "b", "c" returns the second hypothesis |
| Demo.Classify | demo/buggy.py:21-24 | an item is important exactly when it starts with "重要" |
| Demo.ProcessItems | demo/buggy.py:7-26 | every list, the empty one included, raises `IndexError` at index `len(items)` after processing every item, and never completes |
| Demo.ProcessItemsFixed | demo/test_cases.py:61-76 | every read is in bounds, every item is processed once in order, and the call completes |
| Demo.ClassifyExamples | demo/test_cases.py:53 | the test items take the branches their prefix says |
| Demo.AssertRaisesIndexError | demo/test_cases.py:24-25 | the case passes exactly when the call raised `IndexError` |
| Demo.AssertNoException | demo/test_cases.py:83-86 | the case passes exactly when the call completed |
| Demo.TestNormalList | demo/test_cases.py:19-25 | the three-item list raises `IndexError`, so the case ends `Pass` |
| Demo.TestEmptyList | demo/test_cases.py:27-33 | the empty list raises `IndexError` at index 0, so the case ends `Pass` |
| Demo.TestSingleItem | demo/test_cases.py:35-41 | the one-item list raises `IndexError`, so the case ends `Pass` |
| Demo.TestLargeList | demo/test_cases.py:43-49 | the ten-item list raises `IndexError`, so the case ends `Pass` |
| Demo.TestSpecialCharacters | demo/test_cases.py:51-56 | the list with an important item raises `IndexError`, so the case ends `Pass` |
| Demo.TestFixedNormalList | demo/test_cases.py:78-86 | the fixed loop completes on three items, so the case ends `Pass` |
| Demo.TestFixedEmptyList | demo/test_cases.py:88-95 | the fixed loop completes on the empty list, so the case ends `Pass` |
| Demo.TestFixedSingleItem | demo/test_cases.py:97-104 | the fixed loop completes on one item, so the case ends `Pass` |
| Demo.Count | demo/test_cases.py:130-132 | a count never exceeds the number of cases |
| Demo.CountsPartition | demo/test_cases.py:127-133 | every case passes, fails or errs, and all pass exactly when the pass count is the total |
| Demo.Summarise | demo/test_cases.py:129-133 | successes, computed as run − failures − errors, is the number of passing cases |
| Demo.RunAllTests | demo/test_cases.py:106-135 | the eight cases of the suite give no failure, no error and eight successes |

## Left out

- Terminal output, spinners, tables, colours and the `setTimeout` delays are not
  modelled. Prompts are the queued answers of an `Inbox`.
- `loadBugReport` is not modelled. It only displays the report and rethrows before
  the loop. `Start` takes the loaded report as a parameter.
- The HTTP client (`apiClient.js`) is not modelled. Its fallback payloads are not
  modelled either. A service call is a queued result that either returned or threw.
- Timestamps are opaque clock readings (`clock(ticks)`). The session-duration float,
  `toFixed(1)` and `toLocaleTimeString` are not modelled.
- Writing the report file and posting it to GitHub (`debugSession.js:884-931`) are
  not modelled. The report is the compiled `Document` value, and the Markdown
  template text around it is not modelled.
- Session.Letter: `String.fromCharCode(97 + i)` is exact only up to U+D7FF. Beyond
  that the model gives '?'.
- Session.DebugSession.Step2: the error text a prompt with no choices raises is a
  placeholder, not the prompt library's message.
- Session.DebugSession.Start: the ensures tie the run to the replay of the step
  results and keep the timeline length sum. Which step ran and what it answered is
  stated per turn on `RunStep`. It is not composed into one formula for the whole run.
- Session.DebugSession.Step7: which sinks the submit choice selects is not modelled.
  Only the fact that a choice was made is.
- Property reads take the first property of a name. A JavaScript object or Python dict with a
  repeated key keeps the last value instead.
- Text.Lower: lowers ASCII letters only. Python's `str.lower` also lowers other
  scripts. This does not change the `"list"` test.
- Confidences of the back end's hypotheses are integer percentages (0.85 as 85), not floats.
- Backend: HTTP routing, request logging, timestamps, the exception-to-HTTP-500
  wrapping and the endpoints outside the four rule tables are not modelled.
- StepUtils.ExtractHypothesis: the response is a dictionary or `None`. Other falsy
  or non-dictionary values are not accepted as responses.
- Demo: the lines the loops print are summarised by the list of processed items. The
  demo program's `main` and the unittest runner's text output are not modelled.
- Concurrency: the program is single-threaded. The awaits are modelled as ordinary
  sequential calls.
