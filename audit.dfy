/** The append-only audit recorder of a debugging session (`debugLog`): three
    record lists (step details, decisions, experiments) and a timeline that gets
    one projected entry for every record, in call order. */
module Audit {
  import opened Json
  import opened Text

  /** An ISO-8601 timestamp as read from the clock; the model treats it as opaque text. */
  type Timestamp = string

  /** One `logStepDetail` record; `data` is the shallow copy of the caller's object. */
  datatype StepDetail = StepDetail(stepNumber: nat, stepName: string, timestamp: Timestamp, data: Fields)

  /** One `logDecision` record. */
  datatype Decision = Decision(timestamp: Timestamp, context: string, options: seq<string>, selected: string, reasoning: string)

  /** One `logExperiment` record (`type` in the source). */
  datatype Experiment = Experiment(timestamp: Timestamp, kind: string, input: Value, output: Value, analysis: string)

  /** One timeline entry. */
  datatype TimelineEntry = TimelineEntry(timestamp: Timestamp, event: string, details: Value)

  /** Any record, in the order the recorder was called. */
  datatype Entry =
    | StepEntry(step: StepDetail)
    | DecisionEntry(decision: Decision)
    | ExperimentEntry(experiment: Experiment)

  /** Timeline text of a step record: its `summary` when truthy, else the step name. */
  function StepDetails(stepName: string, data: Fields): (r: Value)
    ensures Truthy(Lookup(data, "summary")) ==> r == Lookup(data, "summary")
    ensures !Truthy(Lookup(data, "summary")) ==> r == Str(stepName)
  {
    Or(Get(Obj(data), "summary"), Str(stepName))
  }

  /** The timeline entry a record contributes: the record's own timestamp, an
      event name that says which kind of record it is, and a short description. */
  function Project(e: Entry): TimelineEntry
  {
    match e
    case StepEntry(s) =>
      TimelineEntry(s.timestamp, "Step " + (NatToString(s.stepNumber) + ": " + s.stepName), StepDetails(s.stepName, s.data))
    case DecisionEntry(d) =>
      TimelineEntry(d.timestamp, "决策: " + d.context, Str("选择了 \"" + d.selected + "\" - " + d.reasoning))
    case ExperimentEntry(x) =>
      TimelineEntry(x.timestamp, "实验: " + x.kind, Str(x.analysis))
  }

  /** A timeline entry carries its record's timestamp, and its event text tells
      which kind of record it came from: exactly the step records start with
      "Step ", the decisions with "决策: " and the experiments with "实验: ". */
  lemma ProjectShowsKind(e: Entry)
    ensures Project(e).timestamp == TimestampOf(e)
    ensures e.StepEntry? <==> StartsWith(Project(e).event, "Step ")
    ensures e.DecisionEntry? <==> StartsWith(Project(e).event, "决策: ")
    ensures e.ExperimentEntry? <==> StartsWith(Project(e).event, "实验: ")
    ensures e.StepEntry? ==> Project(e).details == StepDetails(e.step.stepName, e.step.data)
  {
    match e
    case StepEntry(s) => EventKind(Project(e).event, "Step ");
    case DecisionEntry(d) => EventKind(Project(e).event, "决策: ");
    case ExperimentEntry(x) => EventKind(Project(e).event, "实验: ");
  }

  /** An event text that starts with one of the three kind prefixes starts with
      that one and with neither of the other two. */
  lemma EventKind(event: string, prefix: string)
    requires prefix in ["Step ", "决策: ", "实验: "]
    requires |prefix| <= |event| && event[..|prefix|] == prefix
    ensures StartsWith(event, "Step ") <==> prefix == "Step "
    ensures StartsWith(event, "决策: ") <==> prefix == "决策: "
    ensures StartsWith(event, "实验: ") <==> prefix == "实验: "
  {
    assert event[0] == prefix[0] by { assert event[..|prefix|][0] == event[0]; }
    forall p | p in ["Step ", "决策: ", "实验: "] && StartsWith(event, p) ensures event[0] == p[0] {
      assert event[..|p|][0] == event[0];
    }
  }

  /** The step records of a history, in order. */
  function StepsOf(h: seq<Entry>): seq<StepDetail>
  {
    if h == [] then []
    else StepsOf(h[..|h| - 1]) + (if h[|h| - 1].StepEntry? then [h[|h| - 1].step] else [])
  }

  /** The decision records of a history, in order. */
  function DecisionsOf(h: seq<Entry>): seq<Decision>
  {
    if h == [] then []
    else DecisionsOf(h[..|h| - 1]) + (if h[|h| - 1].DecisionEntry? then [h[|h| - 1].decision] else [])
  }

  /** The experiment records of a history, in order. */
  function ExperimentsOf(h: seq<Entry>): seq<Experiment>
  {
    if h == [] then []
    else ExperimentsOf(h[..|h| - 1]) + (if h[|h| - 1].ExperimentEntry? then [h[|h| - 1].experiment] else [])
  }

  /** The timeline of a history: one projected entry per record, in order. */
  function TimelineOf(h: seq<Entry>): seq<TimelineEntry>
  {
    if h == [] then [] else TimelineOf(h[..|h| - 1]) + [Project(h[|h| - 1])]
  }

  /** The timeline entry at each position is the projection of the record there,
      and it carries that record's timestamp. */
  lemma {:induction false} TimelineExact(h: seq<Entry>)
    ensures |TimelineOf(h)| == |h|
    ensures forall k :: 0 <= k < |h| ==> TimelineOf(h)[k] == Project(h[k])
    ensures forall k :: 0 <= k < |h| ==> TimelineOf(h)[k].timestamp == TimestampOf(h[k])
  {
    if h != [] {
      TimelineExact(h[..|h| - 1]);
    }
  }

  function TimestampOf(e: Entry): Timestamp
  {
    match e
    case StepEntry(s) => s.timestamp
    case DecisionEntry(d) => d.timestamp
    case ExperimentEntry(x) => x.timestamp
  }

  /** Nothing is lost: the timeline is exactly as long as the three record lists together. */
  lemma {:induction false} TimelineCounts(h: seq<Entry>)
    ensures |TimelineOf(h)| == |StepsOf(h)| + |DecisionsOf(h)| + |ExperimentsOf(h)|
  {
    if h != [] {
      TimelineCounts(h[..|h| - 1]);
    }
  }

  /** Every record of a list came from the history, in the history's order:
      the step list is the step records of the history, read left to right. */
  lemma {:induction false} StepsAreRecorded(h: seq<Entry>, k: nat)
    requires k < |StepsOf(h)|
    ensures StepEntry(StepsOf(h)[k]) in h
  {
    var p := h[..|h| - 1];
    if k < |StepsOf(p)| {
      StepsAreRecorded(p, k);
      assert p[..] <= h;
    } else {
      assert StepsOf(h)[k] == h[|h| - 1].step;
    }
  }

  /** A compact view of a record: its kind and the words that identify it. */
  datatype Tag =
    | StepTag(number: nat, name: string)
    | DecisionTag(context: string, selected: string)
    | ExperimentTag(kind: string)

  function TagOf(e: Entry): Tag
  {
    match e
    case StepEntry(s) => StepTag(s.stepNumber, s.stepName)
    case DecisionEntry(d) => DecisionTag(d.context, d.selected)
    case ExperimentEntry(x) => ExperimentTag(x.kind)
  }

  /** The tags of a history, in order. */
  function Shape(h: seq<Entry>): seq<Tag>
  {
    if h == [] then [] else Shape(h[..|h| - 1]) + [TagOf(h[|h| - 1])]
  }

  /** One tag per record, each the tag of the record at the same position. */
  lemma {:induction false} ShapeExact(h: seq<Entry>)
    ensures |Shape(h)| == |h|
    ensures forall k :: 0 <= k < |h| ==> Shape(h)[k] == TagOf(h[k])
  {
    if h != [] {
      ShapeExact(h[..|h| - 1]);
    }
  }

  /** Appending one record appends its tag. */
  lemma ShapeSnoc(a: seq<Entry>, e: Entry)
    ensures Shape(a + [e]) == Shape(a) + [TagOf(e)]
  {
    assert (a + [e])[..|a + [e]| - 1] == a;
  }

  /** The shape of a concatenation is the concatenation of the shapes. */
  lemma {:induction false} ShapeAppend(a: seq<Entry>, b: seq<Entry>)
    ensures Shape(a + b) == Shape(a) + Shape(b)
    decreases |b|
  {
    if b == [] {
      assert a + b == a;
    } else {
      var p := b[..|b| - 1];
      assert a + b == (a + p) + [b[|b| - 1]];
      ShapeSnoc(a + p, b[|b| - 1]);
      ShapeAppend(a, p);
    }
  }

  /** Number of step records named `name` in a list of tags. */
  function CountStep(t: seq<Tag>, name: string): nat
  {
    if t == [] then 0
    else CountStep(t[..|t| - 1], name) + (if t[|t| - 1].StepTag? && t[|t| - 1].name == name then 1 else 0)
  }

  /** Counting distributes over concatenation. */
  lemma {:induction false} CountStepAppend(a: seq<Tag>, b: seq<Tag>, name: string)
    ensures CountStep(a + b, name) == CountStep(a, name) + CountStep(b, name)
    decreases |b|
  {
    if b == [] {
      assert a + b == a;
    } else {
      assert (a + b)[..|a + b| - 1] == a + b[..|b| - 1];
      CountStepAppend(a, b[..|b| - 1], name);
    }
  }

  /** Whether any decision tag occurs in a list of tags. */
  predicate HasDecision(t: seq<Tag>)
  {
    exists k :: 0 <= k < |t| && t[k].DecisionTag?
  }

  /** Appending one record extends exactly one of the record lists, and the
      timeline and the tags by one entry each. */
  lemma Record(h: seq<Entry>, e: Entry)
    ensures StepsOf(h + [e]) == StepsOf(h) + (if e.StepEntry? then [e.step] else [])
    ensures DecisionsOf(h + [e]) == DecisionsOf(h) + (if e.DecisionEntry? then [e.decision] else [])
    ensures ExperimentsOf(h + [e]) == ExperimentsOf(h) + (if e.ExperimentEntry? then [e.experiment] else [])
    ensures TimelineOf(h + [e]) == TimelineOf(h) + [Project(e)]
    ensures Shape(h + [e]) == Shape(h) + [TagOf(e)]
    ensures |TimelineOf(h + [e])| == |StepsOf(h + [e])| + |DecisionsOf(h + [e])| + |ExperimentsOf(h + [e])|
  {
    assert (h + [e])[..|h + [e]| - 1] == h;
    TimelineCounts(h + [e]);
  }

  /** The recorder's lists and tags are the projections of its history. */
  ghost predicate Consistent(h: seq<Entry>, steps: seq<StepDetail>, decisions: seq<Decision>,
                             experiments: seq<Experiment>, timeline: seq<TimelineEntry>, tags: seq<Tag>)
  {
    && steps == StepsOf(h)
    && decisions == DecisionsOf(h)
    && experiments == ExperimentsOf(h)
    && timeline == TimelineOf(h)
    && tags == Shape(h)
  }

  /** Recording a step keeps the lists consistent with the history, and the
      timeline as long as the three lists together. */
  lemma RecordStep(h: seq<Entry>, steps: seq<StepDetail>, decisions: seq<Decision>,
                   experiments: seq<Experiment>, timeline: seq<TimelineEntry>, tags: seq<Tag>, s: StepDetail)
    requires Consistent(h, steps, decisions, experiments, timeline, tags)
    ensures Consistent(h + [StepEntry(s)], steps + [s], decisions, experiments,
                       timeline + [Project(StepEntry(s))], tags + [TagOf(StepEntry(s))])
    ensures |timeline| + 1 == |steps| + 1 + |decisions| + |experiments|
  {
    Record(h, StepEntry(s));
  }

  /** Recording a decision keeps the lists consistent with the history. */
  lemma RecordDecision(h: seq<Entry>, steps: seq<StepDetail>, decisions: seq<Decision>,
                       experiments: seq<Experiment>, timeline: seq<TimelineEntry>, tags: seq<Tag>, d: Decision)
    requires Consistent(h, steps, decisions, experiments, timeline, tags)
    ensures Consistent(h + [DecisionEntry(d)], steps, decisions + [d], experiments,
                       timeline + [Project(DecisionEntry(d))], tags + [TagOf(DecisionEntry(d))])
    ensures |timeline| + 1 == |steps| + |decisions| + 1 + |experiments|
  {
    Record(h, DecisionEntry(d));
  }

  /** Recording an experiment keeps the lists consistent with the history. */
  lemma RecordExperiment(h: seq<Entry>, steps: seq<StepDetail>, decisions: seq<Decision>,
                         experiments: seq<Experiment>, timeline: seq<TimelineEntry>, tags: seq<Tag>, x: Experiment)
    requires Consistent(h, steps, decisions, experiments, timeline, tags)
    ensures Consistent(h + [ExperimentEntry(x)], steps, decisions, experiments + [x],
                       timeline + [Project(ExperimentEntry(x))], tags + [TagOf(ExperimentEntry(x))])
    ensures |timeline| + 1 == |steps| + |decisions| + |experiments| + 1
  {
    Record(h, ExperimentEntry(x));
  }

  /** The recorder. Its lists only ever grow, one record per call; the ghost
      `history` is every record in call order, `tags` their tags, and `Valid`
      ties each list to the history. Every record is stamped with the next
      reading of `clock` (`new Date()`); `ticks` counts the readings taken. */
  class DebugLog {
    const sessionStart: Timestamp
    const clock: nat -> Timestamp
    var ticks: nat
    var steps: seq<StepDetail>
    var decisions: seq<Decision>
    var experiments: seq<Experiment>
    var timeline: seq<TimelineEntry>
    ghost var history: seq<Entry>
    ghost var tags: seq<Tag>

    ghost predicate Valid()
      reads this
    {
      Consistent(history, steps, decisions, experiments, timeline, tags)
    }

    /** An empty log whose session starts at the first clock reading. */
    constructor (clock: nat -> Timestamp)
      ensures Valid() && history == [] && tags == []
      ensures sessionStart == clock(0) && this.clock == clock && ticks == 1
      ensures steps == [] && decisions == [] && experiments == [] && timeline == []
    {
      this.clock := clock;
      sessionStart := clock(0);
      ticks := 1;
      steps, decisions, experiments, timeline := [], [], [], [];
      history, tags := [], [];
    }

    /** Reads the clock (`new Date()`) without recording anything. */
    method Now() returns (t: Timestamp)
      modifies this
      ensures t == clock(old(ticks)) && ticks == old(ticks) + 1
      ensures history == old(history) && tags == old(tags)
      ensures steps == old(steps) && decisions == old(decisions)
      ensures experiments == old(experiments) && timeline == old(timeline)
    {
      t := clock(ticks);
      ticks := ticks + 1;
    }

    /** `logStepDetail(stepNumber, stepName, data)`. */
    method LogStepDetail(stepNumber: nat, stepName: string, data: Fields)
      returns (ghost e: Entry)
      requires Valid()
      modifies this
      ensures Valid() && ticks == old(ticks) + 1
      ensures e == StepEntry(StepDetail(stepNumber, stepName, clock(old(ticks)), data))
      ensures history == old(history) + [e]
      ensures tags == old(tags) + [StepTag(stepNumber, stepName)]
      ensures steps == old(steps) + [e.step]
      ensures decisions == old(decisions) && experiments == old(experiments)
      ensures timeline == old(timeline) + [Project(e)]
      ensures |timeline| == |steps| + |decisions| + |experiments|
    {
      var at := clock(ticks);
      ticks := ticks + 1;
      var detail := StepDetail(stepNumber, stepName, at, data);
      e := StepEntry(detail);
      RecordStep(history, steps, decisions, experiments, timeline, tags, detail);
      steps := steps + [detail];
      timeline := timeline + [Project(StepEntry(detail))];
      history := history + [e];
      tags := tags + [TagOf(e)];
    }

    /** `logDecision(context, options, selected, reasoning)`. */
    method LogDecision(context: string, options: seq<string>, selected: string, reasoning: string)
      returns (ghost e: Entry)
      requires Valid()
      modifies this
      ensures Valid() && ticks == old(ticks) + 1
      ensures e == DecisionEntry(Decision(clock(old(ticks)), context, options, selected, reasoning))
      ensures history == old(history) + [e]
      ensures tags == old(tags) + [DecisionTag(context, selected)]
      ensures decisions == old(decisions) + [e.decision]
      ensures steps == old(steps) && experiments == old(experiments)
      ensures timeline == old(timeline) + [Project(e)]
      ensures |timeline| == |steps| + |decisions| + |experiments|
    {
      var at := clock(ticks);
      ticks := ticks + 1;
      var decision := Decision(at, context, options, selected, reasoning);
      e := DecisionEntry(decision);
      RecordDecision(history, steps, decisions, experiments, timeline, tags, decision);
      decisions := decisions + [decision];
      timeline := timeline + [Project(DecisionEntry(decision))];
      history := history + [e];
      tags := tags + [TagOf(e)];
    }

    /** `logExperiment(type, input, output, analysis)`. */
    method LogExperiment(kind: string, input: Value, output: Value, analysis: string)
      returns (ghost e: Entry)
      requires Valid()
      modifies this
      ensures Valid() && ticks == old(ticks) + 1
      ensures e == ExperimentEntry(Experiment(clock(old(ticks)), kind, input, output, analysis))
      ensures history == old(history) + [e]
      ensures tags == old(tags) + [ExperimentTag(kind)]
      ensures experiments == old(experiments) + [e.experiment]
      ensures steps == old(steps) && decisions == old(decisions)
      ensures timeline == old(timeline) + [Project(e)]
      ensures |timeline| == |steps| + |decisions| + |experiments|
    {
      var at := clock(ticks);
      ticks := ticks + 1;
      var experiment := Experiment(at, kind, input, output, analysis);
      e := ExperimentEntry(experiment);
      RecordExperiment(history, steps, decisions, experiments, timeline, tags, experiment);
      experiments := experiments + [experiment];
      timeline := timeline + [Project(ExperimentEntry(experiment))];
      history := history + [e];
      tags := tags + [TagOf(e)];
    }
  }
}
