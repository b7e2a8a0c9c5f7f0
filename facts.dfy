/** The facts a debugging session accumulates across steps (`sessionData`).
    Every fact but the bug report starts out unset; a step that is skipped,
    fails or is left before it writes leaves its fact unset. */
module Facts {
  import opened Optional
  import opened Json

  /** A candidate root cause as the diagnostic service returns it. */
  datatype Hypothesis = Hypothesis(description: string, evidence: string)

  datatype SessionData = SessionData(
    bugReport: Value,                          // loaded before the first step; an opaque payload
    mreConfirmed: Option<bool>,                // step 1
    selectedHypothesis: Option<Hypothesis>,    // step 2
    instrumentationPlan: Option<string>,       // step 3
    rootCauseConfirmed: Option<bool>,          // step 4
    patchApplied: Option<bool>)                // step 5

  /** The session state right after the bug report was loaded. */
  function Initial(bugReport: Value): (d: SessionData)
    ensures d.bugReport == bugReport
    ensures d.mreConfirmed == None && d.selectedHypothesis == None && d.instrumentationPlan == None
    ensures d.rootCauseConfirmed == None && d.patchApplied == None
  {
    SessionData(bugReport, None, None, None, None, None)
  }

  /** JavaScript truthiness of a boolean fact that may be unset. */
  predicate Holds(b: Option<bool>)
  {
    b == Some(true)
  }

  /** `sessionData.selectedHypothesis?.description || fallback`. */
  function DescriptionOr(h: Option<Hypothesis>, fallback: string): (r: string)
    ensures h.Some? && h.value.description != "" ==> r == h.value.description
    ensures !(h.Some? && h.value.description != "") ==> r == fallback
  {
    if h.Some? && h.value.description != "" then h.value.description else fallback
  }

  /** The selected hypothesis as the front end holds it: `undefined` when none
      was selected, otherwise an object with its description and evidence. */
  function HypothesisValue(h: Option<Hypothesis>): Value
  {
    if h.None? then Undefined
    else Obj([("description", Str(h.value.description)), ("evidence", Str(h.value.evidence))])
  }

  /** `DescriptionOr` is the JavaScript reading `selectedHypothesis?.description ||
      fallback`: optional access, then `||` with the fallback string. */
  lemma DescriptionOrIsJsReading(h: Option<Hypothesis>, fallback: string)
    ensures Or(Get(HypothesisValue(h), "description"), Str(fallback)) == Str(DescriptionOr(h, fallback))
  {
  }
}
