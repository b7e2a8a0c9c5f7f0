/** The step sequencer of the debugging workflow: seven steps run by index, the
    value each step returns decides the next index. `Next` is one turn of the
    loop in `DebugSession.start`; `Walk` and `Visits` replay a whole run from
    the sequence of values the steps returned. */
module Sequencer {

  /** Number of steps in the workflow (`steps.length`). */
  const StepCount: nat := 7

  /** What a step hands back to the loop: one of the strings the steps return
      ("exit", "back", "continue", "skip" or any other navigation answer), or `false`,
      which a step returns after it caught an error. */
  datatype StepResult = Signal(value: string) | False

  /** The loop's decision after a step returned. */
  datatype Move = Halt | MoveTo(index: nat)

  /** Registered back-edges, by step index: the root-cause confirmation step (index 3)
      goes back to the hypothesis step (index 1), the patch step (index 4) to the
      experiment step (index 3). */
  const BackEdges: map<nat, nat> := map[3 := 1, 4 := 3]

  /** Index the loop moves to when the step at index `i` returns "back". */
  function BackTarget(i: nat): (j: nat)
    ensures i == 0 <==> j == i
    ensures j <= i
    ensures i in BackEdges ==> j == BackEdges[i]
    ensures i !in BackEdges && i > 0 ==> j == i - 1
  {
    if i == 0 then 0 else if i in BackEdges then BackEdges[i] else i - 1
  }

  /** One turn of the loop, for a step index `i` that is still inside the workflow. */
  function Next(i: nat, r: StepResult): (m: Move)
    requires i < StepCount
    ensures m == Halt <==> r == Signal("exit")
    ensures r == Signal("back") ==> m == MoveTo(BackTarget(i))
    ensures r != Signal("back") && r != Signal("exit") ==> m == MoveTo(i + 1)
    ensures m.MoveTo? ==> m.index <= StepCount
  {
    match r
    case Signal(s) =>
      if s == "exit" then Halt
      else if s == "back" then MoveTo(BackTarget(i))
      else MoveTo(i + 1)   // "continue", "skip" and every other answer
    case False => MoveTo(i + 1)   // a step that failed is skipped
  }

  /** How a run ends: all seven steps done, the operator chose to exit at a step,
      or the step at `at` is still waiting for an answer. */
  datatype RunEnd = Completed | Exited(at: nat) | Pending(at: nat)

  /** The end of a run together with the number of step results it consumed. */
  datatype Run = Run(end: RunEnd, used: nat)

  /** Replays the loop from index `i` over the values the steps returned, in order. */
  function Walk(i: nat, rs: seq<StepResult>): (w: Run)
    requires i <= StepCount
    ensures w.used <= |rs|
    ensures w.end.Exited? ==> w.end.at < StepCount && w.used >= 1
    ensures w.end.Pending? ==> w.end.at < StepCount && w.used == |rs|
    decreases |rs|
  {
    if i == StepCount then Run(Completed, 0)
    else if rs == [] then Run(Pending(i), 0)
    else
      match Next(i, rs[0])
      case Halt => Run(Exited(i), 1)
      case MoveTo(j) =>
        var w := Walk(j, rs[1..]);
        Run(w.end, w.used + 1)
  }

  /** The index of the step that produced each consumed result, in order. */
  function Visits(i: nat, rs: seq<StepResult>): seq<nat>
    requires i <= StepCount
    decreases |rs|
  {
    if i == StepCount || rs == [] then []
    else
      match Next(i, rs[0])
      case Halt => [i]
      case MoveTo(j) => [i] + Visits(j, rs[1..])
  }

  /** A run visits one step per consumed result, every visited index is a step
      index, the first one is the starting index, and each move follows `Next`. */
  lemma {:induction false} VisitsShape(i: nat, rs: seq<StepResult>)
    requires i <= StepCount
    ensures |Visits(i, rs)| == Walk(i, rs).used
    ensures forall k :: 0 <= k < |Visits(i, rs)| ==> Visits(i, rs)[k] < StepCount
    ensures |Visits(i, rs)| > 0 ==> Visits(i, rs)[0] == i
    ensures forall k :: 0 <= k < |Visits(i, rs)| - 1 ==>
              Next(Visits(i, rs)[k], rs[k]) == MoveTo(Visits(i, rs)[k + 1])
    decreases |rs|
  {
    if i < StepCount && rs != [] && Next(i, rs[0]).MoveTo? {
      var j := Next(i, rs[0]).index;
      VisitsShape(j, rs[1..]);
      var v := Visits(i, rs);
      assert v == [i] + Visits(j, rs[1..]);
      forall k | 0 <= k < |v| - 1
        ensures Next(v[k], rs[k]) == MoveTo(v[k + 1])
      {
        if k > 0 {
          assert v[k] == Visits(j, rs[1..])[k - 1];
          assert rs[k] == rs[1..][k - 1];
        }
      }
    }
  }

  /** A completed run has visited at least as many steps as remained from the
      starting index. */
  lemma {:induction false} CompletesOnlyAtEnd(i: nat, rs: seq<StepResult>)
    requires i <= StepCount
    ensures Walk(i, rs).end == Completed ==> |Visits(i, rs)| >= StepCount - i
    decreases |rs|
  {
    if i < StepCount && rs != [] && Next(i, rs[0]).MoveTo? {
      var j := Next(i, rs[0]).index;
      CompletesOnlyAtEnd(j, rs[1..]);
    }
  }

  /** A result that neither exits nor goes back. */
  predicate Advances(r: StepResult)
  {
    r != Signal("exit") && r != Signal("back")
  }

  /** When no step exits or goes back, the run completes after exactly one result
      per remaining step (scenario: continue seven times). */
  lemma {:induction false} StraightRun(i: nat, rs: seq<StepResult>)
    requires i <= StepCount
    requires |rs| >= StepCount - i
    requires forall k :: 0 <= k < |rs| ==> Advances(rs[k])
    ensures Walk(i, rs) == Run(Completed, StepCount - i)
    ensures Visits(i, rs) == seq(StepCount - i, k requires 0 <= k < StepCount - i => i + k)
    decreases StepCount - i
  {
    if i < StepCount {
      assert Advances(rs[0]);
      StraightRun(i + 1, rs[1..]);
    }
  }

  /** Once a run has ended (completed or exited), later results are never consumed:
      no further step runs after "exit". */
  lemma {:induction false} EndedRunIgnoresRest(i: nat, rs: seq<StepResult>, more: seq<StepResult>)
    requires i <= StepCount
    requires !Walk(i, rs).end.Pending?
    ensures Walk(i, rs + more) == Walk(i, rs)
    ensures Visits(i, rs + more) == Visits(i, rs)
    decreases |rs|
  {
    if i < StepCount {
      assert (rs + more)[0] == rs[0];
      if Next(i, rs[0]).MoveTo? {
        assert (rs + more)[1..] == rs[1..] + more;
        EndedRunIgnoresRest(Next(i, rs[0]).index, rs[1..], more);
      }
    }
  }

  /** The only forward move is by one, so a step is reached only after every earlier
      step has run at least once: in particular the report step (index 6) never runs
      in a session the operator left at an earlier step before reaching index 6. */
  lemma {:induction false} ReachedAfterPredecessors(i: nat, rs: seq<StepResult>, k: nat, m: nat)
    requires i == 0
    requires k < |Visits(i, rs)|
    requires m < Visits(i, rs)[k]
    ensures m in Visits(i, rs)[..k]
  {
    var v := Visits(i, rs);
    VisitsShape(i, rs);
    PrefixCovers(v, rs, k);
  }

  /** Induction behind `ReachedAfterPredecessors`, on the position in the visit list. */
  lemma {:induction false} PrefixCovers(v: seq<nat>, rs: seq<StepResult>, k: nat)
    requires |v| <= |rs|
    requires forall n :: 0 <= n < |v| ==> v[n] < StepCount
    requires |v| > 0 ==> v[0] == 0
    requires forall n :: 0 <= n < |v| - 1 ==> Next(v[n], rs[n]) == MoveTo(v[n + 1])
    requires k < |v|
    ensures forall m :: 0 <= m < v[k] ==> m in v[..k]
    decreases k
  {
    if k > 0 {
      PrefixCovers(v, rs, k - 1);
      assert Next(v[k - 1], rs[k - 1]) == MoveTo(v[k]);
      forall m | 0 <= m < v[k] ensures m in v[..k] {
        assert v[..k] == v[..k - 1] + [v[k - 1]];
        if m < v[k - 1] {
          assert m in v[..k - 1];
        } else {
          assert m == v[k - 1];
        }
      }
    }
  }

  /** Scenario: a rejection at the root-cause confirmation step (index 3) resumes at
      the hypothesis step (index 1), and one at the patch step (index 4) resumes at
      the experiment step (index 3), however often the run has looped before. */
  lemma {:induction false} BackEdgesResume(rs: seq<StepResult>)
    ensures Walk(3, [Signal("back")] + rs) == Run(Walk(1, rs).end, Walk(1, rs).used + 1)
    ensures Walk(4, [Signal("back")] + rs) == Run(Walk(3, rs).end, Walk(3, rs).used + 1)
  {
    assert ([Signal("back")] + rs)[1..] == rs;
  }

  /** Scenario: "exit" at step 3 ends the run there, whatever the operator would
      have answered afterwards. */
  lemma {:induction false} ExitStops(i: nat, rs: seq<StepResult>)
    requires i < StepCount
    ensures Walk(i, [Signal("exit")] + rs) == Run(Exited(i), 1)
    ensures Visits(i, [Signal("exit")] + rs) == [i]
  {
    assert ([Signal("exit")] + rs)[0] == Signal("exit");
  }

  /** One more turn of the loop: a run pending at step `j` that gets one more result
      moves as `Next` says, and the step at `j` is the one more step visited. */
  lemma {:induction false} WalkExtend(i: nat, rs: seq<StepResult>, j: nat, r: StepResult)
    requires i <= StepCount && j < StepCount
    requires Walk(i, rs).end == Pending(j)
    ensures Walk(i, rs + [r]) == match Next(j, r)
                                 case Halt => Run(Exited(j), |rs| + 1)
                                 case MoveTo(k) => Run(if k == StepCount then Completed else Pending(k), |rs| + 1)
    ensures Visits(i, rs + [r]) == Visits(i, rs) + [j]
    decreases |rs|
  {
    if rs == [] {
      assert rs + [r] == [r];
      assert [r][1..] == [];
    } else {
      var k := Next(i, rs[0]).index;
      assert (rs + [r])[0] == rs[0];
      assert (rs + [r])[1..] == rs[1..] + [r];
      WalkExtend(k, rs[1..], j, r);
    }
  }
}
