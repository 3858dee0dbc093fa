/** One deterministic replay turn, and the direct sequential run it must agree with. */
module Replay {
  import opened Basics
  import opened Identity
  import opened CheckpointJson
  import opened Checkpoint
  import opened Workflow

  // ---------------------------------------------------------------- the direct run

  /** A workflow executed directly, with no checkpoint: it has made `calls`, and then stopped. */
  datatype DirectRun =
    | Waiting(calls: seq<ActivitySpec>)
    | Finished(calls: seq<ActivitySpec>, outcome: TerminalOutcome)
    | Stuck(calls: seq<ActivitySpec>)

  /** Runs the body from the point where it has already made `calls` and seen the first `|calls|`
      of `results`; the last call of a waiting run is the one whose result is still missing. */
  function RunFrom(body: Body, spec: ExecutionSpec, calls: seq<ActivitySpec>, results: seq<Bytes>): DirectRun
    requires |calls| <= |results|
    decreases |results| - |calls|
  {
    match body(spec.executionId, spec.workflowInput, results[..|calls|])
    case Finish(outcome) => Finished(calls, outcome)
    case Suspend => Stuck(calls)
    case Call(next) =>
      if |calls| == |results| then Waiting(calls + [next])
      else RunFrom(body, spec, calls + [next], results)
  }

  function Direct(body: Body, spec: ExecutionSpec, results: seq<Bytes>): DirectRun
  {
    RunFrom(body, spec, [], results)
  }

  // ---------------------------------------------------------------- replay

  datatype Evaluation =
    | EvalScheduled(activity: LogicalActivityId, checkpoint: CheckpointEnvelope)
    | EvalPending(activity: LogicalActivityId, state: ActivityState)
    | EvalComplete(outcome: TerminalOutcome, count: U64, checkpoint: CheckpointEnvelope)
    | EvalTerminal(outcome: TerminalOutcome, count: U64)
    | EvalNondeterminism(error: Nondeterminism)
    | EvalRejected(reason: CheckpointError)
    | EvalStalled

  predicate AllCompleted(history: seq<ActivityRecord>)
  {
    forall i :: 0 <= i < |history| ==> history[i].state.Completed?
  }

  function Results(history: seq<ActivityRecord>): (r: seq<Bytes>)
    requires AllCompleted(history)
    ensures |r| == |history|
  {
    seq(|history|, i requires 0 <= i < |history| => history[i].state.result)
  }

  /** How polling the body over the history ends: a decision, a final outcome, or neither. */
  datatype Driven = Driven(cursor: nat, decision: Option<ContextDecision>, outcome: Option<TerminalOutcome>)

  function Drive(body: Body, spec: ExecutionSpec, history: seq<ActivityRecord>, cursor: nat): (r: Driven)
    ensures r.cursor <= |history|
    requires cursor <= |history| <= U64_MAX && AllCompleted(history[..cursor])
    decreases |history| - cursor
  {
    match body(spec.executionId, spec.workflowInput, Results(history[..cursor]))
    case Finish(outcome) => Driven(cursor, None, Some(outcome))
    case Suspend => Driven(cursor, None, None)
    case Call(next) =>
      var polled := PollSpec(history, cursor, None, next);
      if polled.poll.Ready? then
        assert history[..cursor + 1] == history[..cursor] + [history[cursor]];
        Drive(body, spec, history, cursor + 1)
      else Driven(cursor, polled.decision, None)
  }

  function EmptyPayload(spec: ExecutionSpec, limits: CheckpointLimits): CheckpointPayload
  {
    CheckpointPayload(ExecutionContract(spec, limits.maxEncodedBytes), Active([]))
  }

  /** The payload a turn starts from: the stored one, or a fresh history admitted at full capacity. */
  function StartingPayload(spec: ExecutionSpec, checkpoint: Option<CheckpointEnvelope>,
                           limits: CheckpointLimits):
    (r: Result<CheckpointPayload, CheckpointError>)
    ensures r.Ok? ==> r.value.execution.spec == spec && InternalError(r.value, limits).None?
  {
    match checkpoint
    case Some(envelope) => DecodeAndValidate(envelope, spec, limits)
    case None =>
      var invalid := ValidationError(EmptyPayload(spec, limits), spec, limits);
      if invalid.Some? then Err(invalid.value) else Ok(EmptyPayload(spec, limits))
  }

  function Classify(spec: ExecutionSpec, payload: CheckpointPayload, driven: Driven,
                    limits: CheckpointLimits): Evaluation
    requires payload.state.Active? && driven.cursor <= |payload.state.activities| <= U64_MAX
  {
    var history := payload.state.activities;
    match driven.decision
    case Some(Schedule(sequence, next)) =>
      var grown := payload.(state := Active(history + [ActivityRecord(sequence, next, Scheduled)]));
      var encoded := EncodeWithLimits(grown, limits);
      if encoded.Err? then EvalRejected(encoded.error)
      else EvalScheduled(LogicalActivityId(spec.executionId, sequence, next), encoded.value)
    case Some(ExistingPending(position, next, state)) =>
      EvalPending(LogicalActivityId(spec.executionId, position, next), state)
    case Some(Divergence(error)) => EvalNondeterminism(error)
    case None =>
      match driven.outcome
      case None => EvalStalled
      case Some(outcome) =>
        if driven.cursor != |history|
        then EvalNondeterminism(UnusedHistory(driven.cursor, |history| - driven.cursor))
        else
          var encoded := EncodeWithLimits(payload, limits);
          if encoded.Err? then EvalRejected(encoded.error)
          else EvalComplete(outcome, driven.cursor, encoded.value)
  }

  function Evaluate(body: Body, spec: ExecutionSpec, checkpoint: Option<CheckpointEnvelope>,
                    limits: CheckpointLimits): Evaluation
  {
    var start := StartingPayload(spec, checkpoint, limits);
    if start.Err? then EvalRejected(start.error)
    else
      var payload := start.value;
      match payload.state
      case Terminal(outcome, count) => EvalTerminal(outcome, count)
      case Active(history) => Classify(spec, payload, Drive(body, spec, history, 0), limits)
  }

  /** Polls the body once: each completed record feeds it a result, until it stops. */
  method PollBody(body: Body, spec: ExecutionSpec, history: seq<ActivityRecord>) returns (driven: Driven)
    requires |history| <= U64_MAX
    ensures driven == Drive(body, spec, history, 0)
  {
    var context := new WorkflowContext(spec.executionId, history);
    var results, outcome, running := [], None, true;
    assert history[..0] == [];
    while running
      invariant context.Valid() && context.history == history && fresh(context)
      invariant AllCompleted(history[..context.cursor]) && results == Results(history[..context.cursor])
      invariant running ==> context.decision == None && outcome == None
      invariant Drive(body, spec, history, 0)
             == if running then Drive(body, spec, history, context.cursor)
                else Driven(context.cursor, context.decision, outcome)
      decreases running, |history| - context.cursor
    {
      ghost var before := context.cursor;
      match body(spec.executionId, spec.workflowInput, results) {
        case Finish(o) =>
          outcome, running := Some(o), false;
        case Suspend =>
          running := false;
        case Call(next) =>
          var poll := context.PollActivity(next);
          if poll.Ready? {
            assert history[..before + 1] == history[..before] + [history[before]];
            results := results + [poll.result];
          } else {
            running := false;
          }
      }
    }
    driven := Driven(context.cursor, context.decision, outcome);
  }

  /** Validates the checkpoint, then polls the body once over it. */
  method EvaluateTurn(body: Body, spec: ExecutionSpec, checkpoint: Option<CheckpointEnvelope>,
                      limits: CheckpointLimits) returns (evaluation: Evaluation)
    ensures evaluation == Evaluate(body, spec, checkpoint, limits)
  {
    var start := StartingPayload(spec, checkpoint, limits);
    if start.Err? {
      return EvalRejected(start.error);
    }
    var payload := start.value;
    match payload.state {
      case Terminal(outcome, count) =>
        return EvalTerminal(outcome, count);
      case Active(history) =>
        var driven := PollBody(body, spec, history);
        return Classify(spec, payload, driven, limits);
    }
  }

  // ---------------------------------------------------------------- replay agrees with the direct run

  function Specs(history: seq<ActivityRecord>): (s: seq<ActivitySpec>)
    ensures |s| == |history|
  {
    seq(|history|, i requires 0 <= i < |history| => history[i].spec)
  }

  predicate HasPending(history: seq<ActivityRecord>)
  {
    history != [] && !history[|history| - 1].state.Completed?
  }

  /** The completed part of a linear history. */
  function Settled(history: seq<ActivityRecord>): seq<ActivityRecord>
  {
    if HasPending(history) then history[..|history| - 1] else history
  }

  /** The state is where a direct run of the body stands after exactly the observed results. */
  ghost predicate Agrees(body: Body, spec: ExecutionSpec, state: CheckpointState, observed: seq<Bytes>)
  {
    var run := Direct(body, spec, observed);
    match state
    case Active(history) =>
      && LinearHistory(history)
      && AllCompleted(Settled(history))
      && observed == Results(Settled(history))
      && |history| <= |run.calls| && run.calls[..|history|] == Specs(history)
    case Terminal(outcome, count) =>
      run.Finished? && run.outcome == outcome && |run.calls| == |observed| == count
  }

  lemma {:induction false} RunKeepsCalls(body: Body, spec: ExecutionSpec, calls: seq<ActivitySpec>, results: seq<Bytes>)
    requires |calls| <= |results|
    ensures var run := RunFrom(body, spec, calls, results);
            && |calls| <= |run.calls| && run.calls[..|calls|] == calls
            && (run.Waiting? <==> |run.calls| == |results| + 1) && |run.calls| <= |results| + 1
    decreases |results| - |calls|
  {
    match body(spec.executionId, spec.workflowInput, results[..|calls|])
    case Finish(_) =>
    case Suspend =>
    case Call(next) =>
      if |calls| < |results| {
        RunKeepsCalls(body, spec, calls + [next], results);
        var all := RunFrom(body, spec, calls, results).calls;
        assert all[..|calls|] == all[..|calls| + 1][..|calls|];
      }
  }

  /** One more observed result lets a waiting run continue from the call it was waiting for. */
  lemma {:induction false} RunResumes(body: Body, spec: ExecutionSpec, calls: seq<ActivitySpec>,
                                      results: seq<Bytes>, result: Bytes)
    requires |calls| <= |results| && RunFrom(body, spec, calls, results).Waiting?
    ensures var waiting := RunFrom(body, spec, calls, results).calls;
            && |waiting| == |results| + 1
            && RunFrom(body, spec, calls, results + [result]) == RunFrom(body, spec, waiting, results + [result])
    decreases |results| - |calls|
  {
    RunKeepsCalls(body, spec, calls, results);
    assert (results + [result])[..|calls|] == results[..|calls|];
    match body(spec.executionId, spec.workflowInput, results[..|calls|])
    case Finish(_) =>
    case Suspend =>
    case Call(next) =>
      if |calls| < |results| { RunResumes(body, spec, calls + [next], results, result); }
  }

  /** What replaying an agreeing history must find, read off the direct run. */
  function ExpectedDrive(history: seq<ActivityRecord>, run: DirectRun): Driven
    requires |history| <= |run.calls| && |history| <= U64_MAX
  {
    var n := |history|;
    if HasPending(history) then
      Driven(n - 1, Some(ExistingPending(n - 1, history[n - 1].spec, history[n - 1].state)), None)
    else match run
      case Finished(_, outcome) => Driven(n, None, Some(outcome))
      case Stuck(_) => Driven(n, None, None)
      case Waiting(calls) =>
        if n < |calls| then Driven(n, Some(Schedule(n, calls[n])), None) else Driven(n, None, None)
  }

  lemma {:induction false} DriveFollowsRun(body: Body, spec: ExecutionSpec, history: seq<ActivityRecord>,
                                           observed: seq<Bytes>, cursor: nat)
    requires |history| <= U64_MAX && Agrees(body, spec, Active(history), observed)
    requires cursor <= |Settled(history)|
    requires RunFrom(body, spec, Specs(history)[..cursor], observed) == Direct(body, spec, observed)
    ensures AllCompleted(history[..cursor])
    ensures Drive(body, spec, history, cursor) == ExpectedDrive(history, Direct(body, spec, observed))
    decreases |history| - cursor
  {
    var run := Direct(body, spec, observed);
    var calls := Specs(history)[..cursor];
    assert history[..cursor] == Settled(history)[..cursor];
    assert Results(history[..cursor]) == observed[..cursor];
    RunKeepsCalls(body, spec, calls, observed);
    match body(spec.executionId, spec.workflowInput, observed[..cursor])
    case Finish(_) =>
    case Suspend =>
    case Call(next) =>
      if cursor < |observed| { RunKeepsCalls(body, spec, calls + [next], observed); }
      assert run.calls[cursor] == next;
      if cursor < |history| {
        assert Specs(history)[cursor] == run.calls[..|history|][cursor];
        if history[cursor].state.Completed? {
          assert Specs(history)[..cursor + 1] == calls + [next];
          DriveFollowsRun(body, spec, history, observed, cursor + 1);
        }
      }
  }

  /** Replaying an agreeing history neither diverges nor leaves records unused: it stops
      exactly where the direct run stands. */
  lemma {:induction false} ReplayFindsDirectRun(body: Body, spec: ExecutionSpec, history: seq<ActivityRecord>,
                                                observed: seq<Bytes>)
    requires |history| <= U64_MAX && Agrees(body, spec, Active(history), observed)
    ensures Drive(body, spec, history, 0) == ExpectedDrive(history, Direct(body, spec, observed))
  {
    assert Specs(history)[..0] == [];
    DriveFollowsRun(body, spec, history, observed, 0);
  }
}
