/** Capacity reserved when an execution is admitted and when an activity is exposed is enough later. */
module Reservation {
  import opened Basics
  import opened Identity
  import opened CheckpointJson
  import opened Checkpoint
  import opened Workflow
  import opened Replay
  import opened Store
  import opened Host

  predicate AtLeast(a: CheckpointLimits, b: CheckpointLimits)
  {
    a.maxActivityRecords >= b.maxActivityRecords && a.maxEncodedBytes >= b.maxEncodedBytes
  }

  predicate IsExposed(p: CheckpointPayload)
  {
    p.state.Active? && p.state.activities != []
    && p.state.activities[|p.state.activities| - 1].state.DispatchExposed?
  }

  /** The payload is within the limits, and so is the completion of its exposed activity. */
  predicate Fits(p: CheckpointPayload, limits: CheckpointLimits)
  {
    && EncodeWithLimits(p, limits).Ok?
    && (IsExposed(p) ==>
          && MaximumActivityCompletedEncodedLen(p).Ok?
          && MaximumActivityCompletedEncodedLen(p).value <= limits.maxEncodedBytes)
  }

  // ---------------------------------------------------------------- what is reserved

  lemma {:induction false} LargerLimitsStillValidate(p: CheckpointPayload, small: CheckpointLimits,
                                                     large: CheckpointLimits)
    requires EncodeWithLimits(p, small).Ok? && AtLeast(large, small)
    ensures EncodeWithLimits(p, large).Ok?
  {
  }

  lemma {:induction false} FittingStaysLoadable(p: CheckpointPayload, small: CheckpointLimits, large: CheckpointLimits)
    requires Fits(p, small) && AtLeast(large, small)
    ensures DecodeAndValidate(CheckpointEnvelope(FORMAT_VERSION, p), p.execution.spec, large) == Ok(p)
  {
    LargerLimitsStillValidate(p, small, large);
  }

  lemma {:induction false} ReservationIgnoresFinalState(p: CheckpointPayload, state: ActivityState)
    requires p.state.Active? && p.state.activities != []
    ensures MaximumActivityCompletedEncodedLen(p.(state := Active(WithFinalState(p.state.activities, state))))
         == MaximumActivityCompletedEncodedLen(p)
  {
    var replaced := WithFinalState(p.state.activities, state);
    assert WithFinalState(replaced, Completed([])) == WithFinalState(p.state.activities, Completed([]));
  }

  lemma {:induction false} CompletedHistoryIsLinear(activities: seq<ActivityRecord>, result: Bytes)
    requires LinearHistory(activities) && activities != []
    requires |result| <= activities[|activities| - 1].spec.maxResultBytes
    ensures LinearHistory(WithFinalState(activities, Completed(result)))
  {
  }

  /** Completing an exposed activity with any in-bound result stays within the limits it was exposed
      under, and so within any larger ones. */
  lemma {:induction false} CompletionFits(p: CheckpointPayload, small: CheckpointLimits, large: CheckpointLimits,
                                          result: Bytes)
    requires Fits(p, small) && IsExposed(p) && AtLeast(large, small)
    requires |result| <= p.state.activities[|p.state.activities| - 1].spec.maxResultBytes
    ensures EncodeWithLimits(p.(state := Active(WithFinalState(p.state.activities, Completed(result)))), large).Ok?
  {
    var done := WithFinalState(p.state.activities, Completed(result));
    ActivityProjectionCovers(p, result);
    AcceptedHistoriesAreLinear(p.state.activities);
    CompletedHistoryIsLinear(p.state.activities, result);
    AcceptedHistoriesAreLinear(done);
  }

  /** An exposed activity's in-bound result is recorded by every host with limits at least as large. */
  lemma {:induction false} ExposedResultFits(config: HostConfig, stored: StoredCheckpoint,
                                             exposedUnder: CheckpointLimits, result: Bytes)
    requires var p := stored.checkpoint.payload;
             && stored.checkpoint.formatVersion == FORMAT_VERSION
             && Fits(p, exposedUnder) && IsExposed(p) && AtLeast(config.limits, exposedUnder)
             && |result| <= p.state.activities[|p.state.activities| - 1].spec.maxResultBytes
    ensures var p := stored.checkpoint.payload;
            var activity := p.state.activities[|p.state.activities| - 1].LogicalId(p.execution.spec.executionId);
            PlanObserve(config, p.execution.spec, activity, result, Some(stored)).Propose?
  {
    var p := stored.checkpoint.payload;
    FittingStaysLoadable(p, exposedUnder, config.limits);
    CompletionFits(p, exposedUnder, config.limits, result);
  }

  /** A host that can load an execution can persist every in-bound outcome of it,
      success or failure, at every completed count. */
  lemma {:induction false} LoadableMeansCompletable(p: CheckpointPayload, limits: CheckpointLimits,
                                                    outcome: TerminalOutcome, count: U64)
    requires InternalError(p, limits).None?
    requires |outcome.payload| <= p.execution.spec.maxTerminalPayloadBytes
    ensures EncodeWithLimits(CheckpointPayload(p.execution, Terminal(outcome, count)), limits).Ok?
  {
    TerminalProjectionCovers(p.execution, outcome, count);
  }

  /** Finishing a loadable execution with an in-bound outcome is never refused ... */
  lemma {:induction false} InBoundCompletionIsProposed(config: HostConfig, execution: ExecutionSpec,
                                                       expected: Option<StorageRevision>, outcome: TerminalOutcome,
                                                       count: U64, c: CheckpointEnvelope, boundary: PersistenceBoundary,
                                                       observed: Option<Bytes>)
    requires DecodeAndValidate(c, execution, config.limits).Ok? && c.payload.state.Active?
    ensures PlanCompletion(config, execution, expected, outcome, count, c, boundary, observed).Propose?
       <==> |outcome.payload| <= execution.maxTerminalPayloadBytes
  {
    if |outcome.payload| <= execution.maxTerminalPayloadBytes {
      LoadableMeansCompletable(c.payload, config.limits, outcome, count);
    }
  }

  /** ... and neither is a run without activities, from absence: admission alone is enough. */
  lemma {:induction false} AdmissionMeansCompletable(config: HostConfig, execution: ExecutionSpec,
                                                     outcome: TerminalOutcome, count: U64)
    requires StartingPayload(execution, None, config.limits).Ok?
    requires |outcome.payload| <= execution.maxTerminalPayloadBytes
    ensures EncodeWithLimits(CheckpointPayload(EmptyPayload(execution, config.limits).execution,
                                               Terminal(outcome, count)),
                             config.limits).Ok?
  {
    LoadableMeansCompletable(EmptyPayload(execution, config.limits), config.limits, outcome, count);
  }

  // ---------------------------------------------------------------- every write fits

  lemma {:induction false} UnexposedFits(p: CheckpointPayload, limits: CheckpointLimits)
    requires EncodeWithLimits(p, limits).Ok? && !IsExposed(p)
    ensures Fits(p, limits)
  {
  }

  lemma {:induction false} ClassifiedFits(spec: ExecutionSpec, payload: CheckpointPayload, driven: Driven,
                                          limits: CheckpointLimits)
    requires payload.state.Active? && driven.cursor <= |payload.state.activities| <= U64_MAX
    ensures match Classify(spec, payload, driven, limits)
            case EvalScheduled(_, c) => Fits(c.payload, limits) && c.formatVersion == FORMAT_VERSION
            case _ => true
  {
    var e := Classify(spec, payload, driven, limits);
    if e.EvalScheduled? {
      var grown := e.checkpoint.payload;
      assert EncodeWithLimits(grown, limits).Ok?;
      assert grown.state.activities[|grown.state.activities| - 1].state == Scheduled;
      UnexposedFits(grown, limits);
    }
  }

  lemma {:induction false} EvaluatedFits(body: Body, spec: ExecutionSpec, checkpoint: Option<CheckpointEnvelope>,
                                         limits: CheckpointLimits)
    ensures match Evaluate(body, spec, checkpoint, limits)
            case EvalScheduled(_, c) => Fits(c.payload, limits) && c.formatVersion == FORMAT_VERSION
            case _ => true
  {
    var start := StartingPayload(spec, checkpoint, limits);
    if start.Ok? && start.value.state.Active? {
      ClassifiedFits(spec, start.value, Drive(body, spec, start.value.state.activities, 0), limits);
    }
  }

  lemma {:induction false} ExposureFits(config: HostConfig, execution: ExecutionSpec, expected: Option<StorageRevision>,
                                        c: CheckpointEnvelope, activity: LogicalActivityId,
                                        boundary: PersistenceBoundary, observed: Option<Bytes>, counter: AttemptCounter)
    ensures WriteFits(config, PlanExposure(config, execution, expected, c, activity, boundary, observed, counter).plan)
  {
    if PlanExposure(config, execution, expected, c, activity, boundary, observed, counter).plan.Propose? {
      ReservationIgnoresFinalState(c.payload, DispatchExposed(AttemptId(config.hostEpoch, counter)));
    }
  }

  predicate WriteFits(config: HostConfig, plan: Plan)
  {
    plan.Propose? ==>
      && plan.proposal.limits == config.limits
      && plan.proposal.checkpoint.formatVersion == FORMAT_VERSION
      && Fits(plan.proposal.checkpoint.payload, plan.proposal.limits)
  }

  lemma {:induction false} CompletionWriteFits(config: HostConfig, execution: ExecutionSpec,
                                               expected: Option<StorageRevision>, outcome: TerminalOutcome, count: U64,
                                               c: CheckpointEnvelope, boundary: PersistenceBoundary,
                                               observed: Option<Bytes>)
    ensures WriteFits(config, PlanCompletion(config, execution, expected, outcome, count, c, boundary, observed))
  {
  }

  lemma {:induction false} ActingFits(config: HostConfig, execution: ExecutionSpec, fused: bool,
                                      loaded: Option<StoredCheckpoint>, e: Evaluation, counter: AttemptCounter)
    requires e.EvalScheduled? ==>
               Fits(e.checkpoint.payload, config.limits) && e.checkpoint.formatVersion == FORMAT_VERSION
    ensures WriteFits(config, ActOn(config, execution, fused, loaded, e, counter).plan)
  {
    var boundary := if fused then ScheduleExposure else Exposure;
    match e
    case EvalScheduled(activity, c) =>
      ExposureFits(config, execution, RevisionOf(loaded), c, activity, boundary, None, counter);
    case EvalPending(activity, _) =>
      if loaded.Some? {
        ExposureFits(config, execution, RevisionOf(loaded), loaded.value.checkpoint, activity, boundary, None, counter);
      }
    case EvalComplete(outcome, count, c) =>
      CompletionWriteFits(config, execution, RevisionOf(loaded), outcome, count, c, Completion, None);
    case EvalTerminal(_, _) =>
    case EvalNondeterminism(_) =>
    case EvalRejected(_) =>
    case EvalStalled =>
  }

  lemma {:induction false} ProgressFits(config: HostConfig, execution: ExecutionSpec, result: Bytes,
                                        stored: StoredCheckpoint, e: Evaluation, counter: AttemptCounter)
    ensures WriteFits(config, ProgressOn(config, execution, result, stored, e, counter).plan)
  {
    match e
    case EvalScheduled(next, c) =>
      ExposureFits(config, execution, Some(stored.revision), c, next, ObservationProgression, Some(result), counter);
    case EvalComplete(outcome, count, c) =>
      CompletionWriteFits(config, execution, Some(stored.revision), outcome, count, c,
                          ObservationProgression, Some(result));
    case EvalPending(_, _) =>
    case EvalTerminal(_, _) =>
    case EvalNondeterminism(_) =>
    case EvalRejected(_) =>
    case EvalStalled =>
  }

  lemma {:induction false} ObservationFits(config: HostConfig, execution: ExecutionSpec, activity: LogicalActivityId,
                                           result: Bytes, loaded: Option<StoredCheckpoint>)
    ensures WriteFits(config, PlanObserve(config, execution, activity, result, loaded))
  {
  }

  /** Every write a host proposes fits its own limits, with room for the activity it exposes. */
  lemma {:induction false} EveryWriteFits(config: HostConfig, body: Body, op: Operation,
                                          loaded: Option<StoredCheckpoint>, counter: AttemptCounter)
    ensures WriteFits(config, PlanOperation(config, body, op, loaded, counter).plan)
  {
    match op
    case Turn(execution) => TurnFits(config, body, execution, false, loaded, counter);
    case TurnAndExpose(execution) => TurnFits(config, body, execution, true, loaded, counter);
    case Observe(execution, activity, result) => ObservationFits(config, execution, activity, result, loaded);
    case ObserveAndTurn(execution, activity, result) =>
      var recorded := Observed(config, execution, activity, result, loaded);
      if recorded.Ok? {
        ProgressFits(config, execution, result, loaded.value,
                     Evaluate(body, execution, Some(recorded.value), config.limits), counter);
      }
  }

  lemma {:induction false} TurnFits(config: HostConfig, body: Body, execution: ExecutionSpec, fused: bool,
                                    loaded: Option<StoredCheckpoint>, counter: AttemptCounter)
    ensures WriteFits(config, PlanTurn(config, body, execution, fused, loaded, counter).plan)
  {
    EvaluatedFits(body, execution, CheckpointOf(loaded), config.limits);
    ActingFits(config, execution, fused, loaded,
               Evaluate(body, execution, CheckpointOf(loaded), config.limits), counter);
  }
}
