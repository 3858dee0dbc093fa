/** The durable host: one replay turn or observation between a load and a compare-and-swap. */
module Host {
  import opened Basics
  import opened Identity
  import opened CheckpointJson
  import opened Checkpoint
  import opened Workflow
  import opened Replay
  import opened Store

  datatype PersistenceBoundary =
    Schedule | Exposure | ScheduleExposure | Observation | ObservationProgression | Completion

  datatype ReloadReason = ReloadConflict | ReloadOutcomeUnknown

  datatype StoreOperation = LoadOperation | CasOperation(boundary: PersistenceBoundary)

  datatype ObservationRejection =
    | CheckpointMissing
    | ActivityNotExposed
    | LogicalActivityMismatch(expected: LogicalActivityId, observed: LogicalActivityId)
    | ResultExceedsDeclaredBound(actual: nat, maximum: U64)

  datatype DispatchPermit = DispatchPermit(activity: LogicalActivityId, attempt: AttemptId)

  datatype HostOutcome =
    | ScheduleAccepted(activity: LogicalActivityId, revision: StorageRevision)
    | DispatchPermitted(permit: DispatchPermit, revision: StorageRevision, boundary: PersistenceBoundary)
    | ObservationAccepted(activity: LogicalActivityId, revision: StorageRevision)
    | WorkflowCompleted(outcome: TerminalOutcome, revision: StorageRevision, boundary: PersistenceBoundary)
    | Quarantined(activity: LogicalActivityId, attempt: AttemptId)
    | NondeterminismFound(nondeterminism: Nondeterminism)
    | CheckpointRejected(error: CheckpointError)
    | ObservationRejected(rejection: ObservationRejection)
    | ReloadRequired(boundary: PersistenceBoundary, reason: ReloadReason)
    | StoreFailed(operation: StoreOperation, kind: StoreErrorKind)

  /** What an accepted write will be reported as. */
  datatype Purpose =
    | ToSchedule(activity: LogicalActivityId)
    | ToExpose(permit: DispatchPermit)
    | ToObserve(activity: LogicalActivityId)
    | ToComplete(outcome: TerminalOutcome)

  /** A host suspended at its compare-and-swap. `observed` is the result the write records, if any,
      and `limits` are the limits of the host that proposes it. */
  datatype Proposal = Proposal(
    executionId: Id16,
    expected: Option<StorageRevision>,
    checkpoint: CheckpointEnvelope,
    purpose: Purpose,
    boundary: PersistenceBoundary,
    observed: Option<Bytes>,
    limits: CheckpointLimits)

  /** The part of an operation between its load and its compare-and-swap. */
  datatype Plan = Settle(outcome: HostOutcome) | Propose(proposal: Proposal)

  /** What a host is configured with: limits and the identity its attempts carry. */
  datatype HostConfig = HostConfig(hostEpoch: Id16, limits: CheckpointLimits)

  /** A plan, and the attempt counter it leaves behind. */
  datatype Planned = Planned(plan: Plan, counter: nat)

  datatype Operation =
    | Turn(execution: ExecutionSpec)
    | TurnAndExpose(execution: ExecutionSpec)
    | Observe(execution: ExecutionSpec, activity: LogicalActivityId, result: Bytes)
    | ObserveAndTurn(execution: ExecutionSpec, activity: LogicalActivityId, result: Bytes)

  type AttemptCounter = n: int | 1 <= n <= U64_MAX witness 1

  // ---------------------------------------------------------------- specification of the plans

  /** An exposure attempt, and the attempt counter it leaves behind. */
  datatype Exposed = Exposed(checkpoint: Result<CheckpointEnvelope, CheckpointError>, counter: nat)

  /** The exposed form of a checkpoint whose final record is pending, if its result can be reserved. */
  function ExposureOf(config: HostConfig, execution: ExecutionSpec, c: CheckpointEnvelope,
                      counter: AttemptCounter): Exposed
  {
    var decoded := DecodeAndValidate(c, execution, config.limits);
    if decoded.Err? then Exposed(Err(decoded.error), counter)
    else
      var reserved := MaximumActivityCompletedEncodedLen(decoded.value);
      if reserved.Err? then Exposed(Err(reserved.error), counter)
      else if reserved.value > config.limits.maxEncodedBytes
      then Exposed(Err(EncodedCheckpointLimitExceeded(reserved.value, config.limits.maxEncodedBytes)), counter)
      else
        var history := WithFinalState(decoded.value.state.activities,
                                      DispatchExposed(AttemptId(config.hostEpoch, counter)));
        Exposed(EncodeWithLimits(decoded.value.(state := Active(history)), config.limits), counter + 1)
  }

  function PlanExposure(config: HostConfig, execution: ExecutionSpec, expected: Option<StorageRevision>,
                        c: CheckpointEnvelope, activity: LogicalActivityId, boundary: PersistenceBoundary,
                        observed: Option<Bytes>, counter: AttemptCounter): Planned
  {
    var exposed := ExposureOf(config, execution, c, counter);
    if exposed.checkpoint.Err? then Planned(Settle(CheckpointRejected(exposed.checkpoint.error)), exposed.counter)
    else Planned(Propose(Proposal(execution.executionId, expected, exposed.checkpoint.value,
                   ToExpose(DispatchPermit(activity, AttemptId(config.hostEpoch, counter))), boundary, observed,
                   config.limits)),
                 exposed.counter)
  }

  function PlanCompletion(config: HostConfig, execution: ExecutionSpec, expected: Option<StorageRevision>,
                          outcome: TerminalOutcome, count: U64, active: CheckpointEnvelope,
                          boundary: PersistenceBoundary, observed: Option<Bytes>): Plan
  {
    var decoded := DecodeAndValidate(active, execution, config.limits);
    if decoded.Err? then Settle(CheckpointRejected(decoded.error)) else
    var terminal := IntoTerminal(decoded.value, outcome, count);
    if terminal.Err? then Settle(CheckpointRejected(terminal.error)) else
    var encoded := EncodeWithLimits(terminal.value, config.limits);
    if encoded.Err? then Settle(CheckpointRejected(encoded.error)) else
    Propose(Proposal(execution.executionId, expected, encoded.value, ToComplete(outcome), boundary, observed,
                     config.limits))
  }

  /** What a host can answer from the loaded checkpoint alone, before polling the workflow. */
  function Shortcut(config: HostConfig, execution: ExecutionSpec, stored: StoredCheckpoint): Option<HostOutcome>
  {
    var decoded := DecodeAndValidate(stored.checkpoint, execution, config.limits);
    if decoded.Err? then Some(CheckpointRejected(decoded.error))
    else match decoded.value.state
      case Terminal(outcome, _) => Some(WorkflowCompleted(outcome, stored.revision, Completion))
      case Active(history) =>
        if history != [] && history[|history| - 1].state.DispatchExposed? then
          Some(Quarantined(history[|history| - 1].LogicalId(execution.executionId),
                           history[|history| - 1].state.attempt))
        else None
  }

  function CheckpointOf(loaded: Option<StoredCheckpoint>): Option<CheckpointEnvelope>
  {
    match loaded
    case None => None
    case Some(stored) => Some(stored.checkpoint)
  }

  /** What a turn does with its evaluation. */
  function ActOn(config: HostConfig, execution: ExecutionSpec, fused: bool, loaded: Option<StoredCheckpoint>,
                 evaluation: Evaluation, counter: AttemptCounter): Planned
  {
    var boundary := if fused then ScheduleExposure else Exposure;
    match evaluation
    case EvalScheduled(activity, c) =>
      if fused then PlanExposure(config, execution, RevisionOf(loaded), c, activity, boundary, None, counter)
      else
        Planned(Propose(Proposal(execution.executionId, RevisionOf(loaded), c, ToSchedule(activity),
                                 PersistenceBoundary.Schedule, None, config.limits)), counter)
    case EvalPending(activity, state) =>
      if state.DispatchExposed? then Planned(Settle(Quarantined(activity, state.attempt)), counter)
      else if loaded.None? then Planned(Settle(NondeterminismFound(UnsupportedSuspension)), counter)
      else PlanExposure(config, execution, RevisionOf(loaded), loaded.value.checkpoint, activity,
                        boundary, None, counter)
    case EvalComplete(outcome, count, c) =>
      Planned(PlanCompletion(config, execution, RevisionOf(loaded), outcome, count, c, Completion, None), counter)
    case EvalTerminal(outcome, _) =>
      if loaded.None? then Planned(Settle(NondeterminismFound(UnsupportedSuspension)), counter)
      else Planned(Settle(WorkflowCompleted(outcome, loaded.value.revision, Completion)), counter)
    case EvalNondeterminism(error) => Planned(Settle(NondeterminismFound(error)), counter)
    case EvalRejected(error) => Planned(Settle(CheckpointRejected(error)), counter)
    case EvalStalled => Planned(Settle(NondeterminismFound(UnsupportedSuspension)), counter)
  }

  /** `turn` (not fused) and `turn_and_expose` (fused). */
  function PlanTurn(config: HostConfig, body: Body, execution: ExecutionSpec, fused: bool,
                    loaded: Option<StoredCheckpoint>, counter: AttemptCounter): Planned
  {
    var shortcut := if loaded.Some? then Shortcut(config, execution, loaded.value) else None;
    if shortcut.Some? then Planned(Settle(shortcut.value), counter)
    else ActOn(config, execution, fused, loaded,
               Evaluate(body, execution, CheckpointOf(loaded), config.limits), counter)
  }

  /** The checkpoint that records an observation, or why the observation is refused. */
  function Observed(config: HostConfig, execution: ExecutionSpec, activity: LogicalActivityId, result: Bytes,
                    loaded: Option<StoredCheckpoint>): (r: Result<CheckpointEnvelope, HostOutcome>)
    ensures r.Ok? ==> loaded.Some?
  {
    if loaded.None? then Err(ObservationRejected(CheckpointMissing)) else
    var decoded := DecodeAndValidate(loaded.value.checkpoint, execution, config.limits);
    if decoded.Err? then Err(CheckpointRejected(decoded.error))
    else match decoded.value.state
      case Terminal(_, _) => Err(ObservationRejected(ActivityNotExposed))
      case Active(history) =>
        if history == [] then Err(ObservationRejected(ActivityNotExposed)) else
        var record := history[|history| - 1];
        var expected := record.LogicalId(execution.executionId);
        if expected != activity then Err(ObservationRejected(LogicalActivityMismatch(expected, activity)))
        else if !record.state.DispatchExposed? then Err(ObservationRejected(ActivityNotExposed))
        else if |result| > record.spec.maxResultBytes then
          Err(ObservationRejected(ResultExceedsDeclaredBound(|result|, record.spec.maxResultBytes)))
        else
          var encoded := EncodeWithLimits(
            decoded.value.(state := Active(WithFinalState(history, Completed(result)))), config.limits);
          if encoded.Err? then Err(CheckpointRejected(encoded.error)) else Ok(encoded.value)
  }

  function PlanObserve(config: HostConfig, execution: ExecutionSpec, activity: LogicalActivityId, result: Bytes,
                       loaded: Option<StoredCheckpoint>): Plan
  {
    var recorded := Observed(config, execution, activity, result, loaded);
    if recorded.Err? then Settle(recorded.error)
    else Propose(Proposal(execution.executionId, RevisionOf(loaded), recorded.value, ToObserve(activity),
                          Observation, Some(result), config.limits))
  }

  /** What the fused observation does with the evaluation of the completed checkpoint. */
  function ProgressOn(config: HostConfig, execution: ExecutionSpec, result: Bytes,
                      stored: StoredCheckpoint, evaluation: Evaluation, counter: AttemptCounter): Planned
  {
    match evaluation
    case EvalScheduled(next, c) =>
      PlanExposure(config, execution, Some(stored.revision), c, next, ObservationProgression, Some(result), counter)
    case EvalComplete(outcome, count, c) =>
      Planned(PlanCompletion(config, execution, Some(stored.revision), outcome, count, c,
                             ObservationProgression, Some(result)), counter)
    case EvalPending(next, state) =>
      if state.DispatchExposed? then Planned(Settle(Quarantined(next, state.attempt)), counter)
      else Planned(Settle(NondeterminismFound(UnsupportedSuspension)), counter)
    case EvalTerminal(outcome, _) =>
      Planned(Settle(WorkflowCompleted(outcome, stored.revision, Completion)), counter)
    case EvalNondeterminism(error) => Planned(Settle(NondeterminismFound(error)), counter)
    case EvalRejected(error) => Planned(Settle(CheckpointRejected(error)), counter)
    case EvalStalled => Planned(Settle(NondeterminismFound(UnsupportedSuspension)), counter)
  }

  function PlanObserveAndTurn(config: HostConfig, body: Body, execution: ExecutionSpec,
                              activity: LogicalActivityId, result: Bytes,
                              loaded: Option<StoredCheckpoint>, counter: AttemptCounter): Planned
  {
    var recorded := Observed(config, execution, activity, result, loaded);
    if recorded.Err? then Planned(Settle(recorded.error), counter)
    else
      ProgressOn(config, execution, result, loaded.value,
                 Evaluate(body, execution, Some(recorded.value), config.limits), counter)
  }

  function PlanOperation(config: HostConfig, body: Body, op: Operation,
                         loaded: Option<StoredCheckpoint>, counter: AttemptCounter): Planned
  {
    match op
    case Turn(execution) => PlanTurn(config, body, execution, false, loaded, counter)
    case TurnAndExpose(execution) => PlanTurn(config, body, execution, true, loaded, counter)
    case Observe(execution, activity, result) =>
      Planned(PlanObserve(config, execution, activity, result, loaded), counter)
    case ObserveAndTurn(execution, activity, result) =>
      PlanObserveAndTurn(config, body, execution, activity, result, loaded, counter)
  }

  /** How the answer to the compare-and-swap is reported. */
  function Conclude(p: Proposal, r: CasResult): HostOutcome
  {
    match r
    case Conflict => ReloadRequired(p.boundary, ReloadConflict)
    case OutcomeUnknown => ReloadRequired(p.boundary, ReloadOutcomeUnknown)
    case Failed(kind) => StoreFailed(CasOperation(p.boundary), kind)
    case Accepted(revision) =>
      match p.purpose
      case ToSchedule(activity) => ScheduleAccepted(activity, revision)
      case ToExpose(permit) => DispatchPermitted(permit, revision, p.boundary)
      case ToObserve(activity) => ObservationAccepted(activity, revision)
      case ToComplete(outcome) => WorkflowCompleted(outcome, revision, p.boundary)
  }
}
