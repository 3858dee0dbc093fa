/**
 * What each operation of a host has to do with the checkpoint it loaded, said from the direct run of the workflow
 * and from what can be stored, and why every plan does exactly that.
 */
module Duties {
  import opened Basics
  import opened Identity
  import opened CheckpointJson
  import opened Checkpoint
  import opened Workflow
  import opened Replay
  import opened Store
  import opened Host
  import opened Progress
  import opened Sizes

  // ---------------------------------------------------------------- what has to be done

  /** Where an operation writes from: the execution, the revision it read, and the result it carries, if any. */
  datatype Place = Place(execution: ExecutionSpec, expected: Option<StorageRevision>, observed: Option<Bytes>)

  /** The boundaries an operation reports its exposure and its completion at. */
  datatype Mode = Mode(fused: bool, exposure: PersistenceBoundary, completion: PersistenceBoundary)

  predicate Proposes(config: HostConfig, at: Place, target: CheckpointPayload, purpose: Purpose,
                     boundary: PersistenceBoundary, plan: Plan)
  {
    plan == Propose(Proposal(at.execution.executionId, at.expected, CheckpointEnvelope(FORMAT_VERSION, target),
                             purpose, boundary, at.observed, config.limits))
  }

  /** Refused because the target cannot be stored, with the reason its encoding gives. */
  predicate CannotStore(config: HostConfig, target: CheckpointPayload, plan: Plan)
  {
    var encoded := EncodeWithLimits(target, config.limits);
    encoded.Err? && plan == Settle(CheckpointRejected(encoded.error))
  }

  /** Refused because some in-bound result would not fit, or is too long to be measured. */
  predicate CannotReserve(config: HostConfig, plan: Plan)
  {
    && plan.Settle? && plan.outcome.CheckpointRejected?
    && match plan.outcome.error
       case EncodedLengthOverflow => true
       case EncodedCheckpointLimitExceeded(encoded, maximum) =>
         maximum == config.limits.maxEncodedBytes && encoded > maximum
       case _ => false
  }

  function WithState(p: CheckpointPayload, state: ActivityState): CheckpointPayload
    requires p.state.Active? && p.state.activities != []
  {
    p.(state := Active(WithFinalState(p.state.activities, state)))
  }

  /** The payload with one more record, scheduled. */
  function Scheduling(p: CheckpointPayload, spec: ActivitySpec): CheckpointPayload
    requires p.state.Active? && |p.state.activities| <= U64_MAX
  {
    p.(state := Active(p.state.activities + [ActivityRecord(|p.state.activities|, spec, Scheduled)]))
  }

  /**
   * The final record is exposed under the host's next attempt, if every in-bound result will fit and the exposed
   * checkpoint can be stored. The attempt is spent once the reservation holds.
   */
  ghost predicate Exposes(config: HostConfig, at: Place, p: CheckpointPayload, boundary: PersistenceBoundary,
                          counter: AttemptCounter, planned: Planned)
    requires p.state.Active? && p.state.activities != []
  {
    var attempt := AttemptId(config.hostEpoch, counter);
    var target := WithState(p, DispatchExposed(attempt));
    if !Reservable(p, config.limits) then CannotReserve(config, planned.plan) && planned.counter == counter
    else
      && planned.counter == counter + 1
      && if !Storable(target, config.limits) then CannotStore(config, target, planned.plan)
         else Proposes(config, at, target,
                       ToExpose(DispatchPermit(Final(p.state.activities).LogicalId(at.execution.executionId),
                                               attempt)),
                       boundary, planned.plan)
  }

  /** The outcome replaces the history, if it is within its declared bound. */
  predicate Completes(config: HostConfig, at: Place, p: CheckpointPayload, outcome: TerminalOutcome,
                      boundary: PersistenceBoundary, plan: Plan)
    requires p.state.Active? && |p.state.activities| <= U64_MAX
  {
    if |outcome.payload| > at.execution.maxTerminalPayloadBytes then
      plan == Settle(CheckpointRejected(TerminalPayloadExceedsDeclared(|outcome.payload|,
                                                                       at.execution.maxTerminalPayloadBytes)))
    else
      Proposes(config, at, CheckpointPayload(p.execution, Terminal(outcome, |p.state.activities|)),
               ToComplete(outcome), boundary, plan)
  }

  /** From a settled history: the next call of the direct run is scheduled or exposed, its end is recorded. */
  ghost predicate Continues(config: HostConfig, body: Body, at: Place, mode: Mode, p: CheckpointPayload,
                            counter: AttemptCounter, planned: Planned)
    requires p.state.Active? && |p.state.activities| <= U64_MAX && OnTrack(body, p)
  {
    var run := Direct(body, at.execution, Recorded(p.state.activities));
    match run
    case Stuck(_) => planned == Planned(Settle(NondeterminismFound(UnsupportedSuspension)), counter)
    case Finished(_, outcome) =>
      && planned.counter == counter
      && if Storable(p, config.limits) then Completes(config, at, p, outcome, mode.completion, planned.plan)
         else CannotStore(config, p, planned.plan)
    case Waiting(calls) =>
      && |calls| == |p.state.activities| + 1
      && var spec := calls[|p.state.activities|];
         var target := Scheduling(p, spec);
         if !Storable(target, config.limits) then
           CannotStore(config, target, planned.plan) && planned.counter == counter
         else if mode.fused then Exposes(config, at, target, mode.exposure, counter, planned)
         else
           && planned.counter == counter
           && Proposes(config, at, target,
                       ToSchedule(LogicalActivityId(at.execution.executionId, |p.state.activities|, spec)),
                       PersistenceBoundary.Schedule, planned.plan)
  }

  /** What a turn has to do. */
  ghost predicate TurnDue(config: HostConfig, body: Body, execution: ExecutionSpec, fused: bool,
                          loaded: Option<StoredCheckpoint>, counter: AttemptCounter, planned: Planned)
    requires loaded.Some? ==> OnTrack(body, loaded.value.checkpoint.payload)
  {
    var mode := Mode(fused, if fused then ScheduleExposure else Exposure, Completion);
    var at := Place(execution, RevisionOf(loaded), None);
    if loaded.None? then
      var empty := EmptyPayload(execution, config.limits);
      if !Roomy(empty.execution) then
        && planned.plan.Settle? && planned.plan.outcome.CheckpointRejected? && planned.counter == counter
        && StartingPayload(execution, None, config.limits) == Err(planned.plan.outcome.error)
      else OnTrack(body, empty) && Continues(config, body, at, mode, empty, counter, planned)
    else
      var c := loaded.value.checkpoint;
      if !Loadable(c, execution, config.limits) then
        && planned.plan.Settle? && planned.plan.outcome.CheckpointRejected? && planned.counter == counter
        && DecodeAndValidate(c, execution, config.limits) == Err(planned.plan.outcome.error)
      else match c.payload.state
        case Terminal(outcome, _) =>
          planned == Planned(Settle(WorkflowCompleted(outcome, loaded.value.revision, Completion)), counter)
        case Active(history) =>
          if HasPending(history) then
            match Final(history).state
            case DispatchExposed(attempt) =>
              planned == Planned(Settle(Quarantined(Final(history).LogicalId(execution.executionId), attempt)), counter)
            case _ => Exposes(config, at, c.payload, mode.exposure, counter, planned)
          else |history| <= U64_MAX && Continues(config, body, at, mode, c.payload, counter, planned)
  }

  /** Why an observation is not recorded, if it is not. */
  ghost predicate Unrecordable(config: HostConfig, execution: ExecutionSpec, activity: LogicalActivityId,
                               result: Bytes, loaded: Option<StoredCheckpoint>, outcome: HostOutcome)
  {
    if loaded.None? then outcome == ObservationRejected(CheckpointMissing)
    else if !Loadable(loaded.value.checkpoint, execution, config.limits) then
      && outcome.CheckpointRejected?
      && DecodeAndValidate(loaded.value.checkpoint, execution, config.limits) == Err(outcome.error)
    else match loaded.value.checkpoint.payload.state
      case Terminal(_, _) => outcome == ObservationRejected(ActivityNotExposed)
      case Active(history) =>
        if history == [] then outcome == ObservationRejected(ActivityNotExposed) else
        var expected := Final(history).LogicalId(execution.executionId);
        if expected != activity then outcome == ObservationRejected(LogicalActivityMismatch(expected, activity))
        else if !Final(history).state.DispatchExposed? then outcome == ObservationRejected(ActivityNotExposed)
        else if |result| > Final(history).spec.maxResultBytes then
          outcome == ObservationRejected(ResultExceedsDeclaredBound(|result|, Final(history).spec.maxResultBytes))
        else CannotStore(config, Completing(loaded.value.checkpoint.payload, result), Settle(outcome))
  }

  /** The observation is of the exposed final record, and within its bound. */
  predicate Matching(execution: ExecutionSpec, activity: LogicalActivityId, result: Bytes, p: CheckpointPayload)
  {
    && p.state.Active? && p.state.activities != []
    && Final(p.state.activities).LogicalId(execution.executionId) == activity
    && Final(p.state.activities).state.DispatchExposed?
    && |result| <= Final(p.state.activities).spec.maxResultBytes
  }

  /** The observation matches, and the checkpoint that records it can be stored. */
  ghost predicate Recordable(config: HostConfig, execution: ExecutionSpec, activity: LogicalActivityId,
                             result: Bytes, loaded: Option<StoredCheckpoint>)
  {
    && loaded.Some? && Loadable(loaded.value.checkpoint, execution, config.limits)
    && Matching(execution, activity, result, loaded.value.checkpoint.payload)
    && Storable(Completing(loaded.value.checkpoint.payload, result), config.limits)
  }

  /** What an observation has to do, alone or with the turn that follows it. */
  ghost predicate ObservationDue(config: HostConfig, body: Body, execution: ExecutionSpec,
                                 activity: LogicalActivityId, result: Bytes, alone: bool,
                                 loaded: Option<StoredCheckpoint>, counter: AttemptCounter, planned: Planned)
  {
    if !Recordable(config, execution, activity, result, loaded) then
      && planned.plan.Settle? && planned.counter == counter
      && Unrecordable(config, execution, activity, result, loaded, planned.plan.outcome)
    else
      var at := Place(execution, Some(loaded.value.revision), Some(result));
      var target := Completing(loaded.value.checkpoint.payload, result);
      if alone then
        Proposes(config, at, target, ToObserve(activity), Observation, planned.plan) && planned.counter == counter
      else
        && OnTrack(body, target) && |target.state.activities| <= U64_MAX
        && Continues(config, body, at, Mode(true, ObservationProgression, ObservationProgression), target, counter,
                     planned)
  }

  /** What an operation has to do with what it loaded. */
  ghost predicate Due(config: HostConfig, body: Body, op: Operation, loaded: Option<StoredCheckpoint>,
                      counter: AttemptCounter, planned: Planned)
    requires loaded.Some? ==> OnTrack(body, loaded.value.checkpoint.payload)
  {
    match op
    case Turn(execution) => TurnDue(config, body, execution, false, loaded, counter, planned)
    case TurnAndExpose(execution) => TurnDue(config, body, execution, true, loaded, counter, planned)
    case Observe(execution, activity, result) =>
      ObservationDue(config, body, execution, activity, result, true, loaded, counter, planned)
    case ObserveAndTurn(execution, activity, result) =>
      ObservationDue(config, body, execution, activity, result, false, loaded, counter, planned)
  }

  // ---------------------------------------------------------------- plans do what is due

  lemma {:induction false} ExposureIsDue(config: HostConfig, at: Place, p: CheckpointPayload,
                                         boundary: PersistenceBoundary, counter: AttemptCounter)
    requires Loadable(CheckpointEnvelope(FORMAT_VERSION, p), at.execution, config.limits)
    requires p.state.Active? && p.state.activities != []
    ensures Exposes(config, at, p, boundary, counter,
                    PlanExposure(config, at.execution, at.expected, CheckpointEnvelope(FORMAT_VERSION, p),
                                 Final(p.state.activities).LogicalId(at.execution.executionId), boundary,
                                 at.observed, counter))
  {
    LoadableIsDecoded(CheckpointEnvelope(FORMAT_VERSION, p), at.execution, config.limits);
    ReservableIsReserved(p, config.limits);
    StorableIsEncoded(WithState(p, DispatchExposed(AttemptId(config.hostEpoch, counter))), config.limits);
    ReservationErrors(p);
  }

  /** A reservation that cannot be measured is an overflow: there is a record to reserve for. */
  lemma {:induction false} ReservationErrors(p: CheckpointPayload)
    requires p.state.Active? && p.state.activities != []
    ensures var reserved := MaximumActivityCompletedEncodedLen(p);
            reserved.Err? ==> reserved.error == EncodedLengthOverflow
  {
  }

  lemma {:induction false} CompletionIsDue(config: HostConfig, at: Place, p: CheckpointPayload,
                                           outcome: TerminalOutcome, boundary: PersistenceBoundary)
    requires Loadable(CheckpointEnvelope(FORMAT_VERSION, p), at.execution, config.limits)
    requires p.state.Active? && |p.state.activities| <= U64_MAX
    ensures Completes(config, at, p, outcome, boundary,
                      PlanCompletion(config, at.execution, at.expected, outcome, |p.state.activities|,
                                     CheckpointEnvelope(FORMAT_VERSION, p), boundary, at.observed))
  {
    LoadableIsDecoded(CheckpointEnvelope(FORMAT_VERSION, p), at.execution, config.limits);
    if |outcome.payload| <= at.execution.maxTerminalPayloadBytes {
      var target := CheckpointPayload(p.execution, Terminal(outcome, |p.state.activities|));
      TerminalIsStorable(p, outcome, |p.state.activities|, config.limits);
      StorableIsEncoded(target, config.limits);
    }
  }

  /** An in-bound outcome of an allowed execution can always be stored. */
  lemma {:induction false} TerminalIsStorable(p: CheckpointPayload, outcome: TerminalOutcome, count: U64,
                                              limits: CheckpointLimits)
    requires Allowed(p, limits) && |outcome.payload| <= p.execution.spec.maxTerminalPayloadBytes
    ensures Storable(CheckpointPayload(p.execution, Terminal(outcome, count)), limits)
  {
  }

  /** What replaying a settled history on the direct run evaluates to. */
  lemma {:induction false} SettledEvaluation(body: Body, p: CheckpointPayload, limits: CheckpointLimits)
    requires p.state.Active? && OnTrack(body, p) && |p.state.activities| <= U64_MAX
    requires !HasPending(p.state.activities)
    ensures var spec, history := p.execution.spec, p.state.activities;
            var e := Classify(spec, p, Drive(body, spec, history, 0), limits);
            match Direct(body, spec, Recorded(history))
            case Stuck(_) => e == EvalStalled
            case Finished(_, outcome) =>
              var encoded := EncodeWithLimits(p, limits);
              e == if encoded.Err? then EvalRejected(encoded.error)
                   else EvalComplete(outcome, |history|, CheckpointEnvelope(FORMAT_VERSION, p))
            case Waiting(calls) =>
              && |calls| == |history| + 1
              && var target := Scheduling(p, calls[|history|]);
                 var encoded := EncodeWithLimits(target, limits);
                 e == if encoded.Err? then EvalRejected(encoded.error)
                      else EvalScheduled(LogicalActivityId(spec.executionId, |history|, calls[|history|]),
                                         CheckpointEnvelope(FORMAT_VERSION, target))
  {
    ReplayFindsDirectRun(body, p.execution.spec, p.state.activities, Recorded(p.state.activities));
    SettledRun(body, p.execution.spec, p.state.activities, Recorded(p.state.activities));
  }

  lemma {:induction false} PendingEvaluation(body: Body, p: CheckpointPayload, limits: CheckpointLimits)
    requires p.state.Active? && OnTrack(body, p) && |p.state.activities| <= U64_MAX
    requires HasPending(p.state.activities)
    ensures var spec, history := p.execution.spec, p.state.activities;
            Classify(spec, p, Drive(body, spec, history, 0), limits)
            == EvalPending(Final(history).LogicalId(spec.executionId), Final(history).state)
  {
    ReplayFindsDirectRun(body, p.execution.spec, p.state.activities, Recorded(p.state.activities));
  }

  /** What a turn plans from a settled history whose direct run goes on. */
  lemma {:induction false} WaitingTurnIsDue(config: HostConfig, body: Body, fused: bool,
                                            loaded: Option<StoredCheckpoint>, p: CheckpointPayload,
                                            counter: AttemptCounter)
    requires p.state.Active? && OnTrack(body, p) && |p.state.activities| <= U64_MAX
    requires !HasPending(p.state.activities)
    requires Direct(body, p.execution.spec, Recorded(p.state.activities)).Waiting?
    ensures var execution := p.execution.spec;
            Continues(config, body, Place(execution, RevisionOf(loaded), None),
                      Mode(fused, if fused then ScheduleExposure else Exposure, Completion), p, counter,
                      ActOn(config, execution, fused, loaded,
                            Classify(execution, p, Drive(body, execution, p.state.activities, 0), config.limits),
                            counter))
  {
    var execution, history := p.execution.spec, p.state.activities;
    SettledEvaluation(body, p, config.limits);
    var target := Scheduling(p, Direct(body, execution, Recorded(history)).calls[|history|]);
    StorableIsEncoded(target, config.limits);
    if Storable(target, config.limits) && fused {
      ExposureIsDue(config, Place(execution, RevisionOf(loaded), None), target, ScheduleExposure, counter);
    }
  }

  /** What a turn plans from a settled history. */
  lemma {:induction false} ContinuationIsDue(config: HostConfig, body: Body, fused: bool,
                                             loaded: Option<StoredCheckpoint>, p: CheckpointPayload,
                                             counter: AttemptCounter)
    requires p.state.Active? && OnTrack(body, p) && |p.state.activities| <= U64_MAX
    requires !HasPending(p.state.activities)
    ensures var execution := p.execution.spec;
            Continues(config, body, Place(execution, RevisionOf(loaded), None),
                      Mode(fused, if fused then ScheduleExposure else Exposure, Completion), p, counter,
                      ActOn(config, execution, fused, loaded,
                            Classify(execution, p, Drive(body, execution, p.state.activities, 0), config.limits),
                            counter))
  {
    var execution, history := p.execution.spec, p.state.activities;
    match Direct(body, execution, Recorded(history))
    case Stuck(_) => SettledEvaluation(body, p, config.limits);
    case Finished(_, outcome) =>
      SettledEvaluation(body, p, config.limits);
      StorableIsEncoded(p, config.limits);
      if Storable(p, config.limits) {
        CompletionIsDue(config, Place(execution, RevisionOf(loaded), None), p, outcome, Completion);
      }
    case Waiting(_) => WaitingTurnIsDue(config, body, fused, loaded, p, counter);
  }

  /** What the turn behind an observation plans while the direct run goes on. */
  lemma {:induction false} WaitingProgressionIsDue(config: HostConfig, body: Body, result: Bytes,
                                                   stored: StoredCheckpoint, p: CheckpointPayload,
                                                   counter: AttemptCounter)
    requires p.state.Active? && OnTrack(body, p) && |p.state.activities| <= U64_MAX
    requires !HasPending(p.state.activities)
    requires Direct(body, p.execution.spec, Recorded(p.state.activities)).Waiting?
    ensures var execution := p.execution.spec;
            Continues(config, body, Place(execution, Some(stored.revision), Some(result)),
                      Mode(true, ObservationProgression, ObservationProgression), p, counter,
                      ProgressOn(config, execution, result, stored,
                                 Classify(execution, p, Drive(body, execution, p.state.activities, 0),
                                          config.limits), counter))
  {
    var execution, history := p.execution.spec, p.state.activities;
    SettledEvaluation(body, p, config.limits);
    var target := Scheduling(p, Direct(body, execution, Recorded(history)).calls[|history|]);
    StorableIsEncoded(target, config.limits);
    if Storable(target, config.limits) {
      ExposureIsDue(config, Place(execution, Some(stored.revision), Some(result)), target, ObservationProgression,
                    counter);
    }
  }

  /** What the turn behind an observation plans. */
  lemma {:induction false} ProgressionIsDue(config: HostConfig, body: Body, result: Bytes, stored: StoredCheckpoint,
                                            p: CheckpointPayload, counter: AttemptCounter)
    requires p.state.Active? && OnTrack(body, p) && |p.state.activities| <= U64_MAX
    requires !HasPending(p.state.activities)
    ensures var execution := p.execution.spec;
            Continues(config, body, Place(execution, Some(stored.revision), Some(result)),
                      Mode(true, ObservationProgression, ObservationProgression), p, counter,
                      ProgressOn(config, execution, result, stored,
                                 Classify(execution, p, Drive(body, execution, p.state.activities, 0),
                                          config.limits), counter))
  {
    var execution, history := p.execution.spec, p.state.activities;
    match Direct(body, execution, Recorded(history))
    case Stuck(_) => SettledEvaluation(body, p, config.limits);
    case Finished(_, outcome) =>
      SettledEvaluation(body, p, config.limits);
      StorableIsEncoded(p, config.limits);
      if Storable(p, config.limits) {
        CompletionIsDue(config, Place(execution, Some(stored.revision), Some(result)), p, outcome,
                        ObservationProgression);
      }
    case Waiting(_) => WaitingProgressionIsDue(config, body, result, stored, p, counter);
  }

  lemma {:induction false} AdmissionIsRoom(execution: ExecutionSpec, limits: CheckpointLimits)
    ensures var start := StartingPayload(execution, None, limits);
            if Roomy(EmptyPayload(execution, limits).execution) then start == Ok(EmptyPayload(execution, limits))
            else start.Err?
  {
    AllowedIsValid(EmptyPayload(execution, limits), limits);
  }

  lemma {:induction false} FreshTurnIsDue(config: HostConfig, body: Body, execution: ExecutionSpec, fused: bool,
                                          counter: AttemptCounter)
    ensures TurnDue(config, body, execution, fused, None, counter,
                    PlanTurn(config, body, execution, fused, None, counter))
  {
    var p := EmptyPayload(execution, config.limits);
    AdmissionIsRoom(execution, config.limits);
    EmptyIsOnTrack(body, execution, config.limits);
    if Roomy(p.execution) { ContinuationIsDue(config, body, fused, None, p, counter); }
  }

  /** Polling a loaded, active checkpoint without an exposed activity replays its own history. */
  lemma {:induction false} LoadedTurnReplays(config: HostConfig, body: Body, execution: ExecutionSpec, fused: bool,
                                             stored: StoredCheckpoint, counter: AttemptCounter)
    requires Loadable(stored.checkpoint, execution, config.limits) && stored.checkpoint.payload.state.Active?
    requires var history := stored.checkpoint.payload.state.activities;
             history != [] ==> !Final(history).state.DispatchExposed?
    ensures var p := stored.checkpoint.payload;
            && |p.state.activities| <= U64_MAX
            && PlanTurn(config, body, execution, fused, Some(stored), counter)
               == ActOn(config, execution, fused, Some(stored),
                        Classify(execution, p, Drive(body, execution, p.state.activities, 0), config.limits), counter)
  {
    LoadableIsDecoded(stored.checkpoint, execution, config.limits);
  }

  lemma {:induction false} PendingTurnIsDue(config: HostConfig, body: Body, execution: ExecutionSpec, fused: bool,
                                            stored: StoredCheckpoint, counter: AttemptCounter)
    requires Loadable(stored.checkpoint, execution, config.limits) && OnTrack(body, stored.checkpoint.payload)
    requires stored.checkpoint.payload.state.Active? && HasPending(stored.checkpoint.payload.state.activities)
    requires !Final(stored.checkpoint.payload.state.activities).state.DispatchExposed?
    ensures Exposes(config, Place(execution, Some(stored.revision), None), stored.checkpoint.payload,
                    if fused then ScheduleExposure else Exposure, counter,
                    PlanTurn(config, body, execution, fused, Some(stored), counter))
  {
    var p := stored.checkpoint.payload;
    assert stored.checkpoint == CheckpointEnvelope(FORMAT_VERSION, p);
    LoadedTurnReplays(config, body, execution, fused, stored, counter);
    PendingEvaluation(body, p, config.limits);
    ExposureIsDue(config, Place(execution, Some(stored.revision), None), p,
                  if fused then ScheduleExposure else Exposure, counter);
  }

  lemma {:induction false} SettledTurnIsDue(config: HostConfig, body: Body, execution: ExecutionSpec, fused: bool,
                                            stored: StoredCheckpoint, counter: AttemptCounter)
    requires Loadable(stored.checkpoint, execution, config.limits) && OnTrack(body, stored.checkpoint.payload)
    requires stored.checkpoint.payload.state.Active? && !HasPending(stored.checkpoint.payload.state.activities)
    ensures |stored.checkpoint.payload.state.activities| <= U64_MAX
    ensures Continues(config, body, Place(execution, Some(stored.revision), None),
                      Mode(fused, if fused then ScheduleExposure else Exposure, Completion),
                      stored.checkpoint.payload, counter,
                      PlanTurn(config, body, execution, fused, Some(stored), counter))
  {
    LoadedTurnReplays(config, body, execution, fused, stored, counter);
    ContinuationIsDue(config, body, fused, Some(stored), stored.checkpoint.payload, counter);
  }

  /** A checkpoint that cannot be loaded is refused before polling. */
  lemma {:induction false} UnloadableTurnIsDue(config: HostConfig, body: Body, execution: ExecutionSpec, fused: bool,
                                               stored: StoredCheckpoint, counter: AttemptCounter)
    requires OnTrack(body, stored.checkpoint.payload)
    requires !Loadable(stored.checkpoint, execution, config.limits)
    ensures TurnDue(config, body, execution, fused, Some(stored), counter,
                    PlanTurn(config, body, execution, fused, Some(stored), counter))
  {
    LoadableIsDecoded(stored.checkpoint, execution, config.limits);
  }

  /** An end or an exposed activity is answered from the checkpoint alone. */
  lemma {:induction false} AnsweredFromCheckpoint(config: HostConfig, body: Body, execution: ExecutionSpec,
                                                  fused: bool, stored: StoredCheckpoint, counter: AttemptCounter)
    requires Loadable(stored.checkpoint, execution, config.limits)
    ensures var p := stored.checkpoint.payload;
            var planned := PlanTurn(config, body, execution, fused, Some(stored), counter);
            && (p.state.Terminal? ==>
                  planned == Planned(Settle(WorkflowCompleted(p.state.outcome, stored.revision, Completion)), counter))
            && (p.state.Active? && p.state.activities != [] && Final(p.state.activities).state.DispatchExposed? ==>
                  planned == Planned(Settle(Quarantined(Final(p.state.activities).LogicalId(execution.executionId),
                                                        Final(p.state.activities).state.attempt)), counter))
  {
    LoadableIsDecoded(stored.checkpoint, execution, config.limits);
  }

  lemma {:induction false} LoadedTurnIsDue(config: HostConfig, body: Body, execution: ExecutionSpec, fused: bool,
                                           stored: StoredCheckpoint, counter: AttemptCounter)
    requires OnTrack(body, stored.checkpoint.payload)
    ensures TurnDue(config, body, execution, fused, Some(stored), counter,
                    PlanTurn(config, body, execution, fused, Some(stored), counter))
  {
    var c := stored.checkpoint;
    if !Loadable(c, execution, config.limits) {
      UnloadableTurnIsDue(config, body, execution, fused, stored, counter);
    } else if c.payload.state.Terminal? {
      AnsweredFromCheckpoint(config, body, execution, fused, stored, counter);
    } else if !HasPending(c.payload.state.activities) {
      SettledTurnIsDue(config, body, execution, fused, stored, counter);
    } else if Final(c.payload.state.activities).state.DispatchExposed? {
      AnsweredFromCheckpoint(config, body, execution, fused, stored, counter);
    } else {
      PendingTurnIsDue(config, body, execution, fused, stored, counter);
    }
  }

  /** An observation that matches the exposed activity is recorded, if the checkpoint with it can be stored. */
  lemma {:induction false} MatchingIsRecorded(config: HostConfig, execution: ExecutionSpec,
                                              activity: LogicalActivityId, result: Bytes, stored: StoredCheckpoint)
    requires Loadable(stored.checkpoint, execution, config.limits)
    requires Matching(execution, activity, result, stored.checkpoint.payload)
    ensures var target := Completing(stored.checkpoint.payload, result);
            var encoded := EncodeWithLimits(target, config.limits);
            && (encoded.Ok? <==> Storable(target, config.limits))
            && Observed(config, execution, activity, result, Some(stored))
               == if encoded.Ok? then Ok(CheckpointEnvelope(FORMAT_VERSION, target))
                  else Err(CheckpointRejected(encoded.error))
  {
    LoadableIsDecoded(stored.checkpoint, execution, config.limits);
    StorableIsEncoded(Completing(stored.checkpoint.payload, result), config.limits);
  }

  /** Without a checkpoint that can be loaded, the observation is refused for that. */
  lemma {:induction false} UnloadableIsRefused(config: HostConfig, execution: ExecutionSpec,
                                               activity: LogicalActivityId, result: Bytes,
                                               loaded: Option<StoredCheckpoint>)
    requires loaded.Some? ==> !Loadable(loaded.value.checkpoint, execution, config.limits)
    ensures var recorded := Observed(config, execution, activity, result, loaded);
            recorded.Err? && Unrecordable(config, execution, activity, result, loaded, recorded.error)
  {
    if loaded.Some? { LoadableIsDecoded(loaded.value.checkpoint, execution, config.limits); }
  }

  /** Without a record, nothing is exposed. */
  lemma {:induction false} NothingToObserve(config: HostConfig, execution: ExecutionSpec,
                                            activity: LogicalActivityId, result: Bytes, stored: StoredCheckpoint)
    requires Loadable(stored.checkpoint, execution, config.limits)
    requires stored.checkpoint.payload.state.Terminal? || stored.checkpoint.payload.state.activities == []
    ensures Observed(config, execution, activity, result, Some(stored)) == Err(ObservationRejected(ActivityNotExposed))
  {
    LoadableIsDecoded(stored.checkpoint, execution, config.limits);
  }

  /** Why a result does not match the final record. */
  function Mismatch(expected: LogicalActivityId, record: ActivityRecord, activity: LogicalActivityId, result: Bytes):
    ObservationRejection
  {
    if expected != activity then LogicalActivityMismatch(expected, activity)
    else if !record.state.DispatchExposed? then ActivityNotExposed
    else ResultExceedsDeclaredBound(|result|, record.spec.maxResultBytes)
  }

  /** Any other observation is refused for what does not match. */
  lemma {:induction false} OtherIsRefused(config: HostConfig, execution: ExecutionSpec,
                                          activity: LogicalActivityId, result: Bytes, stored: StoredCheckpoint)
    requires Loadable(stored.checkpoint, execution, config.limits)
    requires stored.checkpoint.payload.state.Active? && stored.checkpoint.payload.state.activities != []
    requires !Matching(execution, activity, result, stored.checkpoint.payload)
    ensures var record := Final(stored.checkpoint.payload.state.activities);
            Observed(config, execution, activity, result, Some(stored))
            == Err(ObservationRejected(Mismatch(record.LogicalId(execution.executionId), record, activity, result)))
  {
    LoadableIsDecoded(stored.checkpoint, execution, config.limits);
  }

  /** An observation is recorded exactly when it can be, and otherwise refused for the reason that holds. */
  lemma {:induction false} RecordingIsDue(config: HostConfig, execution: ExecutionSpec, activity: LogicalActivityId,
                                          result: Bytes, loaded: Option<StoredCheckpoint>)
    ensures var recorded := Observed(config, execution, activity, result, loaded);
            if Recordable(config, execution, activity, result, loaded) then
              recorded == Ok(CheckpointEnvelope(FORMAT_VERSION,
                                                Completing(loaded.value.checkpoint.payload, result)))
            else recorded.Err? && Unrecordable(config, execution, activity, result, loaded, recorded.error)
  {
    if loaded.None? || !Loadable(loaded.value.checkpoint, execution, config.limits) {
      UnloadableIsRefused(config, execution, activity, result, loaded);
    } else if Matching(execution, activity, result, loaded.value.checkpoint.payload) {
      MatchingIsRecorded(config, execution, activity, result, loaded.value);
    } else if loaded.value.checkpoint.payload.state.Terminal?
              || loaded.value.checkpoint.payload.state.activities == []
    {
      NothingToObserve(config, execution, activity, result, loaded.value);
    } else {
      OtherIsRefused(config, execution, activity, result, loaded.value);
    }
  }

  lemma {:induction false} ObservingIsDue(config: HostConfig, body: Body, execution: ExecutionSpec,
                                          activity: LogicalActivityId, result: Bytes,
                                          loaded: Option<StoredCheckpoint>, counter: AttemptCounter)
    ensures ObservationDue(config, body, execution, activity, result, true, loaded, counter,
                           Planned(PlanObserve(config, execution, activity, result, loaded), counter))
  {
    RecordingIsDue(config, execution, activity, result, loaded);
  }

  lemma {:induction false} ObservingAndTurningIsDue(config: HostConfig, body: Body, execution: ExecutionSpec,
                                                    activity: LogicalActivityId, result: Bytes,
                                                    loaded: Option<StoredCheckpoint>, counter: AttemptCounter)
    requires loaded.Some? ==> OnTrack(body, loaded.value.checkpoint.payload)
    ensures ObservationDue(config, body, execution, activity, result, false, loaded, counter,
                           PlanObserveAndTurn(config, body, execution, activity, result, loaded, counter))
  {
    RecordingIsDue(config, execution, activity, result, loaded);
    if Recordable(config, execution, activity, result, loaded) {
      var target := Completing(loaded.value.checkpoint.payload, result);
      RecordingIsOnTrack(body, result, loaded.value.checkpoint.payload);
      LoadableIsDecoded(CheckpointEnvelope(FORMAT_VERSION, target), execution, config.limits);
      ProgressionIsDue(config, body, result, loaded.value, target, counter);
    }
  }

  /**
   * Every plan is what is due: what the direct run asks for next is exactly what is proposed, and it is refused
   * exactly where a size, a record limit or a bound forbids it.
   */
  lemma {:induction false} EveryPlanIsDue(config: HostConfig, body: Body, op: Operation,
                                          loaded: Option<StoredCheckpoint>, counter: AttemptCounter)
    requires loaded.Some? ==> OnTrack(body, loaded.value.checkpoint.payload)
    ensures Due(config, body, op, loaded, counter, PlanOperation(config, body, op, loaded, counter))
  {
    match op
    case Turn(execution) =>
      if loaded.None? { FreshTurnIsDue(config, body, execution, false, counter); }
      else { LoadedTurnIsDue(config, body, execution, false, loaded.value, counter); }
    case TurnAndExpose(execution) =>
      if loaded.None? { FreshTurnIsDue(config, body, execution, true, counter); }
      else { LoadedTurnIsDue(config, body, execution, true, loaded.value, counter); }
    case Observe(execution, activity, result) =>
      ObservingIsDue(config, body, execution, activity, result, loaded, counter);
    case ObserveAndTurn(execution, activity, result) =>
      ObservingAndTurningIsDue(config, body, execution, activity, result, loaded, counter);
  }

  // ---------------------------------------------------------------- refusals and honest answers

  /** The exposure of the final record is impossible: some in-bound result, or the exposed checkpoint, does not fit. */
  ghost predicate Unexposable(config: HostConfig, p: CheckpointPayload, counter: AttemptCounter)
    requires p.state.Active? && p.state.activities != []
  {
    || !Reservable(p, config.limits)
    || !Storable(WithState(p, DispatchExposed(AttemptId(config.hostEpoch, counter))), config.limits)
  }

  /** The next step of the direct run from a settled history cannot be written. */
  ghost predicate Blocked(config: HostConfig, body: Body, p: CheckpointPayload, fused: bool, counter: AttemptCounter)
    requires p.state.Active? && |p.state.activities| <= U64_MAX && OnTrack(body, p)
  {
    match Direct(body, p.execution.spec, Recorded(p.state.activities))
    case Stuck(_) => false
    case Finished(_, outcome) =>
      !Storable(p, config.limits) || |outcome.payload| > p.execution.spec.maxTerminalPayloadBytes
    case Waiting(calls) =>
      && |calls| == |p.state.activities| + 1
      && var target := Scheduling(p, calls[|p.state.activities|]);
         !Storable(target, config.limits) || (fused && Unexposable(config, target, counter))
  }

  /** A turn cannot be persisted, by what was loaded and by where the direct run stands. */
  ghost predicate TurnRefused(config: HostConfig, body: Body, execution: ExecutionSpec, fused: bool,
                              loaded: Option<StoredCheckpoint>, counter: AttemptCounter)
    requires loaded.Some? ==> OnTrack(body, loaded.value.checkpoint.payload)
  {
    if loaded.None? then
      var empty := EmptyPayload(execution, config.limits);
      !Roomy(empty.execution) || (OnTrack(body, empty) && Blocked(config, body, empty, fused, counter))
    else if !Loadable(loaded.value.checkpoint, execution, config.limits) then true
    else
      var p := loaded.value.checkpoint.payload;
      && p.state.Active?
      && if HasPending(p.state.activities) then
           !Final(p.state.activities).state.DispatchExposed? && Unexposable(config, p, counter)
         else |p.state.activities| <= U64_MAX && Blocked(config, body, p, fused, counter)
  }

  /** An observation, with the turn behind it or alone, cannot be persisted. */
  ghost predicate ObservationRefused(config: HostConfig, body: Body, execution: ExecutionSpec,
                                     activity: LogicalActivityId, result: Bytes, alone: bool,
                                     loaded: Option<StoredCheckpoint>, counter: AttemptCounter)
  {
    && loaded.Some?
    && (|| !Loadable(loaded.value.checkpoint, execution, config.limits)
        || (&& Matching(execution, activity, result, loaded.value.checkpoint.payload)
            && !Storable(Completing(loaded.value.checkpoint.payload, result), config.limits))
        || (&& !alone && Recordable(config, execution, activity, result, loaded)
            && var target := Completing(loaded.value.checkpoint.payload, result);
               && OnTrack(body, target) && |target.state.activities| <= U64_MAX
               && Blocked(config, body, target, true, counter)))
  }

  ghost predicate Refused(config: HostConfig, body: Body, op: Operation, loaded: Option<StoredCheckpoint>,
                          counter: AttemptCounter)
    requires loaded.Some? ==> OnTrack(body, loaded.value.checkpoint.payload)
  {
    match op
    case Turn(execution) => TurnRefused(config, body, execution, false, loaded, counter)
    case TurnAndExpose(execution) => TurnRefused(config, body, execution, true, loaded, counter)
    case Observe(execution, activity, result) =>
      ObservationRefused(config, body, execution, activity, result, true, loaded, counter)
    case ObserveAndTurn(execution, activity, result) =>
      ObservationRefused(config, body, execution, activity, result, false, loaded, counter)
  }

  predicate Rejects(plan: Plan)
  {
    plan.Settle? && plan.outcome.CheckpointRejected?
  }

  lemma {:induction false} ContinuationRejects(config: HostConfig, body: Body, at: Place, mode: Mode,
                                               p: CheckpointPayload, counter: AttemptCounter, planned: Planned)
    requires p.state.Active? && |p.state.activities| <= U64_MAX && OnTrack(body, p)
    requires at.execution == p.execution.spec
    requires Continues(config, body, at, mode, p, counter, planned)
    ensures Rejects(planned.plan) <==> Blocked(config, body, p, mode.fused, counter)
  {
  }

  lemma {:induction false} TurnRejects(config: HostConfig, body: Body, execution: ExecutionSpec, fused: bool,
                                       loaded: Option<StoredCheckpoint>, counter: AttemptCounter, planned: Planned)
    requires loaded.Some? ==> OnTrack(body, loaded.value.checkpoint.payload)
    requires TurnDue(config, body, execution, fused, loaded, counter, planned)
    ensures Rejects(planned.plan) <==> TurnRefused(config, body, execution, fused, loaded, counter)
  {
    var mode := Mode(fused, if fused then ScheduleExposure else Exposure, Completion);
    var at := Place(execution, RevisionOf(loaded), None);
    if loaded.None? {
      var empty := EmptyPayload(execution, config.limits);
      if Roomy(empty.execution) { ContinuationRejects(config, body, at, mode, empty, counter, planned); }
    } else if Loadable(loaded.value.checkpoint, execution, config.limits) {
      var p := loaded.value.checkpoint.payload;
      if p.state.Active? && !HasPending(p.state.activities) {
        ContinuationRejects(config, body, at, mode, p, counter, planned);
      }
    }
  }

  lemma {:induction false} ObservationRejects(config: HostConfig, body: Body, execution: ExecutionSpec,
                                              activity: LogicalActivityId, result: Bytes, alone: bool,
                                              loaded: Option<StoredCheckpoint>, counter: AttemptCounter,
                                              planned: Planned)
    requires ObservationDue(config, body, execution, activity, result, alone, loaded, counter, planned)
    ensures Rejects(planned.plan)
       <==> ObservationRefused(config, body, execution, activity, result, alone, loaded, counter)
  {
    if !alone && Recordable(config, execution, activity, result, loaded) {
      ContinuationRejects(config, body, Place(execution, Some(loaded.value.revision), Some(result)),
                          Mode(true, ObservationProgression, ObservationProgression),
                          Completing(loaded.value.checkpoint.payload, result), counter, planned);
    }
  }

  /** A host refuses a checkpoint exactly when the step that is due cannot be stored, reserved or bounded. */
  lemma {:induction false} RefusedExactlyWhenItDoesNotFit(config: HostConfig, body: Body, op: Operation,
                                                          loaded: Option<StoredCheckpoint>, counter: AttemptCounter)
    requires loaded.Some? ==> OnTrack(body, loaded.value.checkpoint.payload)
    ensures Rejects(PlanOperation(config, body, op, loaded, counter).plan)
       <==> Refused(config, body, op, loaded, counter)
  {
    EveryPlanIsDue(config, body, op, loaded, counter);
    var planned := PlanOperation(config, body, op, loaded, counter);
    match op
    case Turn(execution) => TurnRejects(config, body, execution, false, loaded, counter, planned);
    case TurnAndExpose(execution) => TurnRejects(config, body, execution, true, loaded, counter, planned);
    case Observe(execution, activity, result) =>
      ObservationRejects(config, body, execution, activity, result, true, loaded, counter, planned);
    case ObserveAndTurn(execution, activity, result) =>
      ObservationRejects(config, body, execution, activity, result, false, loaded, counter, planned);
  }

  function ResultOf(op: Operation): Option<Bytes>
  {
    match op
    case Turn(_) => None
    case TurnAndExpose(_) => None
    case Observe(_, _, result) => Some(result)
    case ObserveAndTurn(_, _, result) => Some(result)
  }

  /** What a host may answer without writing anything. */
  ghost predicate Honest(config: HostConfig, body: Body, op: Operation, loaded: Option<StoredCheckpoint>,
                         counter: AttemptCounter, outcome: HostOutcome)
    requires loaded.Some? ==> OnTrack(body, loaded.value.checkpoint.payload)
  {
    match outcome
    case NondeterminismFound(error) =>
      && error == UnsupportedSuspension
      && AllCompleted(Settled(HistoryOf(PayloadOf(loaded))))
      && Direct(body, op.execution, Recorded(HistoryOf(PayloadOf(loaded))) + AsSeq(ResultOf(op))).Stuck?
    case WorkflowCompleted(result, revision, _) =>
      && loaded.Some? && revision == loaded.value.revision
      && loaded.value.checkpoint.payload.state.Terminal?
      && loaded.value.checkpoint.payload.state.outcome == result
    case Quarantined(activity, attempt) =>
      && loaded.Some? && HistoryOf(PayloadOf(loaded)) != []
      && Final(HistoryOf(PayloadOf(loaded))).LogicalId(op.execution.executionId) == activity
      && Final(HistoryOf(PayloadOf(loaded))).state == DispatchExposed(attempt)
    case CheckpointRejected(_) => Refused(config, body, op, loaded, counter)
    case ObservationRejected(_) =>
      && ResultOf(op).Some?
      && !Recordable(config, op.execution, op.activity, op.result, loaded)
      && Unrecordable(config, op.execution, op.activity, op.result, loaded, outcome)
    case _ => false
  }

  ghost predicate SoundPlan(config: HostConfig, body: Body, op: Operation, loaded: Option<StoredCheckpoint>,
                            counter: AttemptCounter, plan: Plan)
    requires loaded.Some? ==> OnTrack(body, loaded.value.checkpoint.payload)
  {
    match plan
    case Settle(outcome) => Honest(config, body, op, loaded, counter, outcome)
    case Propose(_) => LegalWrite(body, op.execution, loaded, plan)
  }

  /** What is settled behind a settled history: the direct run is stuck, or its next step does not fit. */
  lemma {:induction false} SettledContinuation(config: HostConfig, body: Body, at: Place, mode: Mode,
                                               p: CheckpointPayload, counter: AttemptCounter, planned: Planned)
    requires p.state.Active? && |p.state.activities| <= U64_MAX && OnTrack(body, p)
    requires Continues(config, body, at, mode, p, counter, planned) && planned.plan.Settle?
    requires at.execution == p.execution.spec
    ensures || Rejects(planned.plan)
            || (planned.plan.outcome == NondeterminismFound(UnsupportedSuspension)
                && Direct(body, p.execution.spec, Recorded(p.state.activities)).Stuck?)
  {
  }

  lemma {:induction false} DueTurnIsHonest(config: HostConfig, body: Body, op: Operation, fused: bool,
                                           loaded: Option<StoredCheckpoint>, counter: AttemptCounter,
                                           planned: Planned)
    requires loaded.Some? ==> OnTrack(body, loaded.value.checkpoint.payload)
    requires op == (if fused then TurnAndExpose(op.execution) else Turn(op.execution))
    requires TurnDue(config, body, op.execution, fused, loaded, counter, planned) && planned.plan.Settle?
    requires Rejects(planned.plan) <==> Refused(config, body, op, loaded, counter)
    ensures Honest(config, body, op, loaded, counter, planned.plan.outcome)
  {
    var execution := op.execution;
    var mode := Mode(fused, if fused then ScheduleExposure else Exposure, Completion);
    var at := Place(execution, RevisionOf(loaded), None);
    if !Rejects(planned.plan) {
      var history := HistoryOf(PayloadOf(loaded));
      if loaded.None? {
        var empty := EmptyPayload(execution, config.limits);
        SettledContinuation(config, body, at, mode, empty, counter, planned);
        assert Recorded(history) + AsSeq(None) == Recorded(empty.state.activities);
      } else if loaded.value.checkpoint.payload.state.Active? && !HasPending(history) {
        SettledContinuation(config, body, at, mode, loaded.value.checkpoint.payload, counter, planned);
        assert Recorded(history) + AsSeq(None) == Recorded(history);
      }
    }
  }

  lemma {:induction false} DueObservationIsHonest(config: HostConfig, body: Body, op: Operation,
                                                  loaded: Option<StoredCheckpoint>, counter: AttemptCounter,
                                                  planned: Planned)
    requires loaded.Some? ==> OnTrack(body, loaded.value.checkpoint.payload)
    requires ResultOf(op).Some?
    requires Due(config, body, op, loaded, counter, planned) && planned.plan.Settle?
    requires Rejects(planned.plan) <==> Refused(config, body, op, loaded, counter)
    ensures Honest(config, body, op, loaded, counter, planned.plan.outcome)
  {
    if !Rejects(planned.plan) && Recordable(config, op.execution, op.activity, op.result, loaded) {
      var p := loaded.value.checkpoint.payload;
      RecordingIsOnTrack(body, op.result, p);
      SettledContinuation(config, body, Place(op.execution, Some(loaded.value.revision), Some(op.result)),
                          Mode(true, ObservationProgression, ObservationProgression),
                          Completing(p, op.result), counter, planned);
    }
  }

  /** Whatever a host does with an on-track checkpoint is a legal write or an honest answer. */
  lemma {:induction false} EveryPlanIsSound(config: HostConfig, body: Body, op: Operation,
                                            loaded: Option<StoredCheckpoint>, counter: AttemptCounter)
    requires loaded.Some? ==> OnTrack(body, loaded.value.checkpoint.payload)
    ensures SoundPlan(config, body, op, loaded, counter, PlanOperation(config, body, op, loaded, counter).plan)
  {
    var planned := PlanOperation(config, body, op, loaded, counter);
    EveryWriteIsLegal(config, body, op, loaded, counter);
    if planned.plan.Settle? {
      EveryPlanIsDue(config, body, op, loaded, counter);
      RefusedExactlyWhenItDoesNotFit(config, body, op, loaded, counter);
      match op
      case Turn(_) => DueTurnIsHonest(config, body, op, false, loaded, counter, planned);
      case TurnAndExpose(_) => DueTurnIsHonest(config, body, op, true, loaded, counter, planned);
      case Observe(_, _, _) => DueObservationIsHonest(config, body, op, loaded, counter, planned);
      case ObserveAndTurn(_, _, _) => DueObservationIsHonest(config, body, op, loaded, counter, planned);
    }
  }
}
