/** Every write a host proposes moves a checkpoint one legal step along the direct run. */
module Progress {
  import opened Basics
  import opened Identity
  import opened CheckpointJson
  import opened Checkpoint
  import opened Workflow
  import opened Replay
  import opened Store
  import opened Host

  // ---------------------------------------------------------------- steps that keep agreement

  function Final(history: seq<ActivityRecord>): ActivityRecord
    requires history != []
  {
    history[|history| - 1]
  }

  lemma {:induction false} PendingKeepsRunWaiting(body: Body, spec: ExecutionSpec, history: seq<ActivityRecord>,
                                                  observed: seq<Bytes>)
    requires Agrees(body, spec, Active(history), observed) && HasPending(history)
    ensures Direct(body, spec, observed) == Waiting(Specs(history))
  {
    RunKeepsCalls(body, spec, [], observed);
  }

  lemma {:induction false} SettledRun(body: Body, spec: ExecutionSpec, history: seq<ActivityRecord>,
                                      observed: seq<Bytes>)
    requires Agrees(body, spec, Active(history), observed) && !HasPending(history)
    ensures var run := Direct(body, spec, observed);
            && |history| == |observed| && |history| <= |run.calls| <= |history| + 1
            && (run.Waiting? <==> |run.calls| == |history| + 1)
            && (!run.Waiting? ==> run.calls == Specs(history))
  {
    RunKeepsCalls(body, spec, [], observed);
  }

  lemma {:induction false} GrowingAgrees(body: Body, spec: ExecutionSpec, history: seq<ActivityRecord>,
                                         observed: seq<Bytes>, state: ActivityState)
    requires |history| <= U64_MAX && !state.Completed?
    requires Agrees(body, spec, Active(history), observed) && !HasPending(history)
    requires Direct(body, spec, observed).Waiting?
    ensures |Direct(body, spec, observed).calls| > |history|
    ensures var next := Direct(body, spec, observed).calls[|history|];
            Agrees(body, spec, Active(history + [ActivityRecord(|history|, next, state)]), observed)
  {
    SettledRun(body, spec, history, observed);
    var calls := Direct(body, spec, observed).calls;
    var grown := history + [ActivityRecord(|history|, calls[|history|], state)];
    assert Settled(grown) == history;
    assert calls[..|grown|] == Specs(grown) by {
      assert forall i :: 0 <= i < |history| ==> calls[i] == calls[..|history|][i] == Specs(history)[i];
    }
  }

  lemma {:induction false} ReplacingPendingAgrees(body: Body, spec: ExecutionSpec, history: seq<ActivityRecord>,
                                                  observed: seq<Bytes>, state: ActivityState)
    requires Agrees(body, spec, Active(history), observed) && HasPending(history) && !state.Completed?
    ensures Agrees(body, spec, Active(WithFinalState(history, state)), observed)
  {
    var replaced := WithFinalState(history, state);
    assert Settled(replaced) == Settled(history);
    assert Specs(replaced) == Specs(history);
  }

  lemma {:induction false} ObservingAgrees(body: Body, spec: ExecutionSpec, history: seq<ActivityRecord>,
                                           observed: seq<Bytes>, result: Bytes)
    requires Agrees(body, spec, Active(history), observed) && HasPending(history)
    requires |result| <= Final(history).spec.maxResultBytes
    ensures Agrees(body, spec, Active(WithFinalState(history, Completed(result))), observed + [result])
  {
    var done := WithFinalState(history, Completed(result));
    PendingKeepsRunWaiting(body, spec, history, observed);
    RunResumes(body, spec, [], observed, result);
    RunKeepsCalls(body, spec, Specs(history), observed + [result]);
    assert Settled(done) == done;
    assert Results(done) == observed + [result];
    assert Specs(done) == Specs(history);
  }

  lemma {:induction false} FinishingAgrees(body: Body, spec: ExecutionSpec, history: seq<ActivityRecord>,
                                           observed: seq<Bytes>)
    requires Agrees(body, spec, Active(history), observed) && !HasPending(history) && |history| <= U64_MAX
    requires Direct(body, spec, observed).Finished?
    ensures Agrees(body, spec, Terminal(Direct(body, spec, observed).outcome, |history|), observed)
  {
    SettledRun(body, spec, history, observed);
  }

  // ---------------------------------------------------------------- what evaluation can answer

  /** The results a stored payload already holds. */
  function Recorded(history: seq<ActivityRecord>): seq<Bytes>
    requires AllCompleted(Settled(history))
  {
    Results(Settled(history))
  }

  /** An active payload that stands where its own recorded results lead the body. */
  ghost predicate OnTrack(body: Body, p: CheckpointPayload)
  {
    p.state.Active? ==>
      && AllCompleted(Settled(p.state.activities))
      && Agrees(body, p.execution.spec, p.state, Recorded(p.state.activities))
  }

  /** The evaluation of an on-track payload says exactly where the direct run stands. */
  ghost predicate Faithful(body: Body, start: CheckpointPayload, e: Evaluation)
    requires OnTrack(body, start)
  {
    match start.state
    case Terminal(outcome, count) => e == EvalTerminal(outcome, count)
    case Active(history) =>
      var spec := start.execution.spec;
      var run := Direct(body, spec, Recorded(history));
      match e
      case EvalScheduled(activity, c) =>
        && !HasPending(history) && run.Waiting? && |run.calls| > |history|
        && |history| <= U64_MAX
        && activity == LogicalActivityId(spec.executionId, |history|, run.calls[|history|])
        && c.payload == start.(state := Active(history + [ActivityRecord(|history|, run.calls[|history|], Scheduled)]))
      case EvalPending(activity, state) =>
        HasPending(history) && activity == Final(history).LogicalId(spec.executionId) && state == Final(history).state
      case EvalComplete(outcome, count, c) =>
        !HasPending(history) && run.Finished? && run.outcome == outcome && count == |history| && c.payload == start
      case EvalStalled => !HasPending(history) && run.Stuck?
      case EvalRejected(_) => true
      case EvalNondeterminism(_) => false
      case EvalTerminal(_, _) => false
  }

  lemma {:induction false} ClassificationIsFaithful(body: Body, start: CheckpointPayload, limits: CheckpointLimits)
    requires start.state.Active? && OnTrack(body, start) && |start.state.activities| <= U64_MAX
    ensures Faithful(body, start, Classify(start.execution.spec, start,
                                           Drive(body, start.execution.spec, start.state.activities, 0), limits))
  {
    var history, spec := start.state.activities, start.execution.spec;
    ReplayFindsDirectRun(body, spec, history, Recorded(history));
    if !HasPending(history) { SettledRun(body, spec, history, Recorded(history)); }
  }

  lemma {:induction false} EmptyIsOnTrack(body: Body, spec: ExecutionSpec, limits: CheckpointLimits)
    ensures OnTrack(body, EmptyPayload(spec, limits))
    ensures AllCompleted(Settled([])) && Recorded([]) == []
  {
  }

  lemma {:induction false} EvaluationIsFaithful(body: Body, spec: ExecutionSpec, checkpoint: Option<CheckpointEnvelope>,
                                                limits: CheckpointLimits)
    requires checkpoint.Some? ==> OnTrack(body, checkpoint.value.payload)
    ensures var start := StartingPayload(spec, checkpoint, limits);
            start.Ok? ==> OnTrack(body, start.value)
                          && Faithful(body, start.value, Evaluate(body, spec, checkpoint, limits))
    ensures StartingPayload(spec, checkpoint, limits).Err? ==>
              Evaluate(body, spec, checkpoint, limits).EvalRejected?
  {
    EmptyIsOnTrack(body, spec, limits);
    var start := StartingPayload(spec, checkpoint, limits);
    if start.Ok? && start.value.state.Active? {
      ClassificationIsFaithful(body, start.value, limits);
    }
  }

  // ---------------------------------------------------------------- legal writes

  function HistoryOf(from: Option<CheckpointPayload>): seq<ActivityRecord>
  {
    if from.Some? && from.value.state.Active? then from.value.state.activities else []
  }

  /** The history once the result carried by the write, if any, completes the final record. */
  function AfterObservation(history: seq<ActivityRecord>, observed: Option<Bytes>): seq<ActivityRecord>
  {
    if observed.Some? && history != [] then WithFinalState(history, Completed(observed.value)) else history
  }

  function AsSeq(observed: Option<Bytes>): seq<Bytes>
  {
    match observed
    case None => []
    case Some(r) => [r]
  }

  /** What a write may do to the payload it was computed from: record at most one result, for the
      exposed final activity; then schedule, expose or finish, without touching anything earlier. */
  ghost predicate LegalShape(from: Option<CheckpointPayload>, p: Proposal)
  {
    var to := p.checkpoint.payload;
    var before := HistoryOf(from);
    var after := AfterObservation(before, p.observed);
    && to.execution.spec.executionId == p.executionId
    && (from.Some? ==> from.value.state.Active? && from.value.execution == to.execution)
    && (p.observed.Some? ==>
          && before != [] && Final(before).state.DispatchExposed?
          && |p.observed.value| <= Final(before).spec.maxResultBytes)
    && match p.purpose
       case ToSchedule(activity) =>
         && p.observed == None && AllCompleted(after) && to.state.Active? && |after| <= U64_MAX
         && to.state.activities == after + [ActivityRecord(|after|, activity.spec, Scheduled)]
         && activity == LogicalActivityId(p.executionId, |after|, activity.spec)
       case ToExpose(permit) =>
         && to.state.Active? && to.state.activities != []
         && Final(to.state.activities).state == DispatchExposed(permit.attempt)
         && permit.activity == Final(to.state.activities).LogicalId(p.executionId)
         && var n := |to.state.activities| - 1;
            && permit.activity.sequence == n
            && if AllCompleted(after) then to.state.activities[..n] == after
            else
              && p.observed == None && after != [] && Final(after).state.Scheduled?
              && to.state.activities == WithFinalState(after, DispatchExposed(permit.attempt))
       case ToObserve(activity) =>
         && p.observed.Some? && to.state == Active(after)
         && activity == Final(before).LogicalId(p.executionId)
       case ToComplete(outcome) =>
         AllCompleted(after) && |after| <= U64_MAX && to.state == Terminal(outcome, |after|)
  }

  /** A legal write from an on-track payload leads to where the direct run stands
      on the recorded results and the one this write adds. */
  ghost predicate Legal(body: Body, from: Option<CheckpointPayload>, p: Proposal)
  {
    var to := p.checkpoint.payload;
    && LegalShape(from, p)
    && AllCompleted(Settled(HistoryOf(from)))
    && Agrees(body, to.execution.spec, to.state, Recorded(HistoryOf(from)) + AsSeq(p.observed))
  }

  function PayloadOf(loaded: Option<StoredCheckpoint>): Option<CheckpointPayload>
  {
    match loaded
    case None => None
    case Some(stored) => Some(stored.checkpoint.payload)
  }

  lemma {:induction false} LinearIsSettled(history: seq<ActivityRecord>)
    requires LinearHistory(history)
    ensures AllCompleted(Settled(history))
    ensures AllCompleted(history) <==> !HasPending(history)
  {
  }

  /** All that an exposure proposal can contain. */
  lemma {:induction false} ExposureProposal(config: HostConfig, execution: ExecutionSpec,
                                            expected: Option<StorageRevision>, c: CheckpointEnvelope,
                                            activity: LogicalActivityId, boundary: PersistenceBoundary,
                                            observed: Option<Bytes>, counter: AttemptCounter)
    requires PlanExposure(config, execution, expected, c, activity, boundary, observed, counter).plan.Propose?
    ensures c.payload.state.Active? && c.payload.state.activities != []
    ensures c.payload.execution.spec == execution
    ensures var attempt := AttemptId(config.hostEpoch, counter);
            var p := PlanExposure(config, execution, expected, c, activity, boundary, observed, counter).plan.proposal;
            && p.executionId == execution.executionId && p.expected == expected && p.observed == observed
            && p.purpose == ToExpose(DispatchPermit(activity, attempt))
            && p.checkpoint.payload
               == c.payload.(state := Active(WithFinalState(c.payload.state.activities, DispatchExposed(attempt))))
  {
  }

  /** The checkpoint an exposure starts from: the payload it was loaded as, perhaps with an
      observation recorded and a new record scheduled, all of it on the direct run. */
  ghost predicate Exposable(body: Body, from: Option<CheckpointPayload>, c: CheckpointEnvelope,
                            observed: Option<Bytes>)
  {
    var before := HistoryOf(from);
    var after := AfterObservation(before, observed);
    && c.payload.state.Active? && c.payload.state.activities != []
    && Final(c.payload.state.activities).state.Scheduled?
    && (from.Some? ==> from.value.state.Active? && from.value.execution == c.payload.execution)
    && AllCompleted(Settled(before))
    && Agrees(body, c.payload.execution.spec, c.payload.state, Recorded(before) + AsSeq(observed))
    && (observed.Some? ==>
          && before != [] && Final(before).state.DispatchExposed?
          && |observed.value| <= Final(before).spec.maxResultBytes)
    && (if AllCompleted(after) then c.payload.state.activities[..|c.payload.state.activities| - 1] == after
        else observed == None && c.payload.state.activities == after)
  }

  lemma {:induction false} ExposedIsLegal(body: Body, from: Option<CheckpointPayload>, c: CheckpointEnvelope,
                                          attempt: AttemptId, p: Proposal)
    requires Exposable(body, from, c, p.observed)
    requires p.executionId == c.payload.execution.spec.executionId
    requires p.purpose == ToExpose(DispatchPermit(Final(c.payload.state.activities).LogicalId(p.executionId), attempt))
    requires p.checkpoint.payload
          == c.payload.(state := Active(WithFinalState(c.payload.state.activities, DispatchExposed(attempt))))
    ensures Legal(body, from, p)
  {
    var history := c.payload.state.activities;
    ReplacingPendingAgrees(body, c.payload.execution.spec, history, Recorded(HistoryOf(from)) + AsSeq(p.observed),
                           DispatchExposed(attempt));
    var exposed := WithFinalState(history, DispatchExposed(attempt));
    assert exposed[..|exposed| - 1] == history[..|history| - 1];
    assert Final(history).sequence == |history| - 1;
  }

  /** Exposing the pending final record of an on-track checkpoint is legal. */
  lemma {:induction false} ExposureIsLegal(config: HostConfig, body: Body, execution: ExecutionSpec,
                                           from: Option<CheckpointPayload>, expected: Option<StorageRevision>,
                                           c: CheckpointEnvelope, activity: LogicalActivityId,
                                           boundary: PersistenceBoundary, observed: Option<Bytes>,
                                           counter: AttemptCounter)
    requires Exposable(body, from, c, observed)
    requires activity == Final(c.payload.state.activities).LogicalId(execution.executionId)
    ensures var planned := PlanExposure(config, execution, expected, c, activity, boundary, observed, counter);
            planned.plan.Propose? ==>
              && Legal(body, from, planned.plan.proposal)
              && planned.plan.proposal.expected == expected
              && planned.plan.proposal.executionId == execution.executionId
  {
    var planned := PlanExposure(config, execution, expected, c, activity, boundary, observed, counter);
    if planned.plan.Propose? {
      ExposureProposal(config, execution, expected, c, activity, boundary, observed, counter);
      ExposedIsLegal(body, from, c, AttemptId(config.hostEpoch, counter), planned.plan.proposal);
    }
  }

  lemma {:induction false} CompletionProposal(config: HostConfig, execution: ExecutionSpec,
                                              expected: Option<StorageRevision>, outcome: TerminalOutcome, count: U64,
                                              c: CheckpointEnvelope, boundary: PersistenceBoundary,
                                              observed: Option<Bytes>)
    ensures var plan := PlanCompletion(config, execution, expected, outcome, count, c, boundary, observed);
            if plan.Settle? then plan.outcome.CheckpointRejected?
            else
              var p := plan.proposal;
              && p.executionId == execution.executionId && p.expected == expected && p.observed == observed
              && p.purpose == ToComplete(outcome) && c.payload.execution.spec == execution
              && p.checkpoint.payload == CheckpointPayload(c.payload.execution, Terminal(outcome, count))
  {
  }

  /** A settled checkpoint whose direct run has finished. */
  ghost predicate Finishable(body: Body, from: Option<CheckpointPayload>, c: CheckpointEnvelope,
                             observed: Option<Bytes>)
  {
    var before := HistoryOf(from);
    && c.payload.state.Active? && |c.payload.state.activities| <= U64_MAX
    && (from.Some? ==> from.value.state.Active? && from.value.execution == c.payload.execution)
    && AllCompleted(Settled(before))
    && c.payload.state.activities == AfterObservation(before, observed)
    && !HasPending(c.payload.state.activities)
    && (observed.Some? ==>
          && before != [] && Final(before).state.DispatchExposed?
          && |observed.value| <= Final(before).spec.maxResultBytes)
    && Agrees(body, c.payload.execution.spec, c.payload.state, Recorded(before) + AsSeq(observed))
    && Direct(body, c.payload.execution.spec, Recorded(before) + AsSeq(observed)).Finished?
  }

  /** Finishing from an on-track checkpoint whose direct run has finished is legal. */
  lemma {:induction false} CompletionIsLegal(config: HostConfig, body: Body, execution: ExecutionSpec,
                                             from: Option<CheckpointPayload>, expected: Option<StorageRevision>,
                                             outcome: TerminalOutcome, count: U64, c: CheckpointEnvelope,
                                             boundary: PersistenceBoundary, observed: Option<Bytes>)
    requires Finishable(body, from, c, observed) && count == |c.payload.state.activities|
    requires Direct(body, c.payload.execution.spec, Recorded(HistoryOf(from)) + AsSeq(observed)).outcome == outcome
    ensures var plan := PlanCompletion(config, execution, expected, outcome, count, c, boundary, observed);
            plan.Propose? ==>
              && Legal(body, from, plan.proposal)
              && plan.proposal.expected == expected && plan.proposal.executionId == execution.executionId
  {
    CompletionProposal(config, execution, expected, outcome, count, c, boundary, observed);
    FinishingAgrees(body, c.payload.execution.spec, c.payload.state.activities,
                    Recorded(HistoryOf(from)) + AsSeq(observed));
    LinearIsSettled(c.payload.state.activities);
  }

  /** `to` is `from` with an in-bound result recorded for its exposed final activity, on the direct run. */
  ghost predicate RecordsResult(body: Body, activity: LogicalActivityId, result: Bytes,
                                from: CheckpointPayload, to: CheckpointPayload)
  {
    && from.state.Active? && from.state.activities != []
    && OnTrack(body, from) && OnTrack(body, to)
    && Final(from.state.activities).state.DispatchExposed?
    && activity == Final(from.state.activities).LogicalId(from.execution.spec.executionId)
    && |result| <= Final(from.state.activities).spec.maxResultBytes
    && to == from.(state := Active(WithFinalState(from.state.activities, Completed(result))))
    && !HasPending(to.state.activities)
    && Recorded(to.state.activities) == Recorded(from.state.activities) + [result]
  }

  lemma {:induction false} RecordingIsOnTrack(body: Body, result: Bytes, from: CheckpointPayload)
    requires OnTrack(body, from) && from.state.Active? && HasPending(from.state.activities)
    requires Final(from.state.activities).state.DispatchExposed?
    requires |result| <= Final(from.state.activities).spec.maxResultBytes
    ensures RecordsResult(body, Final(from.state.activities).LogicalId(from.execution.spec.executionId), result, from,
                          from.(state := Active(WithFinalState(from.state.activities, Completed(result)))))
  {
    ObservingAgrees(body, from.execution.spec, from.state.activities, Recorded(from.state.activities), result);
  }

  lemma {:induction false} AcceptedObservationIs(config: HostConfig, execution: ExecutionSpec,
                                                 activity: LogicalActivityId, result: Bytes, stored: StoredCheckpoint)
    requires Observed(config, execution, activity, result, Some(stored)).Ok?
    ensures var from := stored.checkpoint.payload;
            && from.execution.spec == execution && from.state.Active? && from.state.activities != []
            && Final(from.state.activities).state.DispatchExposed?
            && activity == Final(from.state.activities).LogicalId(execution.executionId)
            && |result| <= Final(from.state.activities).spec.maxResultBytes
            && Observed(config, execution, activity, result, Some(stored)).value.payload
               == from.(state := Active(WithFinalState(from.state.activities, Completed(result))))
  {
  }

  /** An accepted observation records its result for the activity it names. */
  lemma {:induction false} ObservationRecords(config: HostConfig, body: Body, execution: ExecutionSpec,
                                              activity: LogicalActivityId, result: Bytes, stored: StoredCheckpoint)
    requires OnTrack(body, stored.checkpoint.payload)
    requires Observed(config, execution, activity, result, Some(stored)).Ok?
    ensures RecordsResult(body, activity, result, stored.checkpoint.payload,
                          Observed(config, execution, activity, result, Some(stored)).value.payload)
    ensures stored.checkpoint.payload.execution.spec == execution
  {
    AcceptedObservationIs(config, execution, activity, result, stored);
    RecordingIsOnTrack(body, result, stored.checkpoint.payload);
  }

  lemma {:induction false} RecordingIsLegal(body: Body, activity: LogicalActivityId, result: Bytes,
                                            from: CheckpointPayload, p: Proposal)
    requires RecordsResult(body, activity, result, from, p.checkpoint.payload)
    requires p.observed == Some(result) && p.purpose == ToObserve(activity)
    requires p.executionId == from.execution.spec.executionId
    ensures Legal(body, Some(from), p)
  {
  }

  /** If the plan writes at all, it is a legal step from what was loaded, for the execution it serves. */
  ghost predicate LegalWrite(body: Body, execution: ExecutionSpec, loaded: Option<StoredCheckpoint>, plan: Plan)
  {
    plan.Propose? ==>
      && Legal(body, PayloadOf(loaded), plan.proposal)
      && plan.proposal.expected == RevisionOf(loaded) && plan.proposal.executionId == execution.executionId
  }

  /** Acting on a faithful evaluation of what was loaded writes legally. */
  lemma {:induction false} ActingWritesLegally(config: HostConfig, body: Body, execution: ExecutionSpec, fused: bool,
                                               loaded: Option<StoredCheckpoint>, start: CheckpointPayload,
                                               e: Evaluation, counter: AttemptCounter)
    requires OnTrack(body, start) && start.state.Active? && start.execution.spec == execution
    requires Faithful(body, start, e)
    requires if loaded.Some? then start == loaded.value.checkpoint.payload else start.state.activities == []
    ensures LegalWrite(body, execution, loaded, ActOn(config, execution, fused, loaded, e, counter).plan)
  {
    var from, history := PayloadOf(loaded), start.state.activities;
    assert HistoryOf(from) == history && AfterObservation(history, None) == history;
    assert Recorded(history) + AsSeq(None) == Recorded(history);
    LinearIsSettled(history);
    var boundary := if fused then ScheduleExposure else Exposure;
    match e
    case EvalScheduled(activity, c) =>
      GrowingAgrees(body, execution, history, Recorded(history), Scheduled);
      ExposureIsLegal(config, body, execution, from, RevisionOf(loaded), c, activity, boundary, None, counter);
    case EvalPending(activity, state) =>
      if !state.DispatchExposed? && loaded.Some? {
        ExposureIsLegal(config, body, execution, from, RevisionOf(loaded), loaded.value.checkpoint, activity,
                        boundary, None, counter);
      }
    case EvalComplete(outcome, count, c) =>
      CompletionProposal(config, execution, RevisionOf(loaded), outcome, count, c, Completion, None);
      CompletionIsLegal(config, body, execution, from, RevisionOf(loaded), outcome, count, c, Completion, None);
    case EvalStalled =>
    case EvalRejected(_) =>
  }

  lemma {:induction false} TurnWritesLegally(config: HostConfig, body: Body, execution: ExecutionSpec, fused: bool,
                                             loaded: Option<StoredCheckpoint>, counter: AttemptCounter)
    requires loaded.Some? ==> OnTrack(body, loaded.value.checkpoint.payload)
    ensures LegalWrite(body, execution, loaded, PlanTurn(config, body, execution, fused, loaded, counter).plan)
  {
    var shortcut := if loaded.Some? then Shortcut(config, execution, loaded.value) else None;
    if shortcut.None? {
      EvaluationIsFaithful(body, execution, CheckpointOf(loaded), config.limits);
      var start := StartingPayload(execution, CheckpointOf(loaded), config.limits);
      if start.Ok? {
        ActingWritesLegally(config, body, execution, fused, loaded, start.value,
                      Evaluate(body, execution, CheckpointOf(loaded), config.limits), counter);
      }
    }
  }

  lemma {:induction false} ObserveWritesLegally(config: HostConfig, body: Body, execution: ExecutionSpec,
                                                activity: LogicalActivityId, result: Bytes,
                                                loaded: Option<StoredCheckpoint>)
    requires loaded.Some? ==> OnTrack(body, loaded.value.checkpoint.payload)
    ensures LegalWrite(body, execution, loaded, PlanObserve(config, execution, activity, result, loaded))
  {
    if Observed(config, execution, activity, result, loaded).Ok? {
      ObservationRecords(config, body, execution, activity, result, loaded.value);
      RecordingIsLegal(body, activity, result, loaded.value.checkpoint.payload,
                       PlanObserve(config, execution, activity, result, loaded).proposal);
    }
  }

  /** Progressing from the checkpoint that records an observation writes legally. */
  lemma {:induction false} ProgressingWritesLegally(config: HostConfig, body: Body, execution: ExecutionSpec,
                                                    activity: LogicalActivityId, result: Bytes,
                                                    stored: StoredCheckpoint, start: CheckpointPayload, e: Evaluation,
                                                    counter: AttemptCounter)
    requires RecordsResult(body, activity, result, stored.checkpoint.payload, start)
    requires start.execution.spec == execution
    requires Faithful(body, start, e)
    ensures LegalWrite(body, execution, Some(stored),
                       ProgressOn(config, execution, result, stored, e, counter).plan)
  {
    var from, history := Some(stored.checkpoint.payload), start.state.activities;
    assert history == AfterObservation(HistoryOf(from), Some(result));
    LinearIsSettled(history);
    match e
    case EvalScheduled(next, c) =>
      GrowingAgrees(body, execution, history, Recorded(history), Scheduled);
      ExposureIsLegal(config, body, execution, from, Some(stored.revision), c, next,
                      ObservationProgression, Some(result), counter);
    case EvalComplete(outcome, count, c) =>
      CompletionProposal(config, execution, Some(stored.revision), outcome, count, c,
                         ObservationProgression, Some(result));
      CompletionIsLegal(config, body, execution, from, Some(stored.revision), outcome, count, c,
                        ObservationProgression, Some(result));
    case EvalStalled =>
    case EvalRejected(_) =>
  }

  lemma {:induction false} ObserveAndTurnWritesLegally(config: HostConfig, body: Body, execution: ExecutionSpec,
                                                       activity: LogicalActivityId, result: Bytes,
                                                       loaded: Option<StoredCheckpoint>, counter: AttemptCounter)
    requires loaded.Some? ==> OnTrack(body, loaded.value.checkpoint.payload)
    ensures LegalWrite(body, execution, loaded,
                       PlanObserveAndTurn(config, body, execution, activity, result, loaded, counter).plan)
  {
    var recorded := Observed(config, execution, activity, result, loaded);
    if recorded.Ok? {
      ObservationRecords(config, body, execution, activity, result, loaded.value);
      EvaluationIsFaithful(body, execution, Some(recorded.value), config.limits);
      var start := StartingPayload(execution, Some(recorded.value), config.limits);
      if start.Ok? {
        ProgressingWritesLegally(config, body, execution, activity, result, loaded.value, start.value,
                           Evaluate(body, execution, Some(recorded.value), config.limits), counter);
      }
    }
  }

  /** Whatever a host writes over an on-track checkpoint is a legal step from it. */
  lemma {:induction false} EveryWriteIsLegal(config: HostConfig, body: Body, op: Operation,
                                             loaded: Option<StoredCheckpoint>, counter: AttemptCounter)
    requires loaded.Some? ==> OnTrack(body, loaded.value.checkpoint.payload)
    ensures LegalWrite(body, op.execution, loaded, PlanOperation(config, body, op, loaded, counter).plan)
  {
    match op
    case Turn(execution) => TurnWritesLegally(config, body, execution, false, loaded, counter);
    case TurnAndExpose(execution) => TurnWritesLegally(config, body, execution, true, loaded, counter);
    case Observe(execution, activity, result) =>
      ObserveWritesLegally(config, body, execution, activity, result, loaded);
    case ObserveAndTurn(execution, activity, result) =>
      ObserveAndTurnWritesLegally(config, body, execution, activity, result, loaded, counter);
  }
}
