/** The durable host as an object: an attempt counter, and operations that drive a store. */
module DurableHosts {
  import opened Basics
  import opened Identity
  import opened CheckpointJson
  import opened Checkpoint
  import opened Workflow
  import opened Replay
  import opened Store
  import opened Host
  import opened Progress
  import opened Duties
  import opened Protocol

  /** One whole operation against a store: what it loaded decides the plan, and the plan's one
      compare-and-swap, if any, decides the report. */
  ghost predicate Performs(config: HostConfig, body: Body, op: Operation, loadError: Option<StoreErrorKind>,
                           counter: AttemptCounter, before: StoreState,
                           counter': nat, after: StoreState, outcome: HostOutcome)
  {
    if loadError.Some? then
      outcome == StoreFailed(LoadOperation, loadError.value) && after == before && counter' == counter
    else
      var planned := PlanOperation(config, body, op, Lookup(before, op.execution.executionId), counter);
      && counter' == planned.counter
      && match planned.plan
         case Settle(settled) => outcome == settled && after == before
         case Propose(p) =>
           exists r :: CasAllowed(before, p.executionId, p.expected, p.checkpoint, after, r)
                       && outcome == Conclude(p, r)
  }

  /** What a report of progress says was written. */
  function PurposeOf(outcome: HostOutcome): Option<Purpose>
  {
    match outcome
    case DispatchPermitted(permit, _, _) => Some(ToExpose(permit))
    case ObservationAccepted(activity, _) => Some(ToObserve(activity))
    case WorkflowCompleted(result, _, _) => Some(ToComplete(result))
    case ScheduleAccepted(activity, _) => Some(ToSchedule(activity))
    case _ => None
  }

  /** What a caller is told of the store's answer: every answer has a report of its own, which names the boundary
      of the write, and an accepted write is reported for its purpose at the revision it got. */
  ghost predicate Tells(p: Proposal, r: CasResult, outcome: HostOutcome)
  {
    && (outcome == ReloadRequired(p.boundary, ReloadConflict) <==> r == Conflict)
    && (outcome == ReloadRequired(p.boundary, ReloadOutcomeUnknown) <==> r == OutcomeUnknown)
    && (forall kind :: outcome == StoreFailed(CasOperation(p.boundary), kind) <==> r == CasResult.Failed(kind))
    && (forall revision :: r == Accepted(revision) <==>
          && PurposeOf(outcome) == Some(p.purpose)
          && match outcome
             case ScheduleAccepted(_, at) => at == revision
             case DispatchPermitted(_, at, boundary) => at == revision && boundary == p.boundary
             case ObservationAccepted(_, at) => at == revision
             case WorkflowCompleted(_, at, boundary) => at == revision && boundary == p.boundary
             case _ => false)
  }

  lemma {:induction false} ConclusionsTell(p: Proposal, r: CasResult)
    ensures Tells(p, r, Conclude(p, r))
  {
  }

  ghost predicate LoadsOnTrack(body: Body, s: StoreState, op: Operation)
  {
    var loaded := Lookup(s, op.execution.executionId);
    loaded.Some? ==> OnTrack(body, loaded.value.checkpoint.payload)
  }

  /** The operation did what was due with what was stored: it answered at once, or wrote once what was due and
      told what became of it. */
  ghost predicate Fulfils(config: HostConfig, body: Body, op: Operation, counter: AttemptCounter, before: StoreState,
                          counter': nat, after: StoreState, outcome: HostOutcome)
    requires LoadsOnTrack(body, before, op)
  {
    var loaded := Lookup(before, op.execution.executionId);
    || (after == before && Due(config, body, op, loaded, counter, Planned(Settle(outcome), counter')))
    || exists p: Proposal, r ::
         && Due(config, body, op, loaded, counter, Planned(Propose(p), counter'))
         && CasAllowed(before, p.executionId, p.expected, p.checkpoint, after, r) && Tells(p, r, outcome)
  }

  /** Whatever is performed on a checkpoint that is on track is what was due. */
  lemma {:induction false} PerformingFulfils(config: HostConfig, body: Body, op: Operation, counter: AttemptCounter,
                                             before: StoreState, counter': nat, after: StoreState,
                                             outcome: HostOutcome)
    requires LoadsOnTrack(body, before, op)
    requires Performs(config, body, op, None, counter, before, counter', after, outcome)
    ensures Fulfils(config, body, op, counter, before, counter', after, outcome)
  {
    var loaded := Lookup(before, op.execution.executionId);
    EveryPlanIsDue(config, body, op, loaded, counter);
    var planned := PlanOperation(config, body, op, loaded, counter);
    assert planned == Planned(planned.plan, counter');
    if planned.plan.Propose? {
      var p := planned.plan.proposal;
      var r :| CasAllowed(before, p.executionId, p.expected, p.checkpoint, after, r) && outcome == Conclude(p, r);
      ConclusionsTell(p, r);
    }
  }

  class DurableHost {
    const store: InMemoryCheckpointStore
    const config: HostConfig
    var nextAttemptCounter: AttemptCounter

    constructor (store: InMemoryCheckpointStore, config: HostConfig)
      ensures this.store == store && this.config == config && nextAttemptCounter == 1
    {
      this.store := store;
      this.config := config;
      nextAttemptCounter := 1;
    }

    /** Attempt counters start above the reserved zero and are never handed out twice. */
    method NextAttempt() returns (attempt: AttemptId)
      requires nextAttemptCounter < U64_MAX
      modifies this`nextAttemptCounter
      ensures attempt == AttemptId(config.hostEpoch, old(nextAttemptCounter))
      ensures nextAttemptCounter == old(nextAttemptCounter) + 1
    {
      attempt := AttemptId(config.hostEpoch, nextAttemptCounter);
      nextAttemptCounter := nextAttemptCounter + 1;
    }

    /** Reserves the result first; an attempt is spent only when the reservation fits. */
    method PrepareExposure(execution: ExecutionSpec, expected: Option<StorageRevision>, c: CheckpointEnvelope,
                           activity: LogicalActivityId, boundary: PersistenceBoundary, observed: Option<Bytes>)
      returns (plan: Plan)
      requires nextAttemptCounter < U64_MAX
      modifies this`nextAttemptCounter
      ensures Planned(plan, nextAttemptCounter)
           == PlanExposure(config, execution, expected, c, activity, boundary, observed, old(nextAttemptCounter))
    {
      var decoded := DecodeAndValidate(c, execution, config.limits);
      if decoded.Err? {
        return Settle(CheckpointRejected(decoded.error));
      }
      var payload := decoded.value;
      var reserved := MaximumActivityCompletedEncodedLen(payload);
      if reserved.Err? {
        return Settle(CheckpointRejected(reserved.error));
      }
      if reserved.value > config.limits.maxEncodedBytes {
        return Settle(CheckpointRejected(
                        EncodedCheckpointLimitExceeded(reserved.value, config.limits.maxEncodedBytes)));
      }
      var attempt := NextAttempt();
      var history := WithFinalState(payload.state.activities, DispatchExposed(attempt));
      var encoded := EncodeWithLimits(payload.(state := Active(history)), config.limits);
      if encoded.Err? {
        return Settle(CheckpointRejected(encoded.error));
      }
      plan := Propose(Proposal(execution.executionId, expected, encoded.value,
                               ToExpose(DispatchPermit(activity, attempt)), boundary, observed, config.limits));
    }

    /** `turn` and `turn_and_expose` between their load and their compare-and-swap. */
    method PrepareTurn(body: Body, execution: ExecutionSpec, fused: bool, loaded: Option<StoredCheckpoint>)
      returns (plan: Plan)
      requires nextAttemptCounter < U64_MAX
      modifies this`nextAttemptCounter
      ensures Planned(plan, nextAttemptCounter)
           == PlanTurn(config, body, execution, fused, loaded, old(nextAttemptCounter))
    {
      if loaded.Some? {
        var shortcut := Shortcut(config, execution, loaded.value);
        if shortcut.Some? {
          return Settle(shortcut.value);
        }
      }
      var evaluation := EvaluateTurn(body, execution, CheckpointOf(loaded), config.limits);
      plan := PrepareActing(execution, fused, loaded, evaluation);
    }

    /** What a turn does with its evaluation. */
    method PrepareActing(execution: ExecutionSpec, fused: bool, loaded: Option<StoredCheckpoint>,
                         evaluation: Evaluation) returns (plan: Plan)
      requires nextAttemptCounter < U64_MAX
      modifies this`nextAttemptCounter
      ensures Planned(plan, nextAttemptCounter)
           == ActOn(config, execution, fused, loaded, evaluation, old(nextAttemptCounter))
    {
      var expected, boundary := RevisionOf(loaded), if fused then ScheduleExposure else Exposure;
      match evaluation {
        case EvalScheduled(activity, c) =>
          if fused {
            plan := PrepareExposure(execution, expected, c, activity, boundary, None);
          } else {
            plan := Propose(Proposal(execution.executionId, expected, c, ToSchedule(activity),
                                     PersistenceBoundary.Schedule, None, config.limits));
          }
        case EvalPending(activity, state) =>
          if state.DispatchExposed? {
            plan := Settle(Quarantined(activity, state.attempt));
          } else if loaded.None? {
            plan := Settle(NondeterminismFound(UnsupportedSuspension));
          } else {
            plan := PrepareExposure(execution, expected, loaded.value.checkpoint, activity, boundary, None);
          }
        case EvalComplete(outcome, count, c) =>
          plan := PlanCompletion(config, execution, expected, outcome, count, c, Completion, None);
        case EvalTerminal(outcome, _) =>
          plan := if loaded.None? then Settle(NondeterminismFound(UnsupportedSuspension))
                  else Settle(WorkflowCompleted(outcome, loaded.value.revision, Completion));
        case EvalNondeterminism(error) => plan := Settle(NondeterminismFound(error));
        case EvalRejected(error) => plan := Settle(CheckpointRejected(error));
        case EvalStalled => plan := Settle(NondeterminismFound(UnsupportedSuspension));
      }
    }

    /** `observe_and_turn` between its load and its compare-and-swap. */
    method PrepareObserveAndTurn(body: Body, execution: ExecutionSpec, activity: LogicalActivityId, result: Bytes,
                                 loaded: Option<StoredCheckpoint>) returns (plan: Plan)
      requires nextAttemptCounter < U64_MAX
      modifies this`nextAttemptCounter
      ensures Planned(plan, nextAttemptCounter)
           == PlanObserveAndTurn(config, body, execution, activity, result, loaded, old(nextAttemptCounter))
    {
      var recorded := Observed(config, execution, activity, result, loaded);
      if recorded.Err? {
        return Settle(recorded.error);
      }
      var evaluation := EvaluateTurn(body, execution, Some(recorded.value), config.limits);
      plan := PrepareProgress(execution, result, loaded.value, evaluation);
    }

    /** What follows a recorded observation. */
    method PrepareProgress(execution: ExecutionSpec, result: Bytes, stored: StoredCheckpoint, evaluation: Evaluation)
      returns (plan: Plan)
      requires nextAttemptCounter < U64_MAX
      modifies this`nextAttemptCounter
      ensures Planned(plan, nextAttemptCounter)
           == ProgressOn(config, execution, result, stored, evaluation, old(nextAttemptCounter))
    {
      var expected := Some(stored.revision);
      match evaluation {
        case EvalScheduled(next, c) =>
          plan := PrepareExposure(execution, expected, c, next, ObservationProgression, Some(result));
        case EvalComplete(outcome, count, c) =>
          plan := PlanCompletion(config, execution, expected, outcome, count, c,
                                 ObservationProgression, Some(result));
        case EvalPending(next, state) =>
          plan := if state.DispatchExposed? then Settle(Quarantined(next, state.attempt))
                  else Settle(NondeterminismFound(UnsupportedSuspension));
        case EvalTerminal(outcome, _) =>
          plan := Settle(WorkflowCompleted(outcome, stored.revision, Completion));
        case EvalNondeterminism(error) => plan := Settle(NondeterminismFound(error));
        case EvalRejected(error) => plan := Settle(CheckpointRejected(error));
        case EvalStalled => plan := Settle(NondeterminismFound(UnsupportedSuspension));
      }
    }

    /** Sends the one write of a plan; only an accepted answer is reported as progress. */
    method Commit(plan: Plan) returns (outcome: HostOutcome)
      modifies store
      ensures match plan
              case Settle(settled) => outcome == settled && store.State() == old(store.State())
              case Propose(p) =>
                exists r :: CasAllowed(old(store.State()), p.executionId, p.expected, p.checkpoint, store.State(), r)
                            && outcome == Conclude(p, r) && Tells(p, r, outcome)
    {
      match plan {
        case Settle(settled) => outcome := settled;
        case Propose(p) =>
          var r := store.CompareAndSwap(p.executionId, p.expected, p.checkpoint);
          outcome := Conclude(p, r);
          ConclusionsTell(p, r);
      }
    }

    /** One uninterrupted operation: load, prepare, and at most one compare-and-swap. */
    method Perform(body: Body, op: Operation) returns (outcome: HostOutcome)
      requires nextAttemptCounter < U64_MAX
      modifies this`nextAttemptCounter, store
      ensures Performs(config, body, op, old(store.nextLoadError), old(nextAttemptCounter), old(store.State()),
                       nextAttemptCounter, store.State(), outcome)
      ensures old(store.nextLoadError) == None && LoadsOnTrack(body, old(store.State()), op) ==>
                Fulfils(config, body, op, old(nextAttemptCounter), old(store.State()), nextAttemptCounter,
                        store.State(), outcome)
    {
      var loaded := store.Load(op.execution.executionId);
      if loaded.Err? {
        return StoreFailed(LoadOperation, loaded.error);
      }
      var plan;
      match op {
        case Turn(execution) => plan := PrepareTurn(body, execution, false, loaded.value);
        case TurnAndExpose(execution) => plan := PrepareTurn(body, execution, true, loaded.value);
        case Observe(execution, activity, result) =>
          plan := PlanObserve(config, execution, activity, result, loaded.value);
        case ObserveAndTurn(execution, activity, result) =>
          plan := PrepareObserveAndTurn(body, execution, activity, result, loaded.value);
      }
      outcome := Commit(plan);
      if LoadsOnTrack(body, old(store.State()), op) {
        PerformingFulfils(config, body, op, old(nextAttemptCounter), old(store.State()), nextAttemptCounter,
                          store.State(), outcome);
      }
    }
  }

  lemma {:induction false} RunSnoc(body: Body, earlier: seq<Event>, e: Event)
    requires Run(body, earlier).Some? && Enabled(Run(body, earlier).value, e)
    ensures Run(body, earlier + [e]) == Some(Step(body, Run(body, earlier).value, e))
  {
    assert (earlier + [e])[..|earlier|] == earlier;
  }

  lemma {:induction false} Regroup(a: seq<Event>, e: Event, b: seq<Event>)
    ensures a + ([e] + b) == a + [e] + b
  {
  }

  /** What the object does alone is one run of the protocol: the interleavings the protocol adds are
      what other hosts do between the load and the compare-and-swap. */
  lemma {:induction false} PerformingIsAProtocolRun(config: HostConfig, body: Body, op: Operation,
                                                    loadError: Option<StoreErrorKind>, counter: AttemptCounter,
                                                    counter': nat, after: StoreState, outcome: HostOutcome,
                                                    earlier: seq<Event>, h: nat) returns (events: seq<Event>)
    requires Run(body, earlier).Some?
    requires var s := Run(body, earlier).value;
             && h in s.hosts && s.hosts[h] == RunningHost(config, counter, None) && counter < U64_MAX
             && Performs(config, body, op, loadError, counter, s.store, counter', after, outcome)
    ensures var s, run := Run(body, earlier).value, Run(body, earlier + events);
            && run.Some? && run.value.store == after
            && run.value.reported == s.reported + [outcome]
            && run.value.hosts == s.hosts[h := RunningHost(config, counter', None)]
  {
    BeginningRun(config, body, op, loadError, counter, earlier, h);
    var begun := earlier + [Begin(h, op, loadError)];
    var s, middle := Run(body, earlier).value, Run(body, begun).value;
    if middle.hosts[h].waiting.None? {
      events := [Begin(h, op, loadError)];
    } else {
      var p := middle.hosts[h].waiting.value;
      WrittenAsPlanned(config, body, op, counter, s.store, counter', after, outcome);
      var answered := AnsweringRun(body, begun, h, p, after, outcome);
      events := [Begin(h, op, loadError)] + answered;
      Regroup(earlier, Begin(h, op, loadError), answered);
    }
  }

  predicate AnsweredFor(before: StoreState, p: Proposal, after: StoreState, outcome: HostOutcome, r: CasResult)
  {
    CasAllowed(before, p.executionId, p.expected, p.checkpoint, after, r) && outcome == Conclude(p, r)
  }

  lemma {:induction false} WrittenAsPlanned(config: HostConfig, body: Body, op: Operation, counter: AttemptCounter,
                                            before: StoreState, counter': nat, after: StoreState, outcome: HostOutcome)
    requires Performs(config, body, op, None, counter, before, counter', after, outcome)
    ensures var planned := PlanOperation(config, body, op, Lookup(before, op.execution.executionId), counter);
            planned.plan.Propose? ==>
              exists r :: AnsweredFor(before, planned.plan.proposal, after, outcome, r)
  {
    var planned := PlanOperation(config, body, op, Lookup(before, op.execution.executionId), counter);
    if planned.plan.Propose? {
      var p := planned.plan.proposal;
      var r :| CasAllowed(before, p.executionId, p.expected, p.checkpoint, after, r) && outcome == Conclude(p, r);
      assert AnsweredFor(before, p, after, outcome, r);
    }
  }

  /** The start of an operation, as one event: it reports at once, or leaves its write waiting. */
  lemma {:induction false} BeginningRun(config: HostConfig, body: Body, op: Operation,
                                        loadError: Option<StoreErrorKind>, counter: AttemptCounter,
                                        earlier: seq<Event>, h: nat)
    requires Run(body, earlier).Some?
    requires var s := Run(body, earlier).value;
             h in s.hosts && s.hosts[h] == RunningHost(config, counter, None) && counter < U64_MAX
    ensures var s, run := Run(body, earlier).value, Run(body, earlier + [Begin(h, op, loadError)]);
            var planned := PlanOperation(config, body, op, Lookup(s.store, op.execution.executionId), counter);
            && run.Some? && run.value.store == s.store
            && (loadError.Some? ==>
                  run.value.reported == s.reported + [StoreFailed(LoadOperation, loadError.value)]
                  && run.value.hosts == s.hosts)
            && (loadError.None? && planned.plan.Settle? ==>
                  run.value.reported == s.reported + [planned.plan.outcome]
                  && run.value.hosts == s.hosts[h := RunningHost(config, planned.counter, None)])
            && (loadError.None? && planned.plan.Propose? ==>
                  run.value.reported == s.reported
                  && run.value.hosts == s.hosts[h := RunningHost(config, planned.counter, Some(planned.plan.proposal))])
  {
    RunSnoc(body, earlier, Begin(h, op, loadError));
  }

  /** The answer to a write that is waiting, as one event. */
  lemma {:induction false} AnsweringRun(body: Body, earlier: seq<Event>, h: nat, p: Proposal, after: StoreState,
                                        outcome: HostOutcome) returns (events: seq<Event>)
    requires Run(body, earlier).Some?
    requires var s := Run(body, earlier).value;
             && h in s.hosts && s.hosts[h].waiting == Some(p)
             && exists r :: AnsweredFor(s.store, p, after, outcome, r)
    ensures var s, run := Run(body, earlier).value, Run(body, earlier + events);
            && run.Some? && run.value.store == after
            && run.value.reported == s.reported + [outcome]
            && run.value.hosts == s.hosts[h := s.hosts[h].(waiting := None)]
  {
    var s := Run(body, earlier).value;
    var r :| AnsweredFor(s.store, p, after, outcome, r);
    var answer := Answer(h, r.Accepted? || after != s.store, r);
    RunSnoc(body, earlier, answer);
    events := [answer];
  }
}
