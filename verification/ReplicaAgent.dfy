/**
 * The pod-local replica agent: admission of correlated actions and peer stages, one slot in flight, and the
 * bounded windows of terminal observations. What was ever admitted and what ever ended are history variables.
 */
module ReplicaAgents {
  import opened Basics
  import opened Configurations
  import opened Removal
  import opened RemovalProgress
  import opened RemovalTrace
  import opened AgentState
  import opened PeerStages
  import opened StageRequests
  import opened RemovalExamples

  const CONTROL_PROTOCOL_VERSION: U32 := 3
  const RETENTION := 16

  datatype ControlAction =
    | RemoveIntent(intent: RemoveReplicaIntent)
    | AddIntent(valid: bool, primaryId: int, primaryInstance: string, primaryGeneration: string, epoch: Epoch,
                attemptId: string)
    | OnDataLoss(lossEpoch: Epoch)
    | BuildReplica(replicaId: int)
    | Direct(effect: string)

  datatype Request = Request(
    protocolVersion: U32, actionId: string, inputSignature: string, targetReplicaId: int,
    targetInstanceId: string, expectedGeneration: string, expectedVersion: U64, observedEpoch: Epoch,
    action: ControlAction)

  datatype ControlError =
    | UnsupportedProtocol | InvalidActionId | Rejected | TargetMismatch | StaleGeneration | SignatureMismatch
    | ActionIdConflict | ContinuityUnavailable | StaleControlVersion | Busy | StaleRuntimeEpoch
    | PreconditionRejected | AgentClosed

  /** The answer to a request; an effect that answers for itself leaves it pending. */
  datatype Reply = Answered(observation: ActionObservation) | Pending | Refused(error: ControlError)

  datatype Fence = Fence(epoch: Epoch, sender: Sender)

  datatype StageRecord = StageRecord(
    messageId: string, inputSignature: string, stage: Stage, state: StageState, generation: string,
    peerVersion: U64, error: Option<Message>)

  datatype ActivePeer = ActivePeer(executionId: nat, record: StageRecord)

  predicate EpochLess(a: Epoch, b: Epoch)
  {
    a.dataLossNumber < b.dataLossNumber
    || (a.dataLossNumber == b.dataLossNumber && a.configurationNumber < b.configurationNumber)
  }

  // ---------------------------------------------------------------- windows

  /** The newest entries of a history, as many as are retained. */
  function Window<T>(history: seq<T>): (r: seq<T>)
    ensures |r| <= RETENTION
  {
    if |history| <= RETENTION then history else history[|history| - RETENTION..]
  }

  /** Dropping the oldest entry of a full window before adding one keeps the window of the longer history. */
  lemma {:induction false} WindowSlides<T>(history: seq<T>, x: T)
    ensures var w := Window(history);
            Window(history + [x]) == (if |w| == RETENTION then w[1..] else w) + [x]
  {
  }

  function FindAction(active: Option<Active>, terminals: seq<ActionObservation>, actionId: string)
    : Option<ActionObservation>
    decreases |terminals|
  {
    if active.Some? && active.value.observation.actionId == actionId then Some(active.value.observation)
    else if terminals == [] then None
    else if terminals[|terminals| - 1].actionId == actionId then Some(terminals[|terminals| - 1])
    else FindAction(None, terminals[..|terminals| - 1], actionId)
  }

  function FindRecord(active: Option<ActivePeer>, terminals: seq<StageRecord>, messageId: string)
    : Option<StageRecord>
    decreases |terminals|
  {
    if active.Some? && active.value.record.messageId == messageId then Some(active.value.record)
    else if terminals == [] then None
    else if terminals[|terminals| - 1].messageId == messageId then Some(terminals[|terminals| - 1])
    else FindRecord(None, terminals[..|terminals| - 1], messageId)
  }

  function InFlight(active: Option<ActivePeer>): Option<StageRecord>
  {
    if active.Some? then Some(active.value.record) else None
  }

  lemma {:induction false} FoundActionMatches(active: Option<Active>, terminals: seq<ActionObservation>,
                                              actionId: string)
    ensures FindAction(active, terminals, actionId).Some? ==>
              FindAction(active, terminals, actionId).value.actionId == actionId
    decreases |terminals|
  {
    if terminals != [] { FoundActionMatches(None, terminals[..|terminals| - 1], actionId); }
  }

  /** A record found for a message is of that message, and is retained or in flight. */
  lemma {:induction false} FoundRecordMatches(active: Option<ActivePeer>, terminals: seq<StageRecord>,
                                              messageId: string)
    ensures FindRecord(active, terminals, messageId).Some? ==>
              var r := FindRecord(active, terminals, messageId).value;
              r.messageId == messageId && (r in terminals || Some(r) == InFlight(active))
    decreases |terminals|
  {
    if terminals != [] { FoundRecordMatches(None, terminals[..|terminals| - 1], messageId); }
  }

  // ---------------------------------------------------------------- histories

  /** Versions admitted so far: each once, in order, all below the current one. */
  predicate AdmittedOnce(admitted: seq<nat>, current: nat)
  {
    && (forall k :: 0 <= k < |admitted| ==> admitted[k] < current)
    && (forall j, k :: 0 <= j < k < |admitted| ==> admitted[j] < admitted[k])
  }

  /** Every admitted action has ended once, in order, except one that may be in flight. */
  predicate Accounted(admitted: seq<nat>, history: seq<ActionObservation>, active: Option<Active>)
  {
    && |admitted| == |history| + (if active.Some? then 1 else 0)
    && (forall k :: 0 <= k < |history| ==>
          history[k].controlVersion == admitted[k] + 1 && Terminal(history[k]))
    && (active.Some? ==> active.value.observation.controlVersion == admitted[|admitted| - 1] + 1
                         && !Terminal(active.value.observation))
  }

  predicate TerminalState(s: StageState) { s.StageCompleted? || s.StageFailed? || s.StageStale? }

  /** Every retained stage record answers for a different admitted stage, and was terminal. */
  predicate PeerAccounted(admitted: seq<nat>, history: seq<StageRecord>, active: Option<ActivePeer>)
  {
    && (forall k :: 0 <= k < |history| ==> TerminalState(history[k].state))
    && (forall j, k :: 0 <= j < k < |history| ==> history[j].peerVersion < history[k].peerVersion)
    && (forall k :: 0 <= k < |history| ==>
          admitted != [] && history[k].peerVersion <= admitted[|admitted| - 1] + 1)
    && (active.Some? ==>
          && admitted != [] && active.value.record.peerVersion == admitted[|admitted| - 1] + 1
          && (active.value.record.state.StageAccepted? || active.value.record.state.StageInProgress?)
          && forall k :: 0 <= k < |history| ==> history[k].peerVersion < active.value.record.peerVersion)
  }

  /** What is retained of a stage that ended. */
  function Ending(record: StageRecord, state: StageState, error: Option<Message>): seq<StageRecord>
  {
    if TerminalState(state) then [record.(state := state, error := error)] else []
  }

  lemma {:induction false} EndingStaysAccounted(admitted: seq<nat>, history: seq<StageRecord>, active: ActivePeer,
                                                state: StageState, error: Option<Message>)
    requires PeerAccounted(admitted, history, Some(active))
    ensures PeerAccounted(admitted, history + Ending(active.record, state, error), None)
  {
  }

  class ReplicaAgent {
    const replicaId: int
    const instanceId: string
    const generation: string
    const endpoint: string -> bool
    var controlVersion: U64
    var executionSequence: U64
    var active: Option<Active>
    var terminals: seq<ActionObservation>
    var peerControlVersion: U64
    var peerSenderFence: Option<Fence>
    var activePeer: Option<ActivePeer>
    var peerTerminals: seq<StageRecord>
    var shuttingDown: bool
    ghost var admitted: seq<nat>
    ghost var history: seq<ActionObservation>
    ghost var effectIds: set<nat>
    ghost var peerAdmitted: seq<nat>
    ghost var peerHistory: seq<StageRecord>

    ghost predicate Valid()
      reads this
    {
      && (active.None? || activePeer.None?)
      && terminals == Window(history) && peerTerminals == Window(peerHistory)
      && AdmittedOnce(admitted, controlVersion) && Accounted(admitted, history, active)
      && AdmittedOnce(peerAdmitted, peerControlVersion)
      && PeerAccounted(peerAdmitted, peerHistory, activePeer)
      && (forall id :: id in effectIds ==> id <= executionSequence)
      && (active.Some? ==> active.value.executionId <= executionSequence
                           && (active.value.coordinator.Some? <==> active.value.executionId !in effectIds))
      && (activePeer.Some? ==> activePeer.value.executionId <= executionSequence)
    }

    constructor (replicaId: int, instanceId: string, generation: string, endpoint: string -> bool)
      ensures Valid() && admitted == [] && history == [] && peerAdmitted == [] && peerHistory == []
      ensures active.None? && activePeer.None? && controlVersion == 0 && peerControlVersion == 0 && !shuttingDown
      ensures terminals == [] && executionSequence == 0
      ensures this.replicaId == replicaId && this.instanceId == instanceId && this.generation == generation
      ensures this.endpoint == endpoint
    {
      this.replicaId, this.instanceId, this.generation := replicaId, instanceId, generation;
      this.endpoint := endpoint;
      controlVersion, executionSequence, active, terminals := 0, 0, None, [];
      peerControlVersion, peerSenderFence, activePeer, peerTerminals := 0, None, None, [];
      shuttingDown := false;
      admitted, history, effectIds, peerAdmitted, peerHistory := [], [], {}, [], [];
    }

    // -------------------------------------------------------------- terminals

    method RetainTerminal(o: ActionObservation)
      requires terminals == Window(history)
      modifies this`terminals, this`history
      ensures history == old(history) + [o] && terminals == Window(history)
    {
      WindowSlides(history, o);
      if |terminals| == RETENTION { terminals := terminals[1..]; }
      terminals := terminals + [o];
      history := history + [o];
    }

    method NextExecutionId() returns (id: nat)
      requires executionSequence < U64_MAX
      modifies this`executionSequence
      ensures id == executionSequence == old(executionSequence) + 1
    {
      executionSequence := executionSequence + 1;
      id := executionSequence;
    }

    // -------------------------------------------------------------- admission of actions

    /** The request names this agent, under the signature of its own action. */
    predicate Named(q: Request, signature: string)
    {
      if q.action.RemoveIntent? then NamedByRemoval(q)
      else
        && q.protocolVersion == CONTROL_PROTOCOL_VERSION && q.actionId != ""
        && q.targetReplicaId == replicaId && q.targetInstanceId == instanceId
        && q.expectedGeneration == generation && q.inputSignature == signature
    }

    /** The request is new, names this agent at its current version, and finds both slots free. */
    predicate Admits(q: Request, signature: string, runtime: RuntimeSnapshot)
      reads this
    {
      && Named(q, signature) && FindAction(active, terminals, q.actionId).None?
      && q.expectedVersion == controlVersion
      && active.None? && activePeer.None? && !shuttingDown
      && q.observedEpoch == runtime.epoch
    }

    /** The intent is accepted, and request and intent both name this agent as its primary. */
    predicate NamedByRemoval(q: Request)
      requires q.action.RemoveIntent?
    {
      var i := q.action.intent;
      && q.protocolVersion == CONTROL_PROTOCOL_VERSION && q.actionId != "" && q.actionId == i.actionId
      && Accepted(i, endpoint)
      && q.targetReplicaId == i.primaryReplicaId == replicaId
      && q.targetInstanceId == i.primaryInstanceId == instanceId
      && q.expectedGeneration == i.primaryAgentGeneration == generation
      && q.inputSignature == i.inputSignature
    }

    /** The removal is new, of the current version, in time if it can start, and finds both slots free. */
    predicate AdmitsRemoval(q: Request, runtime: RuntimeSnapshot, now: int)
      requires q.action.RemoveIntent?
      reads this
    {
      NamedByRemoval(q) && HasTurn(q, runtime, now)
    }

    predicate HasTurn(q: Request, runtime: RuntimeSnapshot, now: int)
      requires q.action.RemoveIntent?
      reads this
    {
      && FindAction(active, terminals, q.actionId).None?
      && q.expectedVersion == q.action.intent.primaryAgentControlVersion == controlVersion
      && active.None? && activePeer.None? && !shuttingDown
      && (Startable(q, runtime) ==> now < q.action.intent.overallDeadline)
    }

    /** The runtime is what the action needs to start; otherwise it ends at once. */
    predicate Startable(q: Request, runtime: RuntimeSnapshot)
    {
      match q.action
      case AddIntent(valid, primaryId, primaryInstance, primaryGeneration, epoch, _) =>
        && valid && primaryId == replicaId && primaryInstance == instanceId && primaryGeneration == generation
        && runtime.role == Role.Primary && runtime.epoch == epoch && runtime.partition.Some?
      case OnDataLoss(epoch) => runtime.epoch == epoch && runtime.partition.Some?
      case BuildReplica(_) => runtime.partition.Some?
      case Direct(_) => true
      case RemoveIntent(i) =>
        && ExactPrimary(runtime, i) && Classify(runtime.configuration, i).Some? && q.observedEpoch == i.epoch
    }

    function Recalled(actionId: string): Option<Reply>
      reads this
    {
      var found := FindAction(active, terminals, actionId);
      if found.Some? then Some(Answered(found.value)) else None
    }

    /** What a refusal before anything is looked up says about the request. */
    predicate Misnames(q: Request, signature: string, error: ControlError)
    {
      match error
      case UnsupportedProtocol => q.protocolVersion != CONTROL_PROTOCOL_VERSION
      case InvalidActionId => q.actionId == "" || (q.action.RemoveIntent? && q.actionId != q.action.intent.actionId)
      case Rejected => q.action.RemoveIntent? && !Accepted(q.action.intent, endpoint)
      case TargetMismatch =>
        || q.targetReplicaId != replicaId || q.targetInstanceId != instanceId
        || (q.action.RemoveIntent? && (q.action.intent.primaryReplicaId != replicaId
                                       || q.action.intent.primaryInstanceId != instanceId))
      case StaleGeneration =>
        || q.expectedGeneration != generation
        || (q.action.RemoveIntent? && q.action.intent.primaryAgentGeneration != generation)
      case SignatureMismatch =>
        if q.action.RemoveIntent? then q.inputSignature != q.action.intent.inputSignature
        else q.inputSignature != signature
      case _ => false
    }

    /** What each refusal says about the request, the agent or the runtime. */
    predicate Justifies(q: Request, signature: string, runtime: RuntimeSnapshot, now: int, error: ControlError)
      reads this
    {
      match error
      case ActionIdConflict =>
        && FindAction(active, terminals, q.actionId).Some?
        && FindAction(active, terminals, q.actionId).value.signature != q.inputSignature
      case ContinuityUnavailable => q.expectedVersion < controlVersion
      case StaleControlVersion =>
        || q.expectedVersion > controlVersion
        || (q.action.RemoveIntent? && q.action.intent.primaryAgentControlVersion != controlVersion)
      case Busy => active.Some? || activePeer.Some?
      case StaleRuntimeEpoch => q.observedEpoch != runtime.epoch
      case PreconditionRejected =>
        q.action.RemoveIntent? && Startable(q, runtime) && q.action.intent.overallDeadline <= now
      case AgentClosed => shuttingDown
      case _ => Misnames(q, signature, error)
    }

    /** The request names an action in flight or retained, with that action's signature. */
    predicate Knows(q: Request)
      reads this
    {
      var found := FindAction(active, terminals, q.actionId);
      found.Some? && found.value.signature == q.inputSignature && found.value.actionId == q.actionId
    }

    predicate Repeats(q: Request, signature: string)
      reads this
    {
      Named(q, signature) && Knows(q)
    }

    /** In flight under its own identity, with a coordinator or an effect of its own. */
    twostate predicate Started(q: Request)
      reads this
    {
      && active.Some? && history == old(history)
      && IsFor(q, active.value.observation) && active.value.observation.state.InProgress?
      && active.value.executionId == executionSequence == old(executionSequence) + 1
      && (active.value.coordinator.Some? <==> q.action.RemoveIntent? || q.action.AddIntent?)
      && (active.value.replyPending <==> q.action.Direct?)
    }

    /** Ended under its own identity, with a class that says why. */
    twostate predicate EndedUnfit(q: Request, runtime: RuntimeSnapshot)
      reads this
    {
      && active.None? && executionSequence == old(executionSequence)
      && |history| == |old(history)| + 1 && IsFor(q, history[|history| - 1])
      && history[|history| - 1].state.Failed? && history[|history| - 1].error.Some?
      && history[|history| - 1].errorClass.Some? && Unfit(q, runtime, history[|history| - 1].errorClass.value)
    }

    /** What becomes of an admitted action. */
    twostate predicate Placed(q: Request, runtime: RuntimeSnapshot)
      reads this
    {
      if Startable(q, runtime) then Started(q) else EndedUnfit(q, runtime)
    }

    /** What the class of an action that could not start says about the runtime. */
    static predicate Unfit(q: Request, runtime: RuntimeSnapshot, errorClass: ErrorClass)
    {
      var gone := runtime.partition.None? || runtime.role == Role.Unknown;
      match errorClass
      case Closed => q.action.RemoveIntent? && gone
      case NotPrimary => q.action.RemoveIntent? && !gone && runtime.role != Role.Primary
      case StaleEpoch =>
        || (q.action.OnDataLoss? && runtime.epoch != q.action.lossEpoch)
        || (q.action.RemoveIntent? && !gone && runtime.role == Role.Primary && runtime.epoch != q.action.intent.epoch)
      case Internal =>
        && (q.action.OnDataLoss? ==> runtime.epoch == q.action.lossEpoch)
        && (q.action.RemoveIntent? ==> !gone && runtime.role == Role.Primary && runtime.epoch == q.action.intent.epoch)
      case _ => false
    }

    /** An admission is answered with what became of it, except that an effect that is waited for answers later. */
    ghost predicate Announces(q: Request, reply: Reply)
      reads this
    {
      && Knows(q)
      && if active.None? then reply.Answered? && Recalled(q.actionId) == Some(reply)
         else reply == if q.action.Direct? then Pending else Answered(active.value.observation)
    }

    predicate IsFor(q: Request, o: ActionObservation)
    {
      o.generation == generation && o.actionId == q.actionId && o.signature == q.inputSignature
    }

    /** What both admissions promise: one version at most, never one already used, and one outcome for it. */
    twostate predicate AdmissionKept(q: Request, reply: Reply)
      reads this
    {
      && Valid()
      && (reply.Refused? || q.expectedVersion in old(admitted) ==> SameState())
      && (SameState() || (admitted == old(admitted) + [q.expectedVersion]
                          && controlVersion == old(controlVersion) + 1))
      && old(history) <= history && |history| <= |old(history)| + 1
      && (old(active).Some? || old(activePeer).Some? || old(shuttingDown) ==> SameState())
    }

    twostate predicate SameState()
      reads this
    {
      && active == old(active) && terminals == old(terminals) && controlVersion == old(controlVersion)
      && executionSequence == old(executionSequence) && activePeer == old(activePeer)
      && peerTerminals == old(peerTerminals) && peerControlVersion == old(peerControlVersion)
      && peerSenderFence == old(peerSenderFence) && shuttingDown == old(shuttingDown)
      && admitted == old(admitted) && history == old(history) && effectIds == old(effectIds)
      && peerAdmitted == old(peerAdmitted) && peerHistory == old(peerHistory)
    }

    method AcceptCorrelated(q: Request, signature: string, runtime: RuntimeSnapshot, now: int)
      returns (reply: Reply)
      requires Valid() && controlVersion < U64_MAX && executionSequence < U64_MAX
      modifies this`controlVersion, this`active, this`terminals, this`history, this`executionSequence,
               this`admitted, this`effectIds
      ensures AdmissionKept(q, reply)
      ensures admitted != old(admitted)
              <==> old(if q.action.RemoveIntent? then AdmitsRemoval(q, runtime, now) else Admits(q, signature, runtime))
      ensures admitted != old(admitted) ==> Placed(q, runtime) && Announces(q, reply)
      ensures reply.Refused? ==> old(Justifies(q, signature, runtime, now, reply.error))
      // A request seen before is answered with what is known of it.
      ensures old(Repeats(q, signature)) ==> Some(reply) == old(Recalled(q.actionId))
      ensures reply.Answered? && admitted == old(admitted) ==>
                Some(reply.observation) == old(FindAction(active, terminals, q.actionId))
                && reply.observation.signature == q.inputSignature
    {
      if q.action.RemoveIntent? {
        reply := AcceptRemoval(q, runtime, now);
        return;
      }
      if q.protocolVersion != CONTROL_PROTOCOL_VERSION { return Refused(UnsupportedProtocol); }
      if q.actionId == "" { return Refused(InvalidActionId); }
      if q.targetReplicaId != replicaId || q.targetInstanceId != instanceId { return Refused(TargetMismatch); }
      if q.expectedGeneration != generation { return Refused(StaleGeneration); }
      if q.inputSignature != signature { return Refused(SignatureMismatch); }
      var found := FindAction(active, terminals, q.actionId);
      if found.Some? {
        return if found.value.signature != q.inputSignature then Refused(ActionIdConflict) else Answered(found.value);
      }
      if q.expectedVersion != controlVersion {
        return Refused(if q.expectedVersion < controlVersion then ContinuityUnavailable else StaleControlVersion);
      }
      if active.Some? || activePeer.Some? { return Refused(Busy); }
      if q.observedEpoch != runtime.epoch { return Refused(StaleRuntimeEpoch); }
      if shuttingDown { return Refused(AgentClosed); }
      reply := Start(q, runtime);
    }

    /** The admitted action takes its version and starts, or ends at once. */
    method Start(q: Request, runtime: RuntimeSnapshot) returns (reply: Reply)
      requires Valid() && controlVersion < U64_MAX && executionSequence < U64_MAX
      requires q.expectedVersion == controlVersion && active.None? && activePeer.None? && !q.action.RemoveIntent?
      modifies this`controlVersion, this`active, this`terminals, this`history, this`executionSequence,
               this`admitted, this`effectIds
      ensures Valid() && !reply.Refused?
      ensures admitted == old(admitted) + [q.expectedVersion] && controlVersion == old(controlVersion) + 1
      ensures old(history) <= history && |history| <= |old(history)| + 1
      ensures Placed(q, runtime) && Announces(q, reply)
      ensures reply.Pending? <==> q.action.Direct?
    {
      var o := TakeVersion(q, Scheduled);
      if Startable(q, runtime) {
        reply := Begin(q, o.(state := ActionState.InProgress));
      } else {
        reply := EndAtOnce(o, if q.action.OnDataLoss? && runtime.epoch != q.action.lossEpoch then ErrorClass.StaleEpoch
                              else Internal);
      }
    }

    method Begin(q: Request, o: ActionObservation) returns (reply: Reply)
      requires HalfWay(o) && !q.action.RemoveIntent?
      modifies this`active, this`executionSequence, this`effectIds
      ensures Valid() && active.Some? && active.value.observation == o
      ensures active.value.coordinator.Some? <==> q.action.AddIntent?
      ensures active.value.replyPending <==> q.action.Direct?
      ensures active.value.executionId == executionSequence == old(executionSequence) + 1
      ensures reply == if q.action.Direct? then Pending else Answered(o)
    {
      if q.action.AddIntent? {
        reply := Coordinate(o, q.action.attemptId, NoChannel, None);
      } else {
        StartEffect(o, q.action.Direct?);
        reply := if q.action.Direct? then Pending else Answered(o);
      }
    }

    /** The version is used up, whatever becomes of the action. */
    method TakeVersion(q: Request, state: ActionState) returns (o: ActionObservation)
      requires Valid() && controlVersion < U64_MAX && executionSequence < U64_MAX
      requires q.expectedVersion == controlVersion && active.None? && activePeer.None?
      requires state.Scheduled? || state.InProgress?
      modifies this`controlVersion, this`admitted
      ensures HalfWay(o) && o == ActionObservation(generation, controlVersion, q.actionId, q.inputSignature, state,
                                                   None, None, None, None)
      ensures admitted == old(admitted) + [q.expectedVersion] && controlVersion == old(controlVersion) + 1
    {
      controlVersion := controlVersion + 1;
      admitted := admitted + [q.expectedVersion];
      o := ActionObservation(generation, controlVersion, q.actionId, q.inputSignature, state, None, None, None, None);
      assert admitted[..|admitted| - 1] == old(admitted);
    }

    /** Admitted, but not ended and not in flight: the moment between the two. */
    ghost predicate HalfWay(o: ActionObservation)
      reads this
    {
      && active.None? && activePeer.None? && controlVersion > 0 && executionSequence < U64_MAX
      && o.controlVersion == controlVersion && !Terminal(o)
      && terminals == Window(history) && peerTerminals == Window(peerHistory)
      && admitted != [] && admitted[|admitted| - 1] + 1 == controlVersion
      && AdmittedOnce(admitted, controlVersion) && Accounted(admitted[..|admitted| - 1], history, None)
      && AdmittedOnce(peerAdmitted, peerControlVersion)
      && PeerAccounted(peerAdmitted, peerHistory, activePeer)
      && (forall id :: id in effectIds ==> id <= executionSequence)
    }

    method EndAtOnce(o: ActionObservation, errorClass: ErrorClass) returns (reply: Reply)
      requires HalfWay(o)
      modifies this`terminals, this`history
      ensures Valid() && reply.Answered? && history == old(history) + [reply.observation]
      ensures reply.observation == o.(state := ActionState.Failed, errorClass := Some(errorClass), error := Some(Own))
    {
      var failed := o.(state := ActionState.Failed, errorClass := Some(errorClass), error := Some(Own));
      RetainTerminal(failed);
      reply := Answered(failed);
    }

    method StartEffect(o: ActionObservation, replyPending: bool)
      requires HalfWay(o)
      modifies this`active, this`executionSequence, this`effectIds
      ensures Valid() && active.Some? && active.value.observation == o && active.value.coordinator.None?
      ensures active.value.replyPending == replyPending
      ensures active.value.executionId == executionSequence == old(executionSequence) + 1
    {
      var id := NextExecutionId();
      effectIds := effectIds + {id};
      active := Some(Active(id, None, NoChannel, None, o, replyPending));
    }

    method Coordinate(o: ActionObservation, attemptId: string, authority: Authority,
                      intent: Option<RemoveReplicaIntent>) returns (reply: Reply)
      requires HalfWay(o)
      modifies this`active, this`executionSequence
      ensures Valid() && reply == Answered(o)
      ensures active.Some? && active.value.observation == o && active.value.intent == intent
      ensures active.value.coordinator == Some(CoordinatorId(generation, o.actionId, attemptId, 0))
      ensures active.value.authority == authority && !active.value.replyPending
      ensures active.value.executionId == executionSequence == old(executionSequence) + 1
    {
      var id := NextExecutionId();
      active := Some(Active(id, Some(CoordinatorId(generation, o.actionId, attemptId, 0)), authority, intent, o,
                            false));
      reply := Answered(o);
    }

    method CheckRemoval(q: Request) returns (error: Option<ControlError>)
      requires q.action.RemoveIntent?
      ensures error.None? <==> NamedByRemoval(q)
      ensures error.Some? ==> Misnames(q, "", error.value)
    {
      var i := q.action.intent;
      if q.protocolVersion != CONTROL_PROTOCOL_VERSION { return Some(UnsupportedProtocol); }
      if q.actionId == "" || q.actionId != i.actionId { return Some(InvalidActionId); }
      var check := Validate(i, endpoint);
      if check.Fail? { return Some(Rejected); }
      if q.targetReplicaId != replicaId || q.targetInstanceId != instanceId
         || i.primaryReplicaId != replicaId || i.primaryInstanceId != instanceId {
        return Some(TargetMismatch);
      }
      if q.expectedGeneration != generation || i.primaryAgentGeneration != generation {
        return Some(StaleGeneration);
      }
      if q.inputSignature != IntentSignature(i) || q.inputSignature != i.inputSignature {
        return Some(SignatureMismatch);
      }
      return None;
    }

    /** The rest of the admission of a removal that names this agent. */
    method AcceptNamed(q: Request, runtime: RuntimeSnapshot, now: int) returns (reply: Reply)
      requires Valid() && controlVersion < U64_MAX && executionSequence < U64_MAX && q.action.RemoveIntent?
      requires q.action.intent.attemptId != "" && q.action.intent.primaryInstanceId == instanceId
      modifies this`controlVersion, this`active, this`terminals, this`history, this`executionSequence,
               this`admitted
      ensures AdmissionKept(q, reply)
      ensures admitted != old(admitted) <==> old(HasTurn(q, runtime, now))
      ensures old(Knows(q)) ==> Some(reply) == old(Recalled(q.actionId))
      ensures reply.Answered? && admitted == old(admitted) ==>
                Some(reply.observation) == old(FindAction(active, terminals, q.actionId))
                && reply.observation.signature == q.inputSignature
      ensures admitted != old(admitted) ==> Placed(q, runtime) && Announces(q, reply)
      ensures reply.Refused? ==> old(Justifies(q, "", runtime, now, reply.error))
      // A coordinator starts only for an exact live primary in one of the intent's configurations, in time.
      ensures active.Some? && old(active).None? ==>
                && ExactPrimary(runtime, q.action.intent) && Classify(runtime.configuration, q.action.intent).Some?
                && now < q.action.intent.overallDeadline
                && active.value.intent == Some(q.action.intent)
                && active.value.observation.removal == Some(Initial(q.action.intent.attemptId))
                && active.value.coordinator
                   == Some(CoordinatorId(generation, q.actionId, q.action.intent.attemptId, 0))
                && active.value.authority == GrantedFor(0)
    {
      var found := FindAction(active, terminals, q.actionId);
      if found.Some? {
        return if found.value.signature != q.inputSignature then Refused(ActionIdConflict) else Answered(found.value);
      }
      if q.expectedVersion != controlVersion || q.action.intent.primaryAgentControlVersion != controlVersion {
        return Refused(if q.expectedVersion < controlVersion then ContinuityUnavailable else StaleControlVersion);
      }
      if active.Some? || activePeer.Some? { return Refused(Busy); }
      if shuttingDown { return Refused(AgentClosed); }
      reply := StartRemoval(q, runtime, now);
    }

    method AcceptRemoval(q: Request, runtime: RuntimeSnapshot, now: int) returns (reply: Reply)
      requires Valid() && controlVersion < U64_MAX && executionSequence < U64_MAX && q.action.RemoveIntent?
      modifies this`controlVersion, this`active, this`terminals, this`history, this`executionSequence,
               this`admitted
      ensures AdmissionKept(q, reply)
      ensures admitted != old(admitted) <==> old(AdmitsRemoval(q, runtime, now))
      ensures old(Repeats(q, "")) ==> Some(reply) == old(Recalled(q.actionId))
      ensures reply.Answered? && admitted == old(admitted) ==>
                Some(reply.observation) == old(FindAction(active, terminals, q.actionId))
                && reply.observation.signature == q.inputSignature
      ensures admitted != old(admitted) ==> Placed(q, runtime) && Announces(q, reply)
      ensures reply.Refused? ==> old(Justifies(q, "", runtime, now, reply.error))
      // A coordinator starts only for an exact live primary in one of the intent's configurations, in time.
      ensures active.Some? && old(active).None? ==>
                && ExactPrimary(runtime, q.action.intent) && Classify(runtime.configuration, q.action.intent).Some?
                && now < q.action.intent.overallDeadline
                && active.value.intent == Some(q.action.intent)
                && active.value.observation.removal == Some(Initial(q.action.intent.attemptId))
                && active.value.coordinator
                   == Some(CoordinatorId(generation, q.actionId, q.action.intent.attemptId, 0))
                && active.value.authority == GrantedFor(0)
    {
      var error := CheckRemoval(q);
      if error.Some? { return Refused(error.value); }
      reply := AcceptNamed(q, runtime, now);
    }

    method StartRemoval(q: Request, runtime: RuntimeSnapshot, now: int) returns (reply: Reply)
      requires Valid() && controlVersion < U64_MAX && executionSequence < U64_MAX && q.action.RemoveIntent?
      requires q.expectedVersion == controlVersion && active.None? && activePeer.None?
      requires q.action.intent.attemptId != "" && q.action.intent.primaryInstanceId == instanceId
      modifies this`controlVersion, this`active, this`terminals, this`history, this`executionSequence,
               this`admitted
      ensures Valid()
      ensures reply.Refused? <==> Startable(q, runtime) && now >= q.action.intent.overallDeadline
      ensures reply.Refused? ==> SameState() && reply.error.PreconditionRejected?
      ensures !reply.Refused? ==> reply.Answered? && admitted == old(admitted) + [q.expectedVersion]
                                  && controlVersion == old(controlVersion) + 1
                                  && Placed(q, runtime) && Announces(q, reply)
      ensures old(history) <= history && |history| <= |old(history)| + 1
      ensures active.Some? ==>
                && ExactPrimary(runtime, q.action.intent) && Classify(runtime.configuration, q.action.intent).Some?
                && now < q.action.intent.overallDeadline
                && active.value.intent == Some(q.action.intent)
                && active.value.observation.removal == Some(Initial(q.action.intent.attemptId))
                && active.value.coordinator
                   == Some(CoordinatorId(generation, q.actionId, q.action.intent.attemptId, 0))
                && active.value.authority == GrantedFor(0)
    {
      var i := q.action.intent;
      if !Startable(q, runtime) {
        reply := EndUnfit(q, runtime);
      } else if now >= i.overallDeadline {
        reply := Refused(PreconditionRejected);
      } else {
        reply := Launch(q);
      }
    }

    /** An admitted removal whose primary is not what it was frozen for ends at once. */
    method EndUnfit(q: Request, runtime: RuntimeSnapshot) returns (reply: Reply)
      requires Valid() && controlVersion < U64_MAX && executionSequence < U64_MAX && q.action.RemoveIntent?
      requires q.expectedVersion == controlVersion && active.None? && activePeer.None? && !Startable(q, runtime)
      modifies this`controlVersion, this`terminals, this`history, this`admitted
      ensures Valid() && reply.Answered? && Placed(q, runtime) && Announces(q, reply)
      ensures admitted == old(admitted) + [q.expectedVersion] && controlVersion == old(controlVersion) + 1
      ensures history == old(history) + [reply.observation]
    {
      var o := TakeVersion(q, ActionState.InProgress);
      var errorClass := if runtime.partition.None? || runtime.role == Role.Unknown then ErrorClass.Closed
                        else if runtime.role != Role.Primary then ErrorClass.NotPrimary
                        else if runtime.epoch != q.action.intent.epoch then ErrorClass.StaleEpoch else Internal;
      reply := EndAtOnce(o, errorClass);
    }

    method Launch(q: Request) returns (reply: Reply)
      requires Valid() && controlVersion < U64_MAX && executionSequence < U64_MAX && q.action.RemoveIntent?
      requires q.expectedVersion == controlVersion && active.None? && activePeer.None?
      requires q.action.intent.attemptId != ""
      modifies this`controlVersion, this`active, this`executionSequence, this`admitted
      ensures Valid() && reply.Answered? && Started(q) && Announces(q, reply)
      ensures admitted == old(admitted) + [q.expectedVersion] && controlVersion == old(controlVersion) + 1
      ensures active.value.intent == Some(q.action.intent) && active.value.authority == GrantedFor(0)
      ensures active.value.coordinator == Some(CoordinatorId(generation, q.actionId, q.action.intent.attemptId, 0))
      ensures active.value.observation.removal == Some(Initial(q.action.intent.attemptId))
    {
      var i := q.action.intent;
      var o := TakeVersion(q, ActionState.InProgress);
      // The initial progress of an intent with an attempt id is always valid.
      assert ValidFor(i, Initial(i.attemptId));
      reply := Coordinate(o.(removal := Some(Initial(i.attemptId))), i.attemptId, GrantedFor(0), Some(i));
    }

    // -------------------------------------------------------------- completions

    static method EndEffect(before: ActionObservation,
                            result: Result<Option<ActionResult>, (ErrorClass, Message)>)
      returns (after: ActionObservation)
      ensures match result
              case Ok(value) => EndedWell(before, after, value)
              case Err(error) => EndedBadly(before, after, error.0, error.1)
    {
      match result {
        case Ok(value) =>
          after := before.(state := ActionState.Completed,
                           result := if value.Some? then value else before.result);
        case Err(error) =>
          FailureIsReported(before, error.0, error.1);
          after := before.(state := ActionState.Failed, errorClass := Some(error.0),
                           error := Some(Normalized(error.1)));
      }
    }

    /** The slot is freed and its end retained. */
    method EndActive(o: ActionObservation)
      requires Valid() && active.Some? && Terminal(o)
      requires o.controlVersion == active.value.observation.controlVersion
      modifies this`active, this`terminals, this`history
      ensures Valid() && active.None? && history == old(history) + [o]
    {
      active := None;
      RetainTerminal(o);
    }

    /**
     * Only the effect in flight can end its action, and ends it as its result says; everything else leaves the
     * agent as it was. A caller that waits for the effect is answered with the observation retained.
     */
    method HandleCompletion(executionId: nat, result: Result<Option<ActionResult>, (ErrorClass, Message)>)
      returns (answer: Option<ActionObservation>)
      requires Valid()
      modifies this`active, this`terminals, this`history
      ensures Valid()
      ensures old(active).None? || old(active).value.executionId != executionId ==> SameState() && answer.None?
      ensures executionId in effectIds && old(active).Some? && old(active).value.coordinator.Some? ==> SameState()
      ensures old(active).Some? && old(active).value.executionId == executionId ==>
                && active.None? && |history| == |old(history)| + 1 && old(history) <= history
                && var before, after := old(active).value.observation, history[|history| - 1];
                   && (match result
                       case Ok(value) => EndedWell(before, after, value)
                       case Err(error) => EndedBadly(before, after, error.0, error.1))
                   && answer == (if old(active).value.replyPending then Some(after) else None)
    {
      if active.None? || active.value.executionId != executionId { return None; }
      var o := EndEffect(active.value.observation, result);
      answer := if active.value.replyPending then Some(o) else None;
      EndActive(o);
    }

    method HandleCoordinatorEvent(e: Event)
      requires Valid()
      modifies this`active, this`terminals, this`history
      ensures Valid()
      ensures active == OnEvent(old(active), e).active
      ensures history == old(history) + (if OnEvent(old(active), e).terminal.Some?
                                         then [OnEvent(old(active), e).terminal.value] else [])
      ensures !InSequence(old(active), e) ==> SameState()
      ensures InSequence(old(active), e) ==>
                Follows(old(active).value, e, Reaction(active, if history == old(history) then None
                                                               else Some(history[|history| - 1])))
    {
      EventsAreFollowed(active, e);
      var reaction := OnEvent(active, e);
      active := reaction.active;
      if reaction.terminal.Some? {
        RetainTerminal(reaction.terminal.value);
      }
    }

    method BeginShutdown()
      requires Valid()
      modifies this`active, this`shuttingDown
      ensures Valid() && shuttingDown
      ensures old(shuttingDown) ==> SameState()
      ensures !old(shuttingDown) ==> active == Revoke(old(active))
    {
      if shuttingDown { return; }
      shuttingDown := true;
      active := Revoke(active);
    }

    // -------------------------------------------------------------- peer stages

    function Once(q: StageRequest, state: StageState): StageRecord
      reads this`peerControlVersion
    {
      StageRecord(q.messageId, q.inputSignature, q.stage, state, generation, peerControlVersion, Some(Own))
    }

    /** A sender is outdated, or differs from the one pinned at the same epoch. */
    predicate Fenced(q: StageRequest)
      reads this`peerSenderFence
    {
      peerSenderFence.Some?
      && (EpochLess(q.epoch, peerSenderFence.value.epoch)
          || (q.epoch == peerSenderFence.value.epoch && q.sender != peerSenderFence.value.sender))
    }

    /** The request is well formed and names this agent. */
    predicate Addressed(q: StageRequest, runtime: RuntimeSnapshot)
    {
      && q.protocolVersion == PEER_PROTOCOL_VERSION && ValidRequest(q, endpoint)
      && q.targetReplicaId == replicaId && q.targetInstanceId == instanceId && runtime.instanceId == instanceId
      && q.expectedTargetGeneration == generation
    }

    /** The stage is new, of the current version, behind the sender fence, not outdated, and finds both slots free. */
    predicate AdmitsStage(q: StageRequest, runtime: RuntimeSnapshot, now: int)
      reads this
    {
      && Addressed(q, runtime)
      && FindRecord(activePeer, peerTerminals, q.messageId).None?
      && q.expectedPeerVersion == peerControlVersion && !Fenced(q)
      && active.None? && activePeer.None? && !EpochLess(q.epoch, runtime.epoch)
      && (q.stage.RetireStage? ==>
            q.commitTime.Some? && q.commitTime.value <= now
            && q.retirementExpiry.Some? && now < q.retirementExpiry.value)
    }

    /** A completed Retire is only worth repeating while what it promised is still to be seen. */
    static predicate Outlived(found: StageRecord, q: StageRequest, runtime: RuntimeSnapshot)
    {
      found.stage.RetireStage? && found.state.StageCompleted? && !RetireHolds(runtime, q)
    }

    /** What each way of turning a stage down says about the request. */
    predicate TurnsDown(q: StageRequest, runtime: RuntimeSnapshot, now: int, state: StageState)
      reads this
    {
      var found := FindRecord(activePeer, peerTerminals, q.messageId);
      match state
      case StageConflict => found.Some? && found.value.inputSignature != q.inputSignature
      case StageRejected => !ValidRequest(q, endpoint) || active.Some? || activePeer.Some?
      case StageStale =>
        || q.targetReplicaId != replicaId || q.targetInstanceId != instanceId || runtime.instanceId != instanceId
        || q.expectedTargetGeneration != generation
        || (found.Some? && Outlived(found.value, q, runtime))
        || q.expectedPeerVersion != peerControlVersion || Fenced(q) || EpochLess(q.epoch, runtime.epoch)
        || (q.stage.RetireStage?
            && (q.commitTime.None? || now < q.commitTime.value
                || q.retirementExpiry.None? || q.retirementExpiry.value <= now))
      case _ => false
    }

    /** `None` for an unsupported protocol version; otherwise the observation the peer gets. */
    method AcceptPeerStage(q: StageRequest, runtime: RuntimeSnapshot, now: int) returns (reply: Option<StageRecord>)
      requires Valid() && peerControlVersion < U64_MAX && executionSequence < U64_MAX
      modifies this`peerControlVersion, this`peerAdmitted, this`peerSenderFence, this`executionSequence,
               this`activePeer
      ensures Valid()
      ensures reply.None? <==> q.protocolVersion != PEER_PROTOCOL_VERSION
      // Every answer is about the message that was sent, and says why when it turns the stage down.
      ensures reply.Some? ==> reply.value.messageId == q.messageId && reply.value.inputSignature == q.inputSignature
      ensures reply.Some? && peerAdmitted == old(peerAdmitted)
              && reply != old(FindRecord(activePeer, peerTerminals, q.messageId)) ==>
                && reply.value.stage == q.stage && reply.value.peerVersion == peerControlVersion
                && old(TurnsDown(q, runtime, now, reply.value.state))
      ensures peerAdmitted != old(peerAdmitted) <==> old(AdmitsStage(q, runtime, now))
      ensures peerAdmitted == old(peerAdmitted) ==> SameState()
      ensures peerAdmitted != old(peerAdmitted) ==>
                && peerAdmitted == old(peerAdmitted) + [q.expectedPeerVersion]
                && reply.Some? && reply.value.state.StageAccepted? && reply.value.stage == q.stage
                && reply.value.generation == generation && reply.value.error.None?
                && reply.value.peerVersion == peerControlVersion == old(peerControlVersion) + 1
                && activePeer.Some? && activePeer.value.executionId == executionSequence
                && executionSequence == old(executionSequence) + 1
                && activePeer.value.record == reply.value.(state := StageInProgress)
                && peerSenderFence == Some(Fence(q.epoch, q.sender)) && peerHistory == old(peerHistory)
      // A version that was admitted is never admitted again, whatever left the window meanwhile.
      ensures q.expectedPeerVersion in old(peerAdmitted) ==> SameState()
      // A message seen before is answered with its own record, in flight or retained.
      ensures Addressed(q, runtime) && old(FindRecord(activePeer, peerTerminals, q.messageId)).Some? ==>
                && reply.Some? && reply.value.messageId == q.messageId
                && var found := old(FindRecord(activePeer, peerTerminals, q.messageId)).value;
                   if found.inputSignature != q.inputSignature then reply.value.state.StageConflict?
                   else if Outlived(found, q, runtime) then reply.value.state.StageStale?
                   else reply.value == found && (found in old(peerTerminals)
                                                 || Some(found) == InFlight(old(activePeer)))
      // A completed Retire is reported only while its closed postcondition holds.
      ensures reply.Some? && reply.value.stage.RetireStage? && reply.value.state.StageCompleted? ==>
                RetireHolds(runtime, q) && reply.value.inputSignature == q.inputSignature
    {
      if q.protocolVersion != PEER_PROTOCOL_VERSION { return None; }
      var valid := ValidateRequest(q, endpoint);
      if !valid { return Some(Once(q, StageRejected)); }
      if q.targetReplicaId != replicaId || q.targetInstanceId != instanceId || runtime.instanceId != instanceId {
        return Some(Once(q, StageStale));
      }
      if q.expectedTargetGeneration != generation { return Some(Once(q, StageStale)); }
      var found := FindRecord(activePeer, peerTerminals, q.messageId);
      if found.Some? {
        FoundRecordMatches(activePeer, peerTerminals, q.messageId);
        if found.value.inputSignature != q.inputSignature { return Some(Once(q, StageConflict)); }
        if Outlived(found.value, q, runtime) { return Some(Once(q, StageStale)); }
        return found;
      }
      if q.expectedPeerVersion != peerControlVersion { return Some(Once(q, StageStale)); }
      if Fenced(q) { return Some(Once(q, StageStale)); }
      if active.Some? || activePeer.Some? { return Some(Once(q, StageRejected)); }
      if EpochLess(q.epoch, runtime.epoch) { return Some(Once(q, StageStale)); }
      if q.stage.RetireStage? {
        if q.commitTime.None? || q.commitTime.value > now { return Some(Once(q, StageStale)); }
        if q.retirementExpiry.None? || now >= q.retirementExpiry.value { return Some(Once(q, StageStale)); }
      }
      var record := AdmitStage(q);
      reply := Some(record);
    }

    method AdmitStage(q: StageRequest) returns (record: StageRecord)
      requires Valid() && peerControlVersion < U64_MAX && executionSequence < U64_MAX
      requires q.expectedPeerVersion == peerControlVersion && active.None? && activePeer.None?
      modifies this`peerControlVersion, this`peerAdmitted, this`peerSenderFence, this`executionSequence,
               this`activePeer
      ensures Valid() && peerAdmitted == old(peerAdmitted) + [q.expectedPeerVersion]
      ensures record.messageId == q.messageId && record.inputSignature == q.inputSignature && record.stage == q.stage
      ensures record.generation == generation && record.peerVersion == peerControlVersion && record.error.None?
      ensures record.state.StageAccepted? && peerControlVersion == old(peerControlVersion) + 1
      ensures activePeer.Some? && activePeer.value.executionId == executionSequence == old(executionSequence) + 1
      ensures activePeer.Some? && activePeer.value.record == record.(state := StageInProgress)
      ensures peerSenderFence == Some(Fence(q.epoch, q.sender))
    {
      peerControlVersion := peerControlVersion + 1;
      peerAdmitted := peerAdmitted + [q.expectedPeerVersion];
      peerSenderFence := Some(Fence(q.epoch, q.sender));
      var id := NextExecutionId();
      record := StageRecord(q.messageId, q.inputSignature, q.stage, StageAccepted, generation, peerControlVersion,
                            None);
      activePeer := Some(ActivePeer(id, record.(state := StageInProgress)));
    }

    /** A completion that is not of the stage in flight changes nothing; one that is ends it, once. */
    method HandlePeerCompletion(executionId: nat, state: StageState, error: Option<Message>)
      requires Valid()
      modifies this`activePeer, this`peerTerminals, this`peerHistory
      ensures Valid()
      ensures old(activePeer).None? || old(activePeer).value.executionId != executionId ==> SameState()
      ensures old(activePeer).Some? && old(activePeer).value.executionId == executionId ==>
                && activePeer.None?
                && var ended := old(activePeer).value.record.(state := state, error := error);
                   if TerminalState(state) then peerHistory == old(peerHistory) + [ended]
                   else peerHistory == old(peerHistory)
    {
      if activePeer.None? || activePeer.value.executionId != executionId { return; }
      EndingStaysAccounted(peerAdmitted, peerHistory, activePeer.value, state, error);
      var record := activePeer.value.record.(state := state, error := error);
      activePeer := None;
      if TerminalState(state) {
        RetainStage(record);
      } else {
        assert peerHistory + Ending(old(activePeer).value.record, state, error) == peerHistory;
      }
    }

    method RetainStage(record: StageRecord)
      requires peerTerminals == Window(peerHistory)
      modifies this`peerTerminals, this`peerHistory
      ensures peerHistory == old(peerHistory) + [record] && peerTerminals == Window(peerHistory)
    {
      WindowSlides(peerHistory, record);
      if |peerTerminals| == RETENTION { peerTerminals := peerTerminals[1..]; }
      peerTerminals := peerTerminals + [record];
      peerHistory := peerHistory + [record];
    }
  }

  // ---------------------------------------------------------------- what the records say

  /** A terminal once retained keeps its version to itself, in the window and beyond it. */
  lemma {:induction false} TerminalsAreUnique(admitted: seq<nat>, history: seq<ActionObservation>,
                                              active: Option<Active>, current: nat, j: nat, k: nat)
    requires AdmittedOnce(admitted, current) && Accounted(admitted, history, active)
    requires j < |history| && k < |history| && history[j].controlVersion == history[k].controlVersion
    ensures j == k
    ensures active.Some? ==> active.value.observation.controlVersion != history[j].controlVersion
  {
  }

  // ---------------------------------------------------------------- the same request again

  /** A stage delivered a second time right after its admission is answered with its own record, in progress. */
  method DeliverStageTwice(agent: ReplicaAgent, q: StageRequest, before: RuntimeSnapshot, after: RuntimeSnapshot,
                           now: int, later: int)
    returns (first: Option<StageRecord>, second: Option<StageRecord>)
    requires agent.Valid() && agent.peerControlVersion < U64_MAX - 1 && agent.executionSequence < U64_MAX - 1
    requires agent.AdmitsStage(q, before, now) && after.instanceId == agent.instanceId
    modifies agent
    ensures agent.Valid() && first.Some? && first.value.state.StageAccepted?
    ensures second == Some(first.value.(state := StageInProgress))
    ensures agent.activePeer.Some? && Some(agent.activePeer.value.record) == second
  {
    first := agent.AcceptPeerStage(q, before, now);
    second := agent.AcceptPeerStage(q, after, later);
  }

  /** An action asked for a second time right after its admission is answered with what became of it. */
  method RequestTwice(agent: ReplicaAgent, q: Request, signature: string, before: RuntimeSnapshot,
                      after: RuntimeSnapshot, now: int, later: int) returns (first: Reply, second: Reply)
    requires agent.Valid() && agent.controlVersion < U64_MAX - 1 && agent.executionSequence < U64_MAX - 1
    requires if q.action.RemoveIntent? then agent.AdmitsRemoval(q, before, now) else agent.Admits(q, signature, before)
    modifies agent
    ensures agent.Valid() && second.Answered? && second.observation.actionId == q.actionId
    ensures first.Answered? ==> second == first
    ensures first.Pending? ==> agent.active.Some? && second == Answered(agent.active.value.observation)
  {
    first := agent.AcceptCorrelated(q, signature, before, now);
    second := agent.AcceptCorrelated(q, signature, after, later);
  }

  // ---------------------------------------------------------------- progress queued at a shutdown

  /** A runtime on which a removal starts: its live primary, still in the previous configuration. */
  function LivePrimary(i: RemoveReplicaIntent): RuntimeSnapshot
  {
    RuntimeSnapshot(i.primaryInstanceId, Role.Primary, i.epoch, Some(Partition(Granted, [])),
                    Some(PreviousStatus(i)), None)
  }

  function RequestFor(i: RemoveReplicaIntent): Request
  {
    Request(CONTROL_PROTOCOL_VERSION, i.actionId, i.inputSignature, i.primaryReplicaId, i.primaryInstanceId,
            i.primaryAgentGeneration, i.primaryAgentControlVersion, i.epoch, RemoveIntent(i))
  }

  lemma {:induction false} AcceptedNames(i: RemoveReplicaIntent, agent: ReplicaAgent)
    requires Accepted(i, agent.endpoint)
    requires agent.replicaId == i.primaryReplicaId && agent.instanceId == i.primaryInstanceId
    requires agent.generation == i.primaryAgentGeneration
    ensures agent.NamedByRemoval(RequestFor(i)) && i.attemptId != "" && i.overallDeadline > 0
  {
    SoundIsBudgeted(i, agent.endpoint);
  }

  lemma {:induction false} StartsOnLivePrimary(i: RemoveReplicaIntent, agent: ReplicaAgent)
    ensures agent.Startable(RequestFor(i), LivePrimary(i))
  {
  }

  method AdmitLive(agent: ReplicaAgent, i: RemoveReplicaIntent)
    requires agent.Valid() && agent.active.None? && agent.activePeer.None? && !agent.shuttingDown
    requires agent.terminals == [] && agent.controlVersion == i.primaryAgentControlVersion < U64_MAX
    requires agent.executionSequence < U64_MAX
    requires agent.NamedByRemoval(RequestFor(i)) && i.overallDeadline > 0
    modifies agent
    ensures agent.Valid() && !agent.shuttingDown && InFlightAt(agent.active, i, 0)
    ensures agent.active.value.authority == GrantedFor(0)
  {
    StartsOnLivePrimary(i, agent);
    var _ := agent.AcceptRemoval(RequestFor(i), LivePrimary(i), 0);
  }

  predicate InFlightAt(active: Option<Active>, i: RemoveReplicaIntent, sequence: nat)
  {
    active.Some? && active.value.intent == Some(i)
    && active.value.coordinator == Some(CoordinatorId(i.primaryAgentGeneration, i.actionId, i.attemptId, sequence))
  }

  /** The first progress a coordinator publishes, as the event the agent gets. */
  function FirstProgress(i: RemoveReplicaIntent): Event
  {
    Event(CoordinatorId(i.primaryAgentGeneration, i.actionId, i.attemptId, 1),
          RemoveProgress(Initial(i.attemptId).(phase := InstallingCatchUpConfiguration)))
  }

  lemma {:induction false} FirstProgressGrants(active: Option<Active>, i: RemoveReplicaIntent)
    requires InFlightAt(active, i, 0) && active.value.authority.Revoked? && i.attemptId != ""
    ensures var r := OnEvent(active, FirstProgress(i));
            r.terminal.None? && InFlightAt(r.active, i, 1) && r.active.value.authority == GrantedFor(1)
  {
  }

  /**
   * Revoking at shutdown is not final: for every removal accepted by a new agent, progress that the coordinator
   * had sent by then is taken in afterwards, and grants the revoked authority again.
   */
  method QueuedProgressGrantsAgain(i: RemoveReplicaIntent, endpoint: string -> bool)
    returns (agent: ReplicaAgent, revoked: Authority)
    requires Accepted(i, endpoint) && i.primaryAgentControlVersion == 0
    ensures fresh(agent) && agent.Valid() && agent.shuttingDown && revoked.Revoked?
    ensures InFlightAt(agent.active, i, 1) && agent.active.value.authority == GrantedFor(1)
  {
    agent := new ReplicaAgent(i.primaryReplicaId, i.primaryInstanceId, i.primaryAgentGeneration, endpoint);
    AcceptedNames(i, agent);
    AdmitLive(agent, i);
    agent.BeginShutdown();
    revoked := agent.active.value.authority;
    FirstProgressGrants(agent.active, i);
    agent.HandleCoordinatorEvent(FirstProgress(i));
  }

  /** One such removal: of the first of two secondaries. */
  method ShutdownDuringSmallRemoval(endpoint: string -> bool) returns (agent: ReplicaAgent, revoked: Authority)
    requires endpoint("http://r:1")
    ensures fresh(agent) && agent.Valid() && agent.shuttingDown && revoked.Revoked?
    ensures agent.active.Some? && agent.active.value.authority == GrantedFor(1)
  {
    CrowdIsAccepted(2, "http://r:1", endpoint);
    agent, revoked := QueuedProgressGrantsAgain(Crowd(2, "http://r:1"), endpoint);
  }
}
