/**
 * What one removal coordinator sees and does, as a trace: which step may follow which, which effect is owed after
 * what was seen, and what may be published about the target. The coordinator is proved to keep to it elsewhere.
 */
module RemovalTrace {
  import opened Basics
  import opened Configurations
  import opened Removal
  import opened RemovalProgress

  // ---------------------------------------------------------------- what the coordinator can see

  datatype AccessStatus = Granted | ReconfigurationPending | NotPrimary | NoWriteQuorum

  datatype Connection = Connection(id: int, instanceId: string)

  datatype Partition = Partition(writeStatus: AccessStatus, connections: seq<Connection>)

  datatype WaitState = Running | Succeeded | Broken | Cancelled

  datatype QuorumWait = QuorumWait(executionId: string, state: WaitState, error: Option<Message>)

  datatype RuntimeSnapshot = RuntimeSnapshot(
    instanceId: string, role: Role, epoch: Epoch, partition: Option<Partition>,
    configuration: Option<ConfigurationStatus>, quorumWait: Option<QuorumWait>)

  datatype StageState = StageAccepted | StageInProgress | StageCompleted | StageFailed | StageStale
                      | StageRejected | StageConflict

  datatype StageObservation = StageObservation(messageId: string, state: StageState, error: Option<Message>)

  datatype PeerStatus = PeerStatus(
    protocolVersion: U32, replicaId: int, instanceId: string, generation: string, peerControlVersion: U64,
    role: Role, epoch: Epoch, healthy: bool, current: Option<StageObservation>,
    retained: seq<StageObservation>)

  /** The runtime is the intent's live primary, with write access. */
  predicate ExactPrimary(r: RuntimeSnapshot, i: RemoveReplicaIntent)
  {
    && r.instanceId == i.primaryInstanceId && r.role == Role.Primary && r.epoch == i.epoch
    && r.partition.Some? && r.partition.value.writeStatus == Granted
  }

  predicate TargetAbsent(r: RuntimeSnapshot, i: RemoveReplicaIntent)
  {
    r.partition.Some? && Connection(i.targetReplicaId, i.targetInstanceId) !in r.partition.value.connections
  }

  predicate ExactPeer(s: PeerStatus, i: RemoveReplicaIntent)
  {
    && s.protocolVersion == PEER_PROTOCOL_VERSION && s.replicaId == i.targetReplicaId
    && s.instanceId == i.targetInstanceId && Some(s.generation) == i.expectedTargetAgentGeneration
    && s.epoch == i.epoch
  }

  predicate Retired(s: PeerStatus) { !s.healthy && s.role == NoRole }

  /** The first observation of a message: the current action, then the newest retained one. */
  function FindStage(current: Option<StageObservation>, retained: seq<StageObservation>, messageId: string)
    : Option<StageObservation>
    decreases |retained|
  {
    if current.Some? && current.value.messageId == messageId then current
    else if retained == [] then None
    else if retained[|retained| - 1].messageId == messageId then Some(retained[|retained| - 1])
    else FindStage(None, retained[..|retained| - 1], messageId)
  }

  function RetireId(i: RemoveReplicaIntent): string { i.attemptId + ":Retire" }

  /** The exact target is up and knows of no Retire request: it has to be asked. */
  predicate NeedsRetire(s: PeerStatus, i: RemoveReplicaIntent)
  {
    ExactPeer(s, i) && !Retired(s) && FindStage(s.current, s.retained, RetireId(i)).None?
  }

  // ---------------------------------------------------------------- steps

  datatype Effect =
    | InstallCatchUp | StartQuorumWait | InstallReduced | RestorePrevious | CancelQuorumWait
    | RemoveConnection | AskStatus | Retire(commit: int, expiry: int)

  datatype PeerErrorKind = PeerUnavailable | PeerStale

  /** What came of a call: a runtime effect went well or not; the target answered, failed in transport, or not. */
  datatype Answer =
    | Well | Ill
    | StatusCame | StageCame(state: StageState, error: Option<Message>)
    | PeerFailed(kind: PeerErrorKind, text: Message) | NoAnswer

  /** What can stop the coordinator, besides a call. */
  datatype Denial =
    | NoAuthority                         // its authority was gone
    | Unreached                            // the agent was gone
    | Closed                               // nothing could be waited for any more
    | TooLate(now: int, deadline: int)
    | Unfit(runtime: RuntimeSnapshot, allowed: set<Observation>)
    | NotInstalled(runtime: RuntimeSnapshot)

  datatype Step =
    | Gated(runtime: RuntimeSnapshot, clock: Option<int>)  // authority held, the exact primary, before a deadline
    | SawWait(runtime: RuntimeSnapshot)    // the tracked quorum wait had not succeeded
    | SawQuorum(runtime: RuntimeSnapshot)  // the tracked quorum wait had succeeded
    | SawAbsent(runtime: RuntimeSnapshot)  // the target connection was not there
    | SawPresent(runtime: RuntimeSnapshot) // the target connection was there
    | SawStatus(status: PeerStatus)        // the target answered, and was not the exact one closed
    | SawRetired(status: PeerStatus)       // the exact target had closed
    | SawExpiry(now: int)                  // the published expiry had passed
    | Sent(effect: Effect, at: int, answer: Answer)  // the call was made, at this reading of the clock
    | Late(effect: Effect, limit: int, first: int, second: int, last: int)  // not made: its time was up
    | Published(progress: Progress)
    | Lost                                 // the agent's answer to the last publication never came
    | Looked(runtime: RuntimeSnapshot)     // a look outside any gate, to find out what there is to do
    | NoExpiry(now: int)                   // no expiry could be computed from the clock
    | Denied(denial: Denial)               // what stopped a step that was due

  type Trace = seq<Step>

  function LastPublished(t: Trace): Option<Progress>
  {
    if t == [] then None
    else if t[|t| - 1].Published? then Some(t[|t| - 1].progress)
    else LastPublished(t[..|t| - 1])
  }

  function SentEffects(t: Trace): set<Effect>
  {
    if t == [] then {}
    else if t[|t| - 1].Sent? then SentEffects(t[..|t| - 1]) + {t[|t| - 1].effect}
    else SentEffects(t[..|t| - 1])
  }

  /** Everything published, in order. */
  function Publications(t: Trace): seq<Progress>
  {
    if t == [] then []
    else if t[|t| - 1].Published? then Publications(t[..|t| - 1]) + [t[|t| - 1].progress]
    else Publications(t[..|t| - 1])
  }

  function WaitId(i: RemoveReplicaIntent): string { i.attemptId + ":remove-quorum" }

  predicate QuorumReached(r: RuntimeSnapshot, i: RemoveReplicaIntent)
  {
    r.quorumWait.Some? && r.quorumWait.value.executionId == WaitId(i) && r.quorumWait.value.state.Succeeded?
  }

  predicate QuorumSeen(t: Trace)
  {
    t != [] && (t[|t| - 1].SawQuorum? || QuorumSeen(t[..|t| - 1]))
  }

  predicate GatedAt(t: Trace, i: RemoveReplicaIntent, o: Observation)
  {
    t != [] && t[|t| - 1].Gated? && Classify(t[|t| - 1].runtime.configuration, i) == Some(o)
  }

  predicate CommitPublished(t: Trace)
  {
    LastPublished(t).Some? && LastPublished(t).value.commitObserved
  }

  predicate PhaseIs(t: Trace, phase: Phase)
  {
    LastPublished(t).Some? && LastPublished(t).value.phase == phase
  }

  function Rank(phase: Phase): nat
  {
    match phase
    case Validating => 0
    case InstallingCatchUpConfiguration => 1
    case WaitingForCatchUpQuorum => 2
    case InstallingCurrentConfiguration => 3
    case Compensating => 4
    case RemovingConnection => 5
    case RetiringTarget => 6
    case Attesting => 7
  }

  /** Progress only gains: a phase, the dispatch mark, the commit with its times, the absent connection. */
  predicate Gains(a: Progress, b: Progress)
  {
    && a.attemptId == b.attemptId
    && Rank(a.phase) <= Rank(b.phase)
    && (a.currentInstallDispatched ==> b.currentInstallDispatched)
    && (a.commitObserved ==> b.commitObserved && b.commitTime == a.commitTime
                             && b.retirementExpiry == a.retirementExpiry)
    && (a.connectionAbsent ==> b.connectionAbsent)
  }

  // ---------------------------------------------------------------- deadlines

  /** The reading an effect has to be sent before; removing the connection only has the deadline of its call. */
  function LimitOf(t: Trace, e: Effect, i: RemoveReplicaIntent): Option<int>
  {
    match e
    case InstallCatchUp | StartQuorumWait | InstallReduced => Some(i.overallDeadline)
    case RestorePrevious | CancelQuorumWait =>
      if LastPublished(t).Some? then LastPublished(t).value.compensationExpiry else None
    case AskStatus | Retire(_, _) =>
      if LastPublished(t).Some? then LastPublished(t).value.retirementExpiry else None
    case RemoveConnection => None
  }

  predicate InTime(t: Trace, e: Effect, i: RemoveReplicaIntent, now: int)
  {
    LimitOf(t, e, i).Some? ==> now < LimitOf(t, e, i).value
  }

  /** The gate in front of an effect was passed in time for it. */
  predicate GatedFor(t: Trace, i: RemoveReplicaIntent, o: Observation, e: Effect)
  {
    && GatedAt(t, i, o)
    && (LimitOf(t, e, i).Some? ==> t[|t| - 1].clock.Some? && t[|t| - 1].clock.value < LimitOf(t, e, i).value)
  }

  /** One call lasts no longer than its timeout, and never past the limit. */
  function CallEnd(i: RemoveReplicaIntent, first: int, limit: int): int
  {
    Min(Min(first + i.callTimeout, I64_MAX), limit)
  }

  predicate TimeIsUp(i: RemoveReplicaIntent, limit: int, first: int, last: int)
  {
    first >= limit || last >= CallEnd(i, first, limit)
  }

  // ---------------------------------------------------------------- effects

  predicate OwnWait(r: RuntimeSnapshot, i: RemoveReplicaIntent)
  {
    r.quorumWait.Some? && r.quorumWait.value.executionId == WaitId(i)
  }

  predicate Attempted(s: Step) { (s.Sent? || s.Late?) && s.effect == RemoveConnection }

  // ---------------------------------------------------------------- what can stop a run

  /** The reading that the phase published last has to be over by. */
  function PhaseDeadline(t: Trace, i: RemoveReplicaIntent): Option<int>
  {
    if CommitPublished(t) then LastPublished(t).value.retirementExpiry
    else if PhaseIs(t, Compensating) then LastPublished(t).value.compensationExpiry
    else Some(i.overallDeadline)
  }

  /** Reduced Current was seen last. */
  predicate SawCommitLast(t: Trace, i: RemoveReplicaIntent)
  {
    && t != [] && (t[|t| - 1].Gated? || t[|t| - 1].Looked?)
    && Classify(t[|t| - 1].runtime.configuration, i) == Some(ReducedCurrent)
  }

  /** The configurations a gate may ask for: those the phase can be in. */
  predicate Expected(t: Trace, i: RemoveReplicaIntent, allowed: set<Observation>)
  {
    || (allowed == {ReducedCurrent} && (CommitPublished(t) || SawCommitLast(t, i)))
    || (allowed == {ReducedCatchUp, ReducedCurrent}
        && (PhaseIs(t, WaitingForCatchUpQuorum) || PhaseIs(t, InstallingCurrentConfiguration)))
    || (allowed == {PreviousCurrent, ReducedCatchUp, ReducedCurrent}
        && (PhaseIs(t, InstallingCatchUpConfiguration) || PhaseIs(t, Compensating)))
  }

  predicate Passes(r: RuntimeSnapshot, i: RemoveReplicaIntent, allowed: set<Observation>)
  {
    && ExactPrimary(r, i)
    && Classify(r.configuration, i).Some? && Classify(r.configuration, i).value in allowed
  }

  /** The gate behind an attempt at this effect still saw the configuration in front of it. */
  predicate StillAt(t: Trace, i: RemoveReplicaIntent, e: Effect, o: Observation)
  {
    GatedAt(t, i, o) && |t| >= 2 && (t[|t| - 2].Sent? || t[|t| - 2].Late?) && t[|t| - 2].effect == e
  }

  /** A denial rests on what was read: a time that was up, a runtime that did not fit. */
  predicate Genuine(t: Trace, i: RemoveReplicaIntent, d: Denial)
  {
    match d
    case NoAuthority | Unreached | Closed => true
    case TooLate(now, deadline) => PhaseDeadline(t, i) == Some(deadline) && now >= deadline
    case Unfit(r, allowed) => Expected(t, i, allowed) && !Passes(r, i, allowed)
    case NotInstalled(r) =>
      && t != [] && t[|t| - 1].Gated? && t[|t| - 1].runtime == r
      && (StillAt(t, i, InstallCatchUp, PreviousCurrent) || StillAt(t, i, InstallReduced, ReducedCatchUp))
  }

  /** Something outside failed: what stopped a step, a call that went wrong or came too late, a lost agreement. */
  predicate Adverse(t: Trace, i: RemoveReplicaIntent, s: Step)
  {
    match s
    case Denied(_) | Lost | NoExpiry(_) => true
    case Sent(_, _, answer) => answer.Ill?
    case Late(_, limit, first, second, _) => TimeIsUp(i, limit, first, second)
    case Looked(r) => Classify(r.configuration, i).None?
    case SawWait(r) => OwnWait(r, i) && (r.quorumWait.value.state.Broken? || r.quorumWait.value.state.Cancelled?)
    case SawPresent(_) => PhaseIs(t, Attesting)
    case _ => false
  }

  predicate Hampered(t: Trace, i: RemoveReplicaIntent)
  {
    t != [] && (Adverse(t[..|t| - 1], i, t[|t| - 1]) || Hampered(t[..|t| - 1], i))
  }

  // ---------------------------------------------------------------- what the target told

  /** What the state of a Retire stage means for the retirement. */
  predicate StageMeans(state: StageState, r: Retirement)
  {
    && (r.InProgress? <==> state.StageAccepted? || state.StageInProgress? || state.StageCompleted?)
    && (r.Stale? <==> state.StageStale?)
    && (r.Failed? <==> state.StageFailed? || state.StageRejected? || state.StageConflict?)
  }

  function Bounded(error: Option<Message>): Option<Message>
  {
    if error.Some? then Some(Normalized(error.value)) else None
  }

  /** What one step says about the retirement, and with which error. */
  predicate Tells(s: Step, i: RemoveReplicaIntent, r: Retirement, error: Option<Message>)
  {
    match s
    case Sent(_, _, StageCame(state, reason)) => StageMeans(state, r) && error == Bounded(reason)
    case Sent(_, _, PeerFailed(kind, text)) =>
      r == (if kind.PeerStale? then Stale else Unavailable) && error == Some(text)
    case Sent(_, _, NoAnswer) => r.Unavailable? && error == Some(Own)
    case Late(e, _, _, _, _) => (e.AskStatus? || e.Retire?) && r.Unavailable? && error == Some(Own)
    case SawStatus(status) =>
      if !ExactPeer(status, i) then r.Stale? && error == Some(Own)
      else
        var found := FindStage(status.current, status.retained, RetireId(i));
        && found.Some? && StageMeans(found.value.state, r)
        && error == if r.InProgress? then None else Bounded(found.value.error)
    case _ => false
  }

  /** The last step that is not a gate tells it. */
  predicate Told(t: Trace, i: RemoveReplicaIntent, r: Retirement, error: Option<Message>)
  {
    t != [] && if t[|t| - 1].Gated? then Told(t[..|t| - 1], i, r, error) else Tells(t[|t| - 1], i, r, error)
  }

  /** What a retirement ends as: closed if that was seen, else what was published last, which can not go on. */
  function EndsAs(t: Trace): Retirement
  {
    if RetirementSeen(t) then RemovalProgress.Completed
    else if LastPublished(t).None? || LastPublished(t).value.retirement.NotAttempted? then Unavailable
    else if LastPublished(t).value.retirement.InProgress? then Failed
    else LastPublished(t).value.retirement
  }

  /** What is published about the retirement is what was told; nothing is told before it is under way. */
  predicate Reports(t: Trace, i: RemoveReplicaIntent, p: Progress)
  {
    match p.phase
    case Attesting =>
      PhaseIs(t, RetiringTarget) && p.retirement == EndsAs(t)
      && p.error == if RetirementSeen(t) then None else Some(Own)
    case RetiringTarget =>
      if !PhaseIs(t, RetiringTarget) then p.retirement.NotAttempted?
      else if Reachable(i) then Told(t, i, p.retirement, p.error)
      else p.retirement.Unavailable?
    case _ => p.retirement.NotAttempted?
  }

  /**
   * The effect a run owes after what it saw last: it has to be sent next, unless its time is up. A run that
   * turns away from what it owes has to refuse.
   */
  function Owed(t: Trace, i: RemoveReplicaIntent): Option<Effect>
  {
    if t == [] then None
    else match t[|t| - 1]
      case Gated(r, _) =>
        if |t| >= 2 && t[|t| - 2].Published? && t[|t| - 2].progress.phase.InstallingCatchUpConfiguration?
           && Classify(r.configuration, i) == Some(PreviousCurrent) then Some(InstallCatchUp)
        else None
      case Published(p) =>
        if p.phase.InstallingCurrentConfiguration? && p.currentInstallDispatched && !p.commitObserved
        then Some(InstallReduced) else None
      case SawWait(r) =>
        if PhaseIs(t, Compensating) then
          Some(if OwnWait(r, i) && r.quorumWait.value.state.Running? then CancelQuorumWait else RestorePrevious)
        else if OwnWait(r, i) then None else Some(StartQuorumWait)
      case SawQuorum(_) => if PhaseIs(t, Compensating) then Some(RestorePrevious) else None
      case SawPresent(_) =>
        if PhaseIs(t, RemovingConnection) && !(|t| >= 3 && Attempted(t[|t| - 3])) then Some(RemoveConnection)
        else None
      case SawStatus(s) =>
        if NeedsRetire(s, i) && CommitPublished(t) && LastPublished(t).value.commitTime.Some?
           && LastPublished(t).value.retirementExpiry.Some? then
          Some(Retire(LastPublished(t).value.commitTime.value, LastPublished(t).value.retirementExpiry.value))
        else None
      case _ => None
  }

  /** The effect is sent, its time is up, or the agent has not agreed to what announced it. */
  predicate Pays(s: Step, e: Effect)
  {
    ((s.Sent? || s.Late?) && s.effect == e) || (s.Lost? && e.InstallReduced?)
  }

  /** What an effect follows: a gate in time, what was seen behind it, and what was published. */
  predicate MaySend(t: Trace, e: Effect, i: RemoveReplicaIntent)
  {
    match e
    case InstallCatchUp =>
      GatedFor(t, i, PreviousCurrent, e) && PhaseIs(t, InstallingCatchUpConfiguration)
      && InstallReduced !in SentEffects(t)
    case StartQuorumWait =>
      && t != [] && t[|t| - 1].SawWait? && !OwnWait(t[|t| - 1].runtime, i)
      && GatedFor(t[..|t| - 1], i, ReducedCatchUp, e) && PhaseIs(t, WaitingForCatchUpQuorum)
    case InstallReduced =>
      && PhaseIs(t, InstallingCurrentConfiguration) && t[|t| - 1].Published?
      && LastPublished(t).value.currentInstallDispatched
      && GatedFor(t[..|t| - 1], i, ReducedCatchUp, e) && QuorumSeen(t)
      && InstallReduced !in SentEffects(t) && RestorePrevious !in SentEffects(t) && !CommitPublished(t)
    case RestorePrevious | CancelQuorumWait =>
      && t != [] && (t[|t| - 1].SawWait? || t[|t| - 1].SawQuorum?)
      && GatedFor(t[..|t| - 1], i, ReducedCatchUp, e) && PhaseIs(t, Compensating)
      && InstallReduced !in SentEffects(t) && !CommitPublished(t)
    case RemoveConnection =>
      && t != [] && t[|t| - 1].SawPresent?
      && GatedAt(t[..|t| - 1], i, ReducedCurrent) && CommitPublished(t)
    case AskStatus =>
      && GatedFor(t, i, ReducedCurrent, e) && CommitPublished(t) && LastPublished(t).value.connectionAbsent
    case Retire(commit, expiry) =>
      && t != [] && t[|t| - 1].SawStatus? && NeedsRetire(t[|t| - 1].status, i)
      && GatedFor(t[..|t| - 1], i, ReducedCurrent, e) && CommitPublished(t)
      && LastPublished(t).value.connectionAbsent
      && LastPublished(t).value.commitTime == Some(commit)
      && LastPublished(t).value.retirementExpiry == Some(expiry)
  }

  predicate MayPublish(t: Trace, p: Progress, i: RemoveReplicaIntent)
  {
    && ValidFor(i, p)
    && var last := LastPublished(t);
    && (last.Some? ==> Gains(last.value, p))
    && (p.commitObserved && !CommitPublished(t) ==> GatedAt(t, i, ReducedCurrent))
    && (p.connectionAbsent && !(last.Some? && last.value.connectionAbsent) ==> t != [] && t[|t| - 1].SawAbsent?)
    && (p.phase.Compensating? ==> InstallReduced !in SentEffects(t))
    && Reports(t, i, p)
  }

  /** The answer is one that such a call can get. */
  predicate AnswerFits(e: Effect, a: Answer)
  {
    match e
    case AskStatus => a.StatusCame? || a.PeerFailed? || a.NoAnswer?
    case Retire(_, _) => a.StageCame? || a.PeerFailed? || a.NoAnswer?
    case _ => a.Well? || a.Ill?
  }

  /** The expiry of the phase published last lies behind. */
  predicate Expired(t: Trace, now: int)
  {
    && LastPublished(t).Some?
    && var expiry := if CommitPublished(t) then LastPublished(t).value.retirementExpiry
                     else LastPublished(t).value.compensationExpiry;
       expiry.Some? && now >= expiry.value
  }

  predicate MayFollow(t: Trace, s: Step, i: RemoveReplicaIntent)
  {
    && (Owed(t, i).Some? ==> Pays(s, Owed(t, i).value))
    && match s
       case Gated(r, _) => ExactPrimary(r, i) && Classify(r.configuration, i).Some?
       case SawWait(r) => GatedAt(t, i, ReducedCatchUp) && !QuorumReached(r, i)
       case SawQuorum(r) => GatedAt(t, i, ReducedCatchUp) && QuorumReached(r, i)
       case SawAbsent(r) => GatedAt(t, i, ReducedCurrent) && TargetAbsent(r, i) && CommitPublished(t)
       case SawPresent(r) => GatedAt(t, i, ReducedCurrent) && !TargetAbsent(r, i) && CommitPublished(t)
       case SawStatus(p) =>
         && GatedAt(t, i, ReducedCurrent) && !(ExactPeer(p, i) && Retired(p))
         && CommitPublished(t) && PhaseIs(t, RetiringTarget)
       case SawRetired(p) =>
         && GatedAt(t, i, ReducedCurrent) && ExactPeer(p, i) && Retired(p)
         && CommitPublished(t) && PhaseIs(t, RetiringTarget)
       case SawExpiry(now) => Expired(t, now)
       case Sent(e, at, answer) => MaySend(t, e, i) && InTime(t, e, i, at) && AnswerFits(e, answer)
       case Late(e, limit, first, _, last) =>
         MaySend(t, e, i) && TimeIsUp(i, limit, first, last)
         && (LimitOf(t, e, i).Some? ==> limit == LimitOf(t, e, i).value)
       case Published(p) => MayPublish(t, p, i)
       case Lost => t != [] && t[|t| - 1].Published?
       case Looked(_) => true
       case NoExpiry(now) =>
         || CompensationExpiry(i, Min(now, i.compensationDeadlineCap)).None?
         || (GatedAt(t, i, ReducedCurrent) && RetirementExpiry(i, Min(now, i.overallDeadline)).None?)
       case Denied(d) => Genuine(t, i, d)
  }

  predicate Legal(t: Trace, i: RemoveReplicaIntent)
  {
    t == [] || (Legal(t[..|t| - 1], i) && MayFollow(t[..|t| - 1], t[|t| - 1], i))
  }

  lemma {:induction false} LegalExtends(t: Trace, s: Step, i: RemoveReplicaIntent)
    requires Legal(t, i) && MayFollow(t, s, i)
    ensures Legal(t + [s], i)
    ensures LastPublished(t + [s]) == if s.Published? then Some(s.progress) else LastPublished(t)
    ensures QuorumSeen(t + [s]) == (QuorumSeen(t) || s.SawQuorum?)
    ensures Publications(t + [s]) == Publications(t) + (if s.Published? then [s.progress] else [])
    ensures SentEffects(t + [s]) == SentEffects(t) + (if s.Sent? then {s.effect} else {})
    ensures RetirementSeen(t + [s]) == (RetirementSeen(t) || s.SawRetired?)
    ensures Hampered(t + [s], i) == (Hampered(t, i) || Adverse(t, i, s))
  {
    assert (t + [s])[..|t|] == t;
  }

  /** The target is seen to have closed only once its retirement was published as under way. */
  lemma {:induction false} RetirementIsPublished(t: Trace, i: RemoveReplicaIntent)
    requires Legal(t, i) && RetirementSeen(t)
    ensures LastPublished(t).Some? && Rank(LastPublished(t).value.phase) >= Rank(RetiringTarget)
  {
    if !t[|t| - 1].SawRetired? { RetirementIsPublished(t[..|t| - 1], i); }
  }

  predicate RetirementSeen(t: Trace)
  {
    t != [] && (t[|t| - 1].SawRetired? || RetirementSeen(t[..|t| - 1]))
  }

  lemma {:induction false} NotYetRetired(t: Trace, i: RemoveReplicaIntent)
    requires Legal(t, i) && LastPublished(t).Some?
    requires Rank(LastPublished(t).value.phase) < Rank(RetiringTarget)
    ensures !RetirementSeen(t)
  {
    if RetirementSeen(t) { RetirementIsPublished(t, i); }
  }

  predicate ExpirySeen(t: Trace, expiry: int)
  {
    exists k :: 0 <= k < |t| && t[k].SawExpiry? && t[k].now >= expiry
  }

  predicate AbsentAtLast(t: Trace, i: RemoveReplicaIntent)
  {
    t != [] && t[|t| - 1].SawAbsent? && GatedAt(t[..|t| - 1], i, ReducedCurrent)
  }

  /** The evidence a terminal result rests on, at the end of its trace. */
  predicate Evidence(t: Trace, i: RemoveReplicaIntent, result: TerminalResult)
  {
    && LastPublished(t).Some? && ValidTerminal(i, LastPublished(t).value, result)
    && match result
       case CommittedClean => RetirementSeen(t) && AbsentAtLast(t, i)
       case CommittedDegraded =>
         && !RetirementSeen(t) && AbsentAtLast(t, i)
         && ((i.mode.Force? && !Reachable(i))
             || (LastPublished(t).value.retirementExpiry.Some?
                 && ExpirySeen(t, LastPublished(t).value.retirementExpiry.value)))
       case Compensated => GatedAt(t, i, PreviousCurrent)
       case CompensationIncomplete =>
         && |t| >= 2 && t[|t| - 1].Published? && t[|t| - 2].SawExpiry?
         && t[|t| - 2].now >= LastPublished(t).value.compensationExpiry.value
  }

  // ---------------------------------------------------------------- what legal traces do, and cannot do

  predicate IsSent(s: Step, e: Effect) { s.Sent? && s.effect == e }

  /** What a legal trace owes at any point is what it does next, or misses because the time for it is up. */
  lemma {:induction false} DebtsArePaid(t: Trace, i: RemoveReplicaIntent, n: nat)
    requires Legal(t, i) && n < |t| && Owed(t[..n], i).Some?
    ensures var e := Owed(t[..n], i).value;
            || IsSent(t[n], e)
            || (t[n].Late? && t[n].effect == e && TimeIsUp(i, t[n].limit, t[n].first, t[n].last))
            || (t[n].Lost? && e == InstallReduced)
  {
    LegalPrefix(t, n, i);
  }

  /** Nothing is owed where a result is reported. */
  lemma {:induction false} ResultsOweNothing(t: Trace, i: RemoveReplicaIntent, result: TerminalResult)
    requires Legal(t, i) && Evidence(t, i, result)
    ensures Owed(t, i).None?
  {
    if result.Compensated? && |t| >= 2 && t[|t| - 2].Published? {
      assert LastPublished(t) == LastPublished(t[..|t| - 1]) == Some(t[|t| - 2].progress);
    }
  }

  /**
   * In a run that reports a result, every status of the exact target that was up and knew of no Retire request
   * is followed at once by the request, with the published commit and expiry, unless its time was up.
   */
  lemma {:induction false} EveryNeedIsAnswered(t: Trace, i: RemoveReplicaIntent, result: TerminalResult, n: nat)
    requires Legal(t, i) && Evidence(t, i, result)
    requires n < |t| && t[n].SawStatus? && NeedsRetire(t[n].status, i)
    ensures n + 1 < |t|
    ensures var last := LastPublished(t[..n]);
            && last.Some? && last.value.commitTime.Some? && last.value.retirementExpiry.Some?
            && (t[n + 1].Sent? || t[n + 1].Late?)
            && t[n + 1].effect == Retire(last.value.commitTime.value, last.value.retirementExpiry.value)
            && (t[n + 1].Late? ==> TimeIsUp(i, last.value.retirementExpiry.value, t[n + 1].first, t[n + 1].last))
  {
    LegalPrefix(t, n, i);
    PublishedAreValid(t[..n], i);
    ResultsOweNothing(t, i, result);
    assert t[..n + 1][..n] == t[..n];
    if n + 1 < |t| { LegalPrefix(t, n + 1, i); }
  }

  /** No effect is sent at a reading that lies behind its limit, nor behind a gate that was passed too late. */
  lemma {:induction false} NothingIsSentTooLate(t: Trace, i: RemoveReplicaIntent, n: nat)
    requires Legal(t, i) && n < |t| && t[n].Sent?
    ensures t[n].effect in {InstallCatchUp, StartQuorumWait, InstallReduced} ==> t[n].at < i.overallDeadline
    ensures t[n].effect in {RestorePrevious, CancelQuorumWait} ==>
              LastPublished(t[..n]).Some? && LastPublished(t[..n]).value.compensationExpiry.Some?
              && t[n].at < LastPublished(t[..n]).value.compensationExpiry.value
    ensures t[n].effect == AskStatus || t[n].effect.Retire? ==>
              LastPublished(t[..n]).Some? && LastPublished(t[..n]).value.retirementExpiry.Some?
              && t[n].at < LastPublished(t[..n]).value.retirementExpiry.value
  {
    LegalPrefix(t, n, i);
    PublishedAreValid(t[..n], i);
  }

  /**
   * What is published about the retirement of a reachable target is what the last step before it told, with
   * nothing but gates in between.
   */
  lemma {:induction false} RetirementIsReported(t: Trace, i: RemoveReplicaIntent, n: nat)
    requires Legal(t, i) && n < |t| && t[n].Published? && t[n].progress.phase.RetiringTarget?
    requires PhaseIs(t[..n], RetiringTarget) && Reachable(i)
    ensures exists k :: 0 <= k < n && Tells(t[k], i, t[n].progress.retirement, t[n].progress.error)
                        && forall j :: k < j < n ==> t[j].Gated?
  {
    LegalPrefix(t, n, i);
    TellingStep(t[..n], i, t[n].progress.retirement, t[n].progress.error);
    var k :| 0 <= k < n && Tells(t[..n][k], i, t[n].progress.retirement, t[n].progress.error)
             && forall j :: k < j < n ==> t[..n][j].Gated?;
    assert t[k] == t[..n][k];
    forall j | k < j < n ensures t[j].Gated? { assert t[j] == t[..n][j]; }
  }

  lemma {:induction false} TellingStep(t: Trace, i: RemoveReplicaIntent, r: Retirement, error: Option<Message>)
    requires Told(t, i, r, error)
    ensures exists k :: 0 <= k < |t| && Tells(t[k], i, r, error) && forall j :: k < j < |t| ==> t[j].Gated?
  {
    var n := |t| - 1;
    if t[n].Gated? {
      TellingStep(t[..n], i, r, error);
      var k :| 0 <= k < n && Tells(t[..n][k], i, r, error) && forall j :: k < j < n ==> t[..n][j].Gated?;
      assert t[k] == t[..n][k];
      forall j | k < j < |t| ensures t[j].Gated? {
        if j < n { assert t[j] == t[..n][j]; }
      }
    } else {
      assert Tells(t[n], i, r, error);
    }
  }

  /** A hampered trace holds the step that hampered it. */
  lemma {:induction false} HamperedByAStep(t: Trace, i: RemoveReplicaIntent)
    requires Hampered(t, i)
    ensures exists k :: 0 <= k < |t| && Adverse(t[..k], i, t[k])
  {
    var n := |t| - 1;
    if !Adverse(t[..n], i, t[n]) {
      HamperedByAStep(t[..n], i);
      var k :| 0 <= k < n && Adverse(t[..n][..k], i, t[..n][k]);
      assert t[..n][..k] == t[..k] && t[..n][k] == t[k];
    }
  }

  lemma {:induction false} LegalPrefix(t: Trace, n: nat, i: RemoveReplicaIntent)
    requires Legal(t, i) && n <= |t|
    ensures Legal(t[..n], i)
    ensures n < |t| ==> MayFollow(t[..n], t[n], i)
    decreases |t|
  {
    if n == |t| {
      assert t[..n] == t;
    } else {
      assert t[..|t| - 1][..n] == t[..n];
      if n < |t| - 1 { LegalPrefix(t[..|t| - 1], n, i); }
    }
  }

  lemma {:induction false} SentIsRecorded(t: Trace, a: nat)
    requires a < |t| && t[a].Sent?
    ensures t[a].effect in SentEffects(t)
  {
    if a < |t| - 1 { SentIsRecorded(t[..|t| - 1], a); }
  }

  /** The reduced configuration is installed at most once, and never together with a restoration. */
  lemma {:induction false} AtMostOneInstallAndNoRestore(t: Trace, i: RemoveReplicaIntent, a: nat, b: nat)
    requires Legal(t, i)
    requires a < |t| && b < |t| && IsSent(t[a], InstallReduced)
    ensures IsSent(t[b], InstallReduced) ==> a == b
    ensures !IsSent(t[b], RestorePrevious)
  {
    LegalPrefix(t, a, i);
    LegalPrefix(t, b, i);
    if a < b { SentIsRecorded(t[..b], a); }
    if b < a && t[b].Sent? { SentIsRecorded(t[..a], b); }
  }

  lemma {:induction false} QuorumIsOnRecord(t: Trace)
    requires QuorumSeen(t)
    ensures exists k :: 0 <= k < |t| && t[k].SawQuorum?
  {
    if !t[|t| - 1].SawQuorum? {
      QuorumIsOnRecord(t[..|t| - 1]);
      var k :| 0 <= k < |t| - 1 && t[..|t| - 1][k].SawQuorum?;
      assert t[k].SawQuorum?;
    }
  }

  /**
   * Before reduced Current is sent, the tracked quorum wait was seen to have succeeded in the catch-up
   * configuration, and the dispatch was published.
   */
  lemma InstallFollowsTheQuorum(t: Trace, i: RemoveReplicaIntent, a: nat)
    requires Legal(t, i) && a < |t| && IsSent(t[a], InstallReduced)
    ensures exists k :: 0 < k < a && t[k].SawQuorum? && QuorumReached(t[k].runtime, i)
              && GatedAt(t[..k], i, ReducedCatchUp)
    ensures 0 < a && t[a - 1].Published? && t[a - 1].progress.currentInstallDispatched
  {
    LegalPrefix(t, a, i);
    QuorumIsOnRecord(t[..a]);
    var k :| 0 <= k < a && t[..a][k].SawQuorum?;
    LegalPrefix(t, k, i);
    assert t[k] == t[..a][k];
  }

  /** Published progress only gains, over any stretch of a legal trace. */
  lemma {:induction false} PublishedProgressGains(t: Trace, i: RemoveReplicaIntent, a: nat)
    requires Legal(t, i)
    requires a < |t| && t[a].Published?
    ensures LastPublished(t).Some? && Gains(t[a].progress, LastPublished(t).value)
    decreases |t|
  {
    if a < |t| - 1 { PublishedProgressGains(t[..|t| - 1], i, a); }
  }

  /** Once a commit was published, nothing undoes it: no restoration, no new installation, no compensation. */
  lemma {:induction false} CommitIsFinal(t: Trace, i: RemoveReplicaIntent, a: nat, b: nat)
    requires Legal(t, i)
    requires a < b < |t| && t[a].Published? && t[a].progress.commitObserved
    ensures !IsSent(t[b], RestorePrevious) && !IsSent(t[b], InstallReduced) && !IsSent(t[b], InstallCatchUp)
    ensures t[b].Published? ==> t[b].progress.commitObserved && t[b].progress.commitTime == t[a].progress.commitTime
                                && !t[b].progress.phase.Compensating?
  {
    LegalPrefix(t, b, i);
    PublishedProgressGains(t[..b], i, a);
    PublishedAreValid(t[..b], i);
  }

  lemma {:induction false} PublishedAreValid(t: Trace, i: RemoveReplicaIntent)
    requires Legal(t, i)
    ensures LastPublished(t).Some? ==> ValidFor(i, LastPublished(t).value)
  {
    if t != [] { PublishedAreValid(t[..|t| - 1], i); }
  }

  /** No trace that published a commit supports a compensated result. */
  lemma {:induction false} CommittedNeverCompensated(t: Trace, i: RemoveReplicaIntent, a: nat, result: TerminalResult)
    requires Legal(t, i) && Evidence(t, i, result)
    requires a < |t| && t[a].Published? && t[a].progress.commitObserved
    ensures result == CommittedClean || result == CommittedDegraded
  {
    PublishedProgressGains(t, i, a);
  }
}
