/**
 * The removal coordinator: one run over an environment that answers every question as it likes. Clock,
 * runtime snapshots, authority, effect replies and peer replies are unconstrained, so what is proved holds for
 * effects that time out and still apply, and for configurations and roles that change between any two steps.
 */
module RemovalCoordinator {
  import opened Basics
  import opened Configurations
  import opened Removal
  import opened RemovalProgress
  import opened RemovalTrace
  import opened StageRequests
  import opened ConfigurationFence
  import opened RetireRequest

  datatype Outcome<+T> = Done(value: T) | Refused(error: Message) {
    predicate IsFailure() { Refused? }

    function PropagateFailure<U>(): Outcome<U>
      requires Refused?
    {
      Refused(error)
    }

    function Extract(): T
      requires Done?
    {
      value
    }
  }

  // ---------------------------------------------------------------- the environment

  method Clock() returns (now: int) { now := *; }

  method Snapshot() returns (runtime: RuntimeSnapshot) { runtime := *; }

  method AuthorityMatches() returns (granted: bool) { granted := *; }

  method ChannelOpen() returns (open: bool) { open := *; }

  datatype EffectReply = Unit | DataLoss | EffectError(text: Message) | NoReply

  method ReplyToEffect() returns (reply: EffectReply) { reply := *; }

  datatype QuorumVerdict = AlreadyCommitted | Reached | LookAgain

  datatype Restored = SawReduced | SawPrevious | NotYet

  datatype Recovery = CommitFound | Ended(result: TerminalResult)

  /** A turn of the retirement settles it, or leaves the last observation for the next turn. */
  datatype Turn = Settled(retirement: Retirement) | Again(last: Retirement)

  predicate Final(r: Retirement) { !r.NotAttempted? && !r.InProgress? }

  function OfStage(state: StageState): Retirement
  {
    match state
    case StageAccepted | StageInProgress | StageCompleted => InProgress
    case StageStale => Stale
    case StageFailed | StageRejected | StageConflict => Failed
  }

  /** A peer call answers, fails in transport with a bounded message, or does not answer in time. */
  datatype PeerReply<+T> = Answered(value: T) | TransportError(kind: PeerErrorKind, text: Message) | TimedOut

  method PeerCall<T(0)>() returns (reply: PeerReply<T>)
    ensures reply.TransportError? ==> Fits(reply.text)
  {
    reply := *;
    if reply.TransportError? { reply := TransportError(reply.kind, Normalized(reply.text)); }
  }

  function RetirementOf(kind: PeerErrorKind): Retirement
  {
    match kind
    case PeerUnavailable => Unavailable
    case PeerStale => Stale
  }

  function AtExpiry(last: Retirement): (r: Retirement)
    ensures last != Completed && last != NotAttempted && last != InProgress ==> r == last
    ensures !r.NotAttempted? && !r.InProgress?
    ensures !last.Completed? ==> !r.Completed?
  {
    if last.NotAttempted? || last.InProgress? then Failed else last
  }

  function NormalizedOption(error: Option<Message>): (r: Option<Message>)
    ensures r.Some? ==> Fits(r.value)
  {
    if error.Some? then Some(Normalized(error.value)) else None
  }

  // ---------------------------------------------------------------- what every step keeps

  /** What every step relies on in an accepted intent. */
  predicate WellPosed(i: RemoveReplicaIntent)
  {
    Budgeted(i) && i.attemptId != "" && (Reachable(i) || i.mode.Force?)
  }

  /** Every Retire request made from valid committed progress is valid, or none is. */
  ghost predicate RequestsHold(i: RemoveReplicaIntent, endpoint: string -> bool, readable: bool)
    requires Reachable(i)
  {
    forall p: Progress, version: U64 :: ValidFor(i, p) && p.commitObserved ==>
      (ValidRequest(RequestOf(i, p.commitTime, p.retirementExpiry.value, version), endpoint) <==> readable)
  }

  lemma {:induction false} AcceptedIsWellPosed(i: RemoveReplicaIntent, endpoint: string -> bool)
    requires Accepted(i, endpoint)
    ensures WellPosed(i)
    ensures Reachable(i) ==> RequestsHold(i, endpoint, FenceReadable(i))
  {
    SoundIsBudgeted(i, endpoint);
    if Reachable(i) {
      forall p: Progress, version: U64 | ValidFor(i, p) && p.commitObserved
        ensures ValidRequest(RequestOf(i, p.commitTime, p.retirementExpiry.value, version), endpoint)
                <==> FenceReadable(i)
      {
        CommittedProgressRetires(i, endpoint, p, version);
      }
    }
  }

  /** The private progress, between a start and a terminal result. */
  predicate Plausible(i: RemoveReplicaIntent, p: Progress)
    requires WellPosed(i)
  {
    && p.attemptId == i.attemptId
    && (p.error.Some? ==> Fits(p.error.value))
    && (p.compensationExpiry.Some? ==> 0 < p.compensationExpiry.value <= i.compensationDeadlineCap)
    && (if p.commitObserved
        then p.commitTime.Some? && p.commitTime.value > 0
             && p.retirementExpiry.Some? && p.retirementExpiry == RetirementExpiry(i, p.commitTime.value)
             && p.compensationExpiry.None? && Rank(p.phase) >= Rank(RemovingConnection)
        else p.commitTime.None? && p.retirementExpiry.None? && !p.connectionAbsent
             && p.retirement.NotAttempted? && Rank(p.phase) < Rank(RemovingConnection)
             && (p.phase.Compensating? ==> p.compensationExpiry.Some?))
    && (p.currentInstallDispatched ==> Rank(p.phase) >= Rank(InstallingCurrentConfiguration))
    && (p.retirement.Completed? ==> p.connectionAbsent && p.phase.Attesting?)
    && (Rank(p.phase) < Rank(RetiringTarget) ==> p.retirement.NotAttempted?)
  }

  /** The trace is legal, and the private progress is never behind what was published. */
  predicate CoherentWith(i: RemoveReplicaIntent, p: Progress, dispatched: bool, connected: bool, t: Trace)
  {
    && WellPosed(i) && Plausible(i, p) && Legal(t, i)
    && dispatched == p.currentInstallDispatched
    && (LastPublished(t).Some? ==> Gains(LastPublished(t).value, p))
    && (InstallReduced in SentEffects(t) ==> dispatched)
    && (p.phase.Compensating? ==> !dispatched)
    && (p.phase.InstallingCurrentConfiguration? ==> QuorumSeen(t))
    && (RestorePrevious in SentEffects(t) ==> Rank(p.phase) >= Rank(Compensating))
    && (p.commitObserved && !CommitPublished(t) ==> !connected)
    && (p.connectionAbsent && !AbsencePublished(t) ==> !connected)
  }

  predicate AbsencePublished(t: Trace)
  {
    LastPublished(t).Some? && LastPublished(t).value.connectionAbsent
  }

  /** What coherent progress has to be before it is published. */
  predicate Publishable(i: RemoveReplicaIntent, p: Progress, dispatched: bool, t: Trace)
  {
    && WellPosed(i) && Plausible(i, p) && Legal(t, i) && MayPublish(t, p, i) && Owed(t, i).None?
    && dispatched == p.currentInstallDispatched
    && (InstallReduced in SentEffects(t) ==> dispatched)
    && (p.phase.Compensating? ==> !dispatched)
    && (p.phase.InstallingCurrentConfiguration? ==> QuorumSeen(t))
    && (RestorePrevious in SentEffects(t) ==> Rank(p.phase) >= Rank(Compensating))
  }

  lemma {:induction false} StartIsCoherent(i: RemoveReplicaIntent)
    requires WellPosed(i)
    ensures CoherentWith(i, Initial(i.attemptId), false, true, [])
  {
  }

  lemma {:induction false} PublishingKeepsCoherence(i: RemoveReplicaIntent, p: Progress, dispatched: bool,
                                                    connected: bool, t: Trace)
    requires Publishable(i, p, dispatched, t)
    ensures CoherentWith(i, p, dispatched, connected, t + [Published(p)])
    ensures CoherentWith(i, p, dispatched, false, t)
    ensures LastPublished(t + [Published(p)]) == Some(p)
    ensures Publications(t + [Published(p)]) == Publications(t) + [p]
    ensures SentEffects(t + [Published(p)]) == SentEffects(t)
    ensures RetirementSeen(t + [Published(p)]) == RetirementSeen(t)
    ensures (t + [Published(p)])[..|t|] == t
  {
    LegalExtends(t, Published(p), i);
  }

  lemma {:induction false} PlausibleIsValid(i: RemoveReplicaIntent, p: Progress)
    requires WellPosed(i) && Plausible(i, p)
    ensures ValidFor(i, p)
  {
    if p.commitObserved { RetirementExpiryIsSound(i, p.commitTime.value, p.commitTime.value); }
  }

  /** The end of a retirement may be published as the attestation. */
  lemma {:induction false} AttestationIsPublishable(i: RemoveReplicaIntent, p: Progress, attested: Progress,
                                                    dispatched: bool, connected: bool, t: Trace)
    requires CoherentWith(i, p, dispatched, connected, t) && Owed(t, i).None?
    requires p.phase.RetiringTarget? && PhaseIs(t, RetiringTarget) && CommitPublished(t) && AbsencePublished(t)
    requires p.commitObserved && attested == p.(retirement := EndsAs(t), phase := Attesting,
                            error := if EndsAs(t).Completed? then None else Some(Own))
    requires EndsAs(t).Completed? <==> RetirementSeen(t)
    ensures Publishable(i, attested, dispatched, t)
  {
    PlausibleIsValid(i, attested);
  }

  /** The dispatch of the reduced configuration may be published behind the quorum. */
  lemma {:induction false} DispatchIsPublishable(i: RemoveReplicaIntent, p: Progress, connected: bool, t: Trace)
    requires CoherentWith(i, p, false, connected, t) && Owed(t, i).None? && !p.commitObserved
    requires p.phase.InstallingCurrentConfiguration?
    ensures Publishable(i, p.(currentInstallDispatched := true), true, t)
  {
    PlausibleIsValid(i, p.(currentInstallDispatched := true));
  }

  /** The commit may be published behind a gate that sees reduced Current. */
  lemma {:induction false} CommitIsPublishable(i: RemoveReplicaIntent, p: Progress, committed: Progress,
                                               dispatched: bool, connected: bool, t: Trace)
    requires CoherentWith(i, p, dispatched, connected, t) && Owed(t, i).None? && !p.commitObserved
    requires GatedAt(t, i, ReducedCurrent) && committed.commitTime.Some? && committed.retirementExpiry.Some?
    requires committed.retirementExpiry == RetirementExpiry(i, committed.commitTime.value)
    requires committed == p.(commitObserved := true, commitTime := committed.commitTime,
                             retirementExpiry := committed.retirementExpiry, compensationExpiry := None,
                             error := None, phase := RemovingConnection)
    ensures Publishable(i, committed, dispatched, t)
  {
    RetirementExpiryIsSound(i, committed.commitTime.value, committed.commitTime.value);
    PlausibleIsValid(i, committed);
  }

  /** A compensation may be published before the commit, while the reduced installation was never sent. */
  lemma {:induction false} CompensationIsPublishable(i: RemoveReplicaIntent, p: Progress, entered: Progress,
                                                     connected: bool, t: Trace)
    requires CoherentWith(i, p, false, connected, t) && Owed(t, i).None? && !p.commitObserved
    requires entered.compensationExpiry.Some? && 0 < entered.compensationExpiry.value <= i.compensationDeadlineCap
    requires entered.phase.Compensating? && entered.error.Some? && Fits(entered.error.value)
    requires entered == p.(compensationExpiry := entered.compensationExpiry, error := entered.error,
                           phase := RemovalProgress.Compensating)
    ensures Publishable(i, entered, false, t)
  {
    PlausibleIsValid(i, entered);
  }

  /** A step that publishes nothing keeps coherence, if what it sends agrees with the private progress. */
  lemma {:induction false} CoherenceExtends(i: RemoveReplicaIntent, p: Progress, dispatched: bool, connected: bool,
                                            t: Trace, s: Step)
    requires CoherentWith(i, p, dispatched, connected, t) && MayFollow(t, s, i) && !s.Published?
    requires IsSent(s, InstallReduced) ==> dispatched
    requires IsSent(s, RestorePrevious) ==> p.phase.Compensating?
    ensures CoherentWith(i, p, dispatched, connected, t + [s])
    ensures LastPublished(t + [s]) == LastPublished(t) && Publications(t + [s]) == Publications(t)
    ensures SentEffects(t + [s]) == SentEffects(t) + (if s.Sent? then {s.effect} else {})
    ensures (t + [s])[..|t|] == t
    ensures QuorumSeen(t + [s]) == (QuorumSeen(t) || s.SawQuorum?)
    ensures RetirementSeen(t + [s]) == (RetirementSeen(t) || s.SawRetired?)
  {
    LegalExtends(t, s, i);
  }

  lemma {:induction false} SeenStaysSeen(before: Trace, after: Trace, expiry: int)
    requires before <= after
    ensures ExpirySeen(before, expiry) ==> ExpirySeen(after, expiry)
  {
    if ExpirySeen(before, expiry) {
      var k :| 0 <= k < |before| && before[k].SawExpiry? && before[k].now >= expiry;
      assert after[k].SawExpiry?;
    }
  }

  /** The call of an effect: the end of its time, and the two readings of the clock it was computed from. */
  datatype CallTime = CallTime(end: int, first: int, last: int)

  // ---------------------------------------------------------------- the coordinator

  class Coordinator {
    const intent: RemoveReplicaIntent
    const endpoint: string -> bool
    /** The fence of the intent can be read back, as every Retire request asks. */
    ghost const readable: bool
    var progress: Progress
    var currentInstallDispatched: bool
    var phaseSequence: nat
    /** Events still reach the agent; once they do not, its authority is gone with it. */
    var connected: bool
    /** How long the channels the coordinator waits on stay open. */
    var patience: nat
    ghost var trace: Trace

    /** Something outside failed, and is on the trace: authority, a deadline, the runtime, a call or a channel. */
    ghost predicate Setback()
      reads this
    {
      Hampered(trace, intent)
    }

    ghost predicate Coherent()
      reads this
    {
      && CoherentWith(intent, progress, currentInstallDispatched, connected, trace)
      && (connected ==> phaseSequence == |Publications(trace)|)
    }

    /** Nothing is owed: what was seen last asks for no effect. */
    ghost predicate Clear()
      reads this
    {
      Owed(trace, intent).None?
    }

    /** Coherent, with nothing owed: where a step of the coordinator begins and ends. */
    ghost predicate Steady()
      reads this
    {
      Coherent() && Clear()
    }

    /** What a refusal leaves: a legal trace that owes nothing. */
    ghost predicate Lawful()
      reads this
    {
      Legal(trace, intent) && Clear()
    }

    /** Past the commit, and the agent knows it. */
    ghost predicate PastCommit()
      reads this
    {
      Coherent() && connected && progress.commitObserved && CommitPublished(trace)
    }

    ghost predicate Committed()
      reads this
    {
      PastCommit() && Clear()
    }

    /** What was accepted: a reachable target gets valid requests, or none when the fence cannot be read. */
    ghost predicate Standing()
    {
      Reachable(intent) ==> RequestsHold(intent, endpoint, readable)
    }

    constructor (intent: RemoveReplicaIntent, endpoint: string -> bool, patience: nat)
      requires Accepted(intent, endpoint)
      ensures this.intent == intent && Steady() && trace == [] && progress == Initial(intent.attemptId)
      ensures !currentInstallDispatched && connected && phaseSequence == 0 && !Setback()
      ensures Standing() && (readable <==> FenceReadable(intent))
    {
      AcceptedIsWellPosed(intent, endpoint);
      StartIsCoherent(intent);
      this.intent, this.endpoint, this.patience := intent, endpoint, patience;
      readable := FenceReadable(intent);
      progress, currentInstallDispatched := Initial(intent.attemptId), false;
      phaseSequence, connected, trace := 0, true, [];
    }

    // -------------------------------------------------------------- primitives

    /** Goes on exactly while the agent's authority is there and the channels are open. */
    method WaitForAuthority() returns (r: Outcome<()>, ghost granted: bool)
      modifies this`patience
      ensures r.Done? <==> connected && old(patience) > 0 && granted
      ensures patience == if r.Done? then old(patience) - 1 else old(patience)
    {
      var matches := AuthorityMatches();
      granted := matches;
      if !connected || patience == 0 || !matches { return Refused(Own), granted; }
      patience := patience - 1;
      return Done(()), granted;
    }

    /** Adds what was seen or sent to the trace. */
    ghost method Note(step: Step)
      requires Coherent() && MayFollow(trace, step, intent) && !step.Published?
      requires IsSent(step, InstallReduced) ==> currentInstallDispatched
      requires IsSent(step, RestorePrevious) ==> progress.phase.Compensating?
      modifies this`trace
      ensures Coherent() && trace == old(trace) + [step] && trace[..|trace| - 1] == old(trace)
      ensures LastPublished(trace) == LastPublished(old(trace))
      ensures QuorumSeen(trace) == (QuorumSeen(old(trace)) || step.SawQuorum?)
      ensures RetirementSeen(trace) == (RetirementSeen(old(trace)) || step.SawRetired?)
      ensures Setback() <==> old(Setback()) || Adverse(old(trace), intent, step)
    {
      CoherenceExtends(intent, progress, currentInstallDispatched, connected, trace, step);
      trace := trace + [step];
    }

    /** Waits for anything to change; fails when a channel has closed. */
    method WaitForObservation() returns (r: Outcome<()>)
      requires Steady()
      modifies this`patience, this`trace
      ensures patience <= old(patience) && Steady() && LastPublished(trace) == LastPublished(old(trace))
      ensures r.Done? ==> patience < old(patience) && trace == old(trace)
      ensures r.Refused? ==> Denies(Closed) && Setback()
    {
      if patience == 0 {
        Deny(Closed);
        return Refused(Own);
      }
      patience := patience - 1;
      return Done(());
    }

    /** Only a denial was added. */
    twostate predicate Denies(denial: Denial)
      reads this
    {
      trace == old(trace) + [Denied(denial)]
      && LastPublished(trace) == LastPublished(old(trace)) && QuorumSeen(trace) == QuorumSeen(old(trace))
      && RetirementSeen(trace) == RetirementSeen(old(trace))
    }

    /** Puts down what stopped a step. */
    ghost method Deny(denial: Denial)
      requires Steady() && Genuine(trace, intent, denial)
      modifies this`trace
      ensures Steady() && Denies(denial) && Setback()
    {
      Note(Denied(denial));
    }

    /** Authority, the exact writable primary, an allowed configuration, all of it before the deadline. */
    method Gate(deadline: Option<int>, allowed: set<Observation>) returns (r: Outcome<Observation>)
      requires Steady() && Expected(trace, intent, allowed)
      requires deadline.Some? ==> deadline == PhaseDeadline(trace, intent)
      modifies this`patience, this`trace
      ensures Coherent() && patience <= old(patience)
      ensures LastPublished(trace) == LastPublished(old(trace)) && QuorumSeen(trace) == QuorumSeen(old(trace))
      ensures RetirementSeen(trace) == RetirementSeen(old(trace))
      ensures |trace| == |old(trace)| + 1 && trace[..|trace| - 1] == old(trace)
      // It refuses only without authority, past the deadline, or on a runtime that does not fit.
      ensures r.Refused? ==> Clear() && trace[|trace| - 1].Denied?
      ensures r.Done? ==> r.value in allowed && connected && patience < old(patience)
                          && GatedAt(trace, intent, r.value)
      ensures r.Done? && deadline.Some? ==>
                trace[|trace| - 1].clock.Some? && trace[|trace| - 1].clock.value < deadline.value
      // Only previous Current, seen right behind the publication of the first phase, asks for an effect.
      ensures || Clear()
              || (r.Done? && r.value == PreviousCurrent && PhaseIs(trace, InstallingCatchUpConfiguration)
                  && old(trace) != [] && old(trace)[|old(trace)| - 1].Published?)
      ensures (r.Refused? || old(Setback())) ==> Setback()
    {
      ghost var granted;
      var held;
      held, granted := WaitForAuthority();
      if held.Refused? {
        Deny(NoAuthority);
        return Refused(Own);
      }
      var clock := None;
      if deadline.Some? {
        var now := Clock();
        if now >= deadline.value {
          Deny(TooLate(now, deadline.value));
          return Refused(Own);
        }
        clock := Some(now);
      }
      var runtime := Snapshot();
      var observation := Classify(runtime.configuration, intent);
      if !ExactPrimary(runtime, intent) || observation.None? || observation.value !in allowed {
        Deny(Unfit(runtime, allowed));
        return Refused(Own);
      }
      Pass(runtime, clock);
      return Done(observation.value);
    }

    ghost method Pass(runtime: RuntimeSnapshot, clock: Option<int>)
      requires Steady() && ExactPrimary(runtime, intent) && Classify(runtime.configuration, intent).Some?
      modifies this`trace
      ensures Coherent() && trace == old(trace) + [Gated(runtime, clock)] && trace[..|trace| - 1] == old(trace)
      ensures LastPublished(trace) == LastPublished(old(trace)) && RetirementSeen(trace) == RetirementSeen(old(trace))
      ensures QuorumSeen(trace) == QuorumSeen(old(trace)) && (Setback() <==> old(Setback()))
      ensures || Clear()
              || (GatedAt(trace, intent, PreviousCurrent) && PhaseIs(trace, InstallingCatchUpConfiguration)
                  && old(trace) != [] && old(trace)[|old(trace)| - 1].Published?)
    {
      Note(Gated(runtime, clock));
    }

    method SeesTargetAbsent() returns (absent: bool)
      requires Steady() && CommitPublished(trace) && GatedAt(trace, intent, ReducedCurrent)
      modifies this`trace
      ensures Coherent() && LastPublished(trace) == LastPublished(old(trace))
      ensures trace != [] && trace[..|trace| - 1] == old(trace)
      ensures if absent then trace[|trace| - 1].SawAbsent? else trace[|trace| - 1].SawPresent?
      ensures RetirementSeen(trace) == RetirementSeen(old(trace))
      ensures Setback() <==> old(Setback()) || (!absent && PhaseIs(trace, Attesting))
    {
      var runtime := Snapshot();
      absent := TargetAbsent(runtime, intent);
      if absent { Note(SawAbsent(runtime)); } else { Note(SawPresent(runtime)); }
    }

    /** The removal's own wait will not succeed any more. */
    ghost predicate WaitIsLost(runtime: RuntimeSnapshot)
    {
      OwnWait(runtime, intent) && (runtime.quorumWait.value.state.Broken? || runtime.quorumWait.value.state.Cancelled?)
    }

    /** A look at the tracked quorum wait, behind a gate that sees the catch-up configuration. */
    method LookAtWait() returns (runtime: RuntimeSnapshot)
      requires Steady() && GatedAt(trace, intent, ReducedCatchUp)
      modifies this`trace
      ensures Coherent() && LastPublished(trace) == LastPublished(old(trace))
      ensures trace != [] && trace[..|trace| - 1] == old(trace)
      ensures trace[|trace| - 1] == if QuorumReached(runtime, intent) then SawQuorum(runtime) else SawWait(runtime)
      ensures QuorumSeen(trace) == (QuorumSeen(old(trace)) || QuorumReached(runtime, intent))
      ensures old(Setback()) || WaitIsLost(runtime) ==> Setback()
    {
      runtime := Snapshot();
      if QuorumReached(runtime, intent) { Note(SawQuorum(runtime)); } else { Note(SawWait(runtime)); }
    }

    /** The effect may be sent now, is what is owed if anything is, and has the limit its place gives it. */
    ghost predicate Payable(effect: Effect, limit: int)
      reads this
    {
      && Coherent() && MaySend(trace, effect, intent)
      && (Owed(trace, intent).Some? ==> Owed(trace, intent).value == effect)
      && (LimitOf(trace, effect, intent).Some? ==> LimitOf(trace, effect, intent).value == limit)
    }

    /** Nothing but one step about the effect was added. */
    twostate predicate Spent(effect: Effect)
      reads this
    {
      && |trace| == |old(trace)| + 1 && trace[..|old(trace)|] == old(trace)
      && (trace[|old(trace)|].Sent? || trace[|old(trace)|].Late?) && trace[|old(trace)|].effect == effect
      && LastPublished(trace) == LastPublished(old(trace))
      && RetirementSeen(trace) == RetirementSeen(old(trace))
    }

    /** The one step about an effect: made in time, or missed. */
    ghost method NoteEffect(step: Step, effect: Effect, limit: int)
      requires Payable(effect, limit)
      requires effect == InstallReduced ==> currentInstallDispatched
      requires effect == RestorePrevious ==> progress.phase.Compensating?
      requires || (step.Sent? && step.effect == effect && step.at < limit && AnswerFits(effect, step.answer))
               || (step.Late? && step.effect == effect && step.limit == limit
                   && TimeIsUp(intent, limit, step.first, step.last))
      modifies this`trace
      ensures Steady() && Spent(effect) && trace[|trace| - 1] == step
      ensures QuorumSeen(trace) == QuorumSeen(old(trace))
      ensures Setback() <==> old(Setback()) || Adverse(old(trace), intent, step)
    {
      Note(step);
    }

    /** The call was made, and got this answer. */
    ghost method Made(effect: Effect, limit: int, at: int, answer: Answer)
      requires Payable(effect, limit) && at < limit && AnswerFits(effect, answer)
      requires effect == InstallReduced ==> currentInstallDispatched
      requires effect == RestorePrevious ==> progress.phase.Compensating?
      modifies this`trace
      ensures Steady() && Spent(effect) && trace[|trace| - 1] == Sent(effect, at, answer)
      ensures QuorumSeen(trace) == QuorumSeen(old(trace)) && (Setback() <==> old(Setback()) || answer.Ill?)
    {
      NoteEffect(Sent(effect, at, answer), effect, limit);
    }

    /** The call was not made: its time was up, for the whole step if it was up at the first two readings. */
    ghost method Missed(effect: Effect, limit: int, time: CallTime, now: int)
      requires Payable(effect, limit) && TimeIsUp(intent, limit, time.first, now)
      requires effect == InstallReduced ==> currentInstallDispatched
      requires effect == RestorePrevious ==> progress.phase.Compensating?
      modifies this`trace
      ensures Steady() && Spent(effect) && trace[|trace| - 1] == Late(effect, limit, time.first, time.last, now)
      ensures QuorumSeen(trace) == QuorumSeen(old(trace))
      ensures Setback() <==> old(Setback()) || TimeIsUp(intent, limit, time.first, time.last)
      ensures effect.AskStatus? || effect.Retire? ==> Told(trace, intent, Unavailable, Some(Own))
    {
      NoteEffect(Late(effect, limit, time.first, time.last, now), effect, limit);
    }

    /** The end of one call, inside the limit that applies to it; late when that time is up already. */
    method CallDeadline(limit: int) returns (late: bool, time: CallTime)
      ensures late <==> TimeIsUp(intent, limit, time.first, time.last)
      ensures !late ==> time.last < time.end <= limit && time.end == CallEnd(intent, time.first, limit)
    {
      var first := Clock();
      if first >= limit { return true, CallTime(limit, first, first); }
      var end := Min(Min(first + intent.callTimeout, I64_MAX), limit);
      var last := Clock();
      return last >= end, CallTime(end, first, last);
    }

    /** What a reply says about the call. */
    static function OfReply(reply: EffectReply): (r: Outcome<()>)
      ensures r.Done? <==> reply.Unit?
      ensures r.Refused? ==> Fits(r.error)
    {
      match reply
      case Unit => Done(())
      case DataLoss => Refused(Own)
      case EffectError(text) => Refused(Normalized(text))
      case NoReply => Refused(Own)
    }

    /** The call is made only while its time is ahead; what it did is known only from its reply. */
    method Execute(effect: Effect, limit: int) returns (r: Outcome<()>)
      requires Payable(effect, limit) && !effect.AskStatus? && !effect.Retire?
      requires effect == InstallReduced ==> currentInstallDispatched
      requires effect == RestorePrevious ==> progress.phase.Compensating?
      modifies this`trace
      ensures Steady() && Spent(effect)
      ensures r.Done? ==> trace[|trace| - 1].Sent?
      ensures r.Refused? ==> Fits(r.error)
      ensures (r.Refused? || old(Setback())) ==> Setback()
    {
      var late, time := CallDeadline(limit);
      if late {
        Missed(effect, limit, time, time.last);
        return Refused(Own);
      }
      var reply := ReplyToEffect();
      r := OfReply(reply);
      Made(effect, limit, time.last, if r.Done? then Well else Ill);
    }

    /** The publication that announces the reduced configuration asks for its installation. */
    ghost predicate Announced()
      reads this
    {
      progress.phase.InstallingCurrentConfiguration? && progress.currentInstallDispatched && !progress.commitObserved
    }

    /** Publishes the private progress and waits until the agent has taken it in. */
    method Publish() returns (r: Outcome<()>)
      requires WellPosed(intent) && Lawful()
      requires connected ==> phaseSequence == |Publications(trace)|
      requires ValidFor(intent, progress) ==> Publishable(intent, progress, currentInstallDispatched, trace)
      modifies this`phaseSequence, this`connected, this`patience, this`trace
      ensures Legal(trace, intent) && patience <= old(patience)
      ensures ValidFor(intent, progress) ==> Coherent()
      ensures !ValidFor(intent, progress) ==> r.Refused? && trace == old(trace)
      ensures old(trace) <= trace
      ensures r.Refused? || !Announced() ==> Clear()
      ensures r.Done? ==> connected && patience < old(patience)
                          && trace == old(trace) + [Published(progress)] && trace[..|trace| - 1] == old(trace)
                          && LastPublished(trace) == Some(progress)
      ensures RetirementSeen(trace) == RetirementSeen(old(trace)) && QuorumSeen(trace) == QuorumSeen(old(trace))
      // What was delivered is published, whether or not the agent agreed to it.
      ensures ValidFor(intent, progress) && connected ==>
                |trace| > |old(trace)| && trace[|old(trace)|] == Published(progress)
      ensures (r.Refused? && ValidFor(intent, progress)) || old(Setback()) ==> Setback()
    {
      if !ValidFor(intent, progress) { return Refused(Own); }
      r := Announce();
    }

    /** Hands valid progress to the agent and waits for its agreement. */
    method Announce() returns (r: Outcome<()>)
      requires Publishable(intent, progress, currentInstallDispatched, trace)
      requires connected ==> phaseSequence == |Publications(trace)|
      modifies this`phaseSequence, this`connected, this`patience, this`trace
      ensures Coherent() && patience <= old(patience) && old(trace) <= trace
      ensures r.Refused? || !Announced() ==> Clear()
      ensures r.Done? ==> connected && patience < old(patience)
                          && trace == old(trace) + [Published(progress)] && trace[..|trace| - 1] == old(trace)
                          && LastPublished(trace) == Some(progress)
      ensures RetirementSeen(trace) == RetirementSeen(old(trace)) && QuorumSeen(trace) == QuorumSeen(old(trace))
      ensures connected ==> |trace| > |old(trace)| && trace[|old(trace)|] == Published(progress)
      ensures (r.Refused? || old(Setback())) ==> Setback()
    {
      var delivered := Deliver();
      if !delivered { return Refused(Own); }
      assert trace[|trace| - 1] == Published(progress) && |trace| == |old(trace)| + 1;
      r := AwaitAgreement();
    }

    /** The authority for the publication just delivered; without it nothing that was announced may be sent. */
    method AwaitAgreement() returns (r: Outcome<()>)
      requires Coherent() && connected && trace != [] && trace[|trace| - 1] == Published(progress)
      modifies this`patience, this`trace
      ensures Coherent() && patience <= old(patience) && (r.Refused? || !Announced() ==> Clear())
      ensures r.Done? ==> trace == old(trace) && patience < old(patience)
      ensures r.Refused? ==> trace == old(trace) + [Lost]
      ensures old(trace) <= trace
      ensures RetirementSeen(trace) == RetirementSeen(old(trace)) && QuorumSeen(trace) == QuorumSeen(old(trace))
      ensures (r.Refused? || old(Setback())) ==> Setback()
    {
      ghost var granted;
      r, granted := WaitForAuthority();
      if r.Refused? { Lose(); }
    }

    /** The agent has been told, and its agreement did not come. */
    ghost method Lose()
      requires Coherent() && trace != [] && trace[|trace| - 1].Published?
      modifies this`trace
      ensures Steady() && trace == old(trace) + [Lost] && SentEffects(trace) == SentEffects(old(trace)) && Setback()
      ensures RetirementSeen(trace) == RetirementSeen(old(trace)) && QuorumSeen(trace) == QuorumSeen(old(trace))
      ensures LastPublished(trace) == LastPublished(old(trace))
    {
      Note(Lost);
    }

    /** Sends the next event; fails for good once the agent's end of the channel is gone. */
    method Deliver() returns (delivered: bool)
      requires Publishable(intent, progress, currentInstallDispatched, trace)
      requires connected ==> phaseSequence == |Publications(trace)|
      modifies this`phaseSequence, this`connected, this`trace
      ensures Coherent() && delivered == connected
      ensures !delivered ==> Denies(Unreached)
      ensures delivered ==> trace == old(trace) + [Published(progress)] && trace[..|trace| - 1] == old(trace)
                            && LastPublished(trace) == Some(progress)
      ensures SentEffects(trace) == SentEffects(old(trace))
      ensures RetirementSeen(trace) == RetirementSeen(old(trace)) && QuorumSeen(trace) == QuorumSeen(old(trace))
      ensures (!delivered || old(Setback())) ==> Setback()
    {
      phaseSequence := phaseSequence + 1;
      var open := ChannelOpen();
      PublishingKeepsCoherence(intent, progress, currentInstallDispatched, connected && open, trace);
      connected := connected && open;
      delivered := connected;
      if delivered { trace := trace + [Published(progress)]; } else { Deny(Unreached); }
    }

    method Transition(phase: Phase) returns (r: Outcome<()>)
      requires Steady() && (currentInstallDispatched ==> phase != InstallingCurrentConfiguration)
      requires Publishable(intent, progress.(phase := phase), currentInstallDispatched, trace)
      modifies this`progress, this`phaseSequence, this`connected, this`patience, this`trace
      ensures Steady() && progress == old(progress).(phase := phase) && patience <= old(patience)
      ensures r.Done? ==> connected && patience < old(patience) && LastPublished(trace) == Some(progress)
                          && trace[..|trace| - 1] == old(trace) && trace[|trace| - 1].Published?
      ensures RetirementSeen(trace) == RetirementSeen(old(trace)) && QuorumSeen(trace) == QuorumSeen(old(trace))
      ensures (r.Refused? || old(Setback())) ==> Setback()
    {
      progress := progress.(phase := phase);
      PlausibleIsValid(intent, progress);
      r := Publish();
    }

    // -------------------------------------------------------------- the commit

    /** Records the commit, once, behind a gate that sees the reduced current configuration. */
    method ObserveCommit() returns (r: Outcome<()>)
      requires Steady() && (SawCommitLast(trace, intent) || CommitPublished(trace))
      requires progress.commitObserved ==> progress.phase.RemovingConnection?
      modifies this`progress, this`phaseSequence, this`connected, this`patience, this`trace
      ensures Steady() && patience <= old(patience) && old(trace) <= trace
      ensures progress.commitObserved ==> progress.phase.RemovingConnection?
      ensures !progress.commitObserved ==> progress == old(progress)
      ensures r.Done? ==> Committed() && progress.phase.RemovingConnection?
      ensures (r.Refused? || old(Setback())) ==> Setback()
    {
      var _ :- Gate(None, {ReducedCurrent});
      if progress.commitObserved { return Done(()); }
      var now := Clock();
      var commit := Min(now, intent.overallDeadline);
      var expiry := RetirementExpiry(intent, commit);
      if expiry.None? {
        Note(NoExpiry(now));
        return Refused(Own);
      }
      ghost var was := progress;
      progress := progress.(commitObserved := true, commitTime := Some(commit), retirementExpiry := expiry,
                            compensationExpiry := None, error := None, phase := RemovingConnection);
      CommitIsPublishable(intent, was, progress, currentInstallDispatched, connected, trace);
      r := Publish();
    }

    // -------------------------------------------------------------- before the commit

    /** Installs the reduced catch-up configuration; true when the commit was seen on the way. */
    method InstallCatchUpConfiguration() returns (r: Outcome<bool>)
      requires Steady() && !progress.commitObserved && progress.phase.Validating?
      modifies this`progress, this`phaseSequence, this`connected, this`patience, this`trace
      ensures Steady() && (progress.commitObserved ==> progress.phase.RemovingConnection?)
      ensures !progress.commitObserved ==> progress.phase.InstallingCatchUpConfiguration?
      ensures r.Done? && r.value ==> Committed()
      ensures r.Done? && !r.value ==> !progress.commitObserved && connected
      ensures (r.Refused? || old(Setback())) ==> Setback()
    {
      var _ :- Transition(InstallingCatchUpConfiguration);
      var configuration :- Gate(Some(intent.overallDeadline), {PreviousCurrent, ReducedCatchUp, ReducedCurrent});
      if configuration == ReducedCurrent {
        var _ :- ObserveCommit();
        return Done(true);
      }
      if configuration == PreviousCurrent { r := SendCatchUpConfiguration(); } else { r := Done(false); }
    }

    method SendCatchUpConfiguration() returns (r: Outcome<bool>)
      requires connected && !progress.commitObserved && progress.phase.InstallingCatchUpConfiguration?
      requires Payable(InstallCatchUp, intent.overallDeadline)
      modifies this`progress, this`phaseSequence, this`connected, this`patience, this`trace
      ensures (r.Refused? || old(Setback())) ==> Setback()
      ensures Steady() && (progress.commitObserved ==> progress.phase.RemovingConnection?)
      ensures !progress.commitObserved ==> progress.phase.InstallingCatchUpConfiguration?
      ensures r.Done? && r.value ==> Committed()
      ensures r.Done? && !r.value ==> !progress.commitObserved && connected
    {
      var effect := Execute(InstallCatchUp, intent.overallDeadline);
      var observed :- Gate(Some(intent.overallDeadline), {PreviousCurrent, ReducedCatchUp, ReducedCurrent});
      if observed == ReducedCurrent {
        var _ :- ObserveCommit();
        return Done(true);
      }
      if observed != ReducedCatchUp {
        Deny(NotInstalled(trace[|trace| - 1].runtime));
        return Refused(if effect.Refused? then effect.error else Own);
      }
      return Done(false);
    }

    /** Looks at the tracked quorum wait once, and starts it when it is not there. */
    method PollQuorum() returns (r: Outcome<QuorumVerdict>)
      requires Steady() && connected && !progress.commitObserved && PhaseIs(trace, WaitingForCatchUpQuorum)
      modifies this`patience, this`trace
      ensures Steady() && PhaseIs(trace, WaitingForCatchUpQuorum)
      ensures r.Done? ==> patience < old(patience)
      ensures (r.Refused? || old(Setback())) ==> Setback()
      ensures r.Done? && r.value.Reached? ==> QuorumSeen(trace)
      ensures r.Done? && r.value.AlreadyCommitted? ==> SawCommitLast(trace, intent)
    {
      var configuration :- Gate(Some(intent.overallDeadline), {ReducedCatchUp, ReducedCurrent});
      if configuration == ReducedCurrent { return Done(AlreadyCommitted); }
      var runtime := LookAtWait();
      r := ReactToWait(runtime);
    }

    /** The removal's own wait is over, goes on, or will not succeed any more. */
    static function ReadWait(wait: QuorumWait): Outcome<bool>
    {
      match wait.state
      case Succeeded => Done(true)
      case Running => Done(false)
      case _ => Refused(if wait.error.Some? then wait.error.value else Own)
    }

    /** What a look at the wait calls for: nothing, a refusal, more patience, or a wait to start. */
    method ReactToWait(runtime: RuntimeSnapshot) returns (r: Outcome<QuorumVerdict>)
      requires Coherent() && PhaseIs(trace, WaitingForCatchUpQuorum) && trace != [] && !progress.commitObserved
      requires trace[|trace| - 1] == if QuorumReached(runtime, intent) then SawQuorum(runtime) else SawWait(runtime)
      requires GatedFor(trace[..|trace| - 1], intent, ReducedCatchUp, StartQuorumWait)
      requires WaitIsLost(runtime) ==> Setback()
      modifies this`patience, this`trace
      ensures Steady() && PhaseIs(trace, WaitingForCatchUpQuorum) && patience <= old(patience)
      ensures r.Done? && !r.value.Reached? ==> patience < old(patience)
      ensures r.Done? ==> r.value.Reached? || r.value.LookAgain?
      ensures (r.Refused? || old(Setback())) ==> Setback()
      ensures r.Done? && r.value.Reached? ==> QuorumSeen(trace)
    {
      if runtime.quorumWait.Some? && runtime.quorumWait.value.executionId == WaitId(intent) {
        var read := ReadWait(runtime.quorumWait.value);
        var reached :- read;
        if reached { return Done(Reached); }
      } else {
        var _ :- StartQuorum();
      }
      var _ :- WaitForObservation();
      return Done(LookAgain);
    }

    method StartQuorum() returns (r: Outcome<()>)
      requires Payable(StartQuorumWait, intent.overallDeadline) && PhaseIs(trace, WaitingForCatchUpQuorum)
      requires !progress.commitObserved
      modifies this`patience, this`trace
      ensures (r.Refused? || old(Setback())) ==> Setback()
      ensures Steady() && PhaseIs(trace, WaitingForCatchUpQuorum) && patience <= old(patience)
    {
      var _ :- Execute(StartQuorumWait, intent.overallDeadline);
      var _ :- Gate(Some(intent.overallDeadline), {ReducedCatchUp, ReducedCurrent});
      return Done(());
    }

    /** Waits for the tracked quorum; true when the commit was seen on the way. */
    method WaitForCatchUpQuorum() returns (r: Outcome<bool>)
      requires Steady() && !progress.commitObserved && progress.phase.InstallingCatchUpConfiguration?
      modifies this`progress, this`phaseSequence, this`connected, this`patience, this`trace
      ensures Steady() && (progress.commitObserved ==> progress.phase.RemovingConnection?)
      ensures !progress.commitObserved ==> progress.phase.WaitingForCatchUpQuorum?
      ensures r.Done? && r.value ==> Committed()
      ensures r.Done? && !r.value ==> !progress.commitObserved && connected
      ensures (r.Refused? || old(Setback())) ==> Setback()
      ensures r.Done? && !r.value ==> QuorumSeen(trace)
    {
      var _ :- Transition(WaitingForCatchUpQuorum);
      var verdict := LookAgain;
      while verdict == LookAgain
        modifies this`patience, this`trace
        invariant Steady() && PhaseIs(trace, WaitingForCatchUpQuorum) && (old(Setback()) ==> Setback())
        invariant verdict.Reached? ==> QuorumSeen(trace)
        invariant verdict.AlreadyCommitted? ==> SawCommitLast(trace, intent)
        decreases patience, verdict == LookAgain
      {
        verdict :- PollQuorum();
      }
      if verdict == AlreadyCommitted {
        var _ :- ObserveCommit();
        return Done(true);
      }
      return Done(false);
    }

    /** Records that the reduced configuration may have been sent, sends it, and looks once. */
    method SendReducedConfiguration() returns (r: Outcome<()>)
      requires Steady() && connected && !progress.commitObserved && !currentInstallDispatched
      requires progress.phase.InstallingCurrentConfiguration?
      requires GatedFor(trace, intent, ReducedCatchUp, InstallReduced)
      modifies this`progress, this`currentInstallDispatched, this`phaseSequence, this`connected, this`patience,
               this`trace
      ensures Steady() && !progress.commitObserved && progress.phase.InstallingCurrentConfiguration?
      ensures r.Done? ==> SawCommitLast(trace, intent)
      ensures (r.Refused? || old(Setback())) ==> Setback()
    {
      var _ :- RecordDispatch();
      var effect := Execute(InstallReduced, intent.overallDeadline);
      r := LookAfterInstall(effect);
    }

    method LookAfterInstall(effect: Outcome<()>) returns (r: Outcome<()>)
      requires Steady() && !progress.commitObserved && progress.phase.InstallingCurrentConfiguration?
      requires PhaseIs(trace, InstallingCurrentConfiguration)
      requires (trace[|trace| - 1].Sent? || trace[|trace| - 1].Late?) && trace[|trace| - 1].effect == InstallReduced
      modifies this`patience, this`trace
      ensures Steady() && (r.Done? ==> SawCommitLast(trace, intent))
      ensures (r.Refused? || old(Setback())) ==> Setback()
    {
      var observed := Gate(Some(intent.overallDeadline), {ReducedCatchUp, ReducedCurrent});
      if observed == Done(ReducedCurrent) { return Done(()); }
      if observed.Done? { Deny(NotInstalled(trace[|trace| - 1].runtime)); }
      return Refused(if effect.Refused? then effect.error else if observed.Refused? then observed.error else Own);
    }

    method RecordDispatch() returns (r: Outcome<()>)
      requires Steady() && connected && !progress.commitObserved && !currentInstallDispatched
      requires progress.phase.InstallingCurrentConfiguration?
      requires GatedFor(trace, intent, ReducedCatchUp, InstallReduced)
      modifies this`progress, this`currentInstallDispatched, this`phaseSequence, this`connected, this`patience,
               this`trace
      ensures (r.Refused? || old(Setback())) ==> Setback()
      ensures Coherent() && !progress.commitObserved && progress.phase.InstallingCurrentConfiguration?
      ensures r.Refused? ==> Clear()
      ensures r.Done? ==> connected && currentInstallDispatched && Payable(InstallReduced, intent.overallDeadline)
    {
      DispatchIsPublishable(intent, progress, connected, trace);
      currentInstallDispatched := true;
      progress := progress.(currentInstallDispatched := true);
      r := Publish();
    }

    /** Sends the reduced configuration, unless it is seen to be there. */
    method EnsureReduced() returns (r: Outcome<()>)
      requires Steady() && connected && !progress.commitObserved && !currentInstallDispatched
      requires progress.phase.InstallingCurrentConfiguration? && PhaseIs(trace, InstallingCurrentConfiguration)
      requires QuorumSeen(trace)
      modifies this`progress, this`currentInstallDispatched, this`phaseSequence, this`connected, this`patience,
               this`trace
      ensures Steady() && !progress.commitObserved && progress.phase.InstallingCurrentConfiguration?
      ensures r.Done? ==> SawCommitLast(trace, intent)
      ensures (r.Refused? || old(Setback())) ==> Setback()
    {
      var configuration :- Gate(Some(intent.overallDeadline), {ReducedCatchUp, ReducedCurrent});
      if configuration != ReducedCurrent {
        var _ :- SendReducedConfiguration();
      }
      return Done(());
    }

    method InstallCurrentConfiguration() returns (r: Outcome<()>)
      requires Steady() && !progress.commitObserved && progress.phase.WaitingForCatchUpQuorum?
      requires !currentInstallDispatched && QuorumSeen(trace)
      modifies this`progress, this`currentInstallDispatched, this`phaseSequence, this`connected, this`patience,
               this`trace
      ensures Steady() && (progress.commitObserved ==> progress.phase.RemovingConnection?)
      ensures !progress.commitObserved ==> progress.phase.InstallingCurrentConfiguration?
      ensures r.Done? ==> Committed()
      ensures (r.Refused? || old(Setback())) ==> Setback()
    {
      var _ :- Transition(InstallingCurrentConfiguration);
      var _ :- EnsureReduced();
      r := ObserveCommit();
    }

    method RunPreCommit() returns (r: Outcome<()>)
      requires Steady() && !progress.commitObserved && progress.phase.Validating? && !currentInstallDispatched
      modifies this`progress, this`currentInstallDispatched, this`phaseSequence, this`connected, this`patience,
               this`trace
      ensures Steady() && (progress.commitObserved ==> progress.phase.RemovingConnection?)
      ensures !progress.phase.Compensating?
      ensures r.Done? ==> Committed() && progress.phase.RemovingConnection?
      ensures (r.Refused? || old(Setback())) ==> Setback()
    {
      var committed :- InstallCatchUpConfiguration();
      if committed { return Done(()); }
      committed :- WaitForCatchUpQuorum();
      if committed { return Done(()); }
      r := InstallCurrentConfiguration();
    }

    // -------------------------------------------------------------- recovery

    /** A look outside any gate. */
    method LookAround() returns (runtime: RuntimeSnapshot)
      requires Steady()
      modifies this`trace
      ensures Steady() && trace == old(trace) + [Looked(runtime)] && trace[..|trace| - 1] == old(trace)
      ensures LastPublished(trace) == LastPublished(old(trace)) && QuorumSeen(trace) == QuorumSeen(old(trace))
      ensures RetirementSeen(trace) == RetirementSeen(old(trace))
      ensures Setback() <==> old(Setback()) || Classify(runtime.configuration, intent).None?
    {
      runtime := Snapshot();
      Note(Looked(runtime));
    }

    /**
     * The only reasons not to compensate what was never dispatched: nobody to publish to, a commit recorded that
     * could not be published, or no expiry.
     */
    ghost predicate CannotCompensate()
      reads this
    {
      !connected || progress.commitObserved || (trace != [] && trace[|trace| - 1].NoExpiry?)
    }

    /**
     * What to do after a failure before the commit: the commit itself if it is seen to be there, a refusal once
     * the reduced configuration may have been sent, and a compensation otherwise.
     */
    method Recover(failure: Message) returns (r: Outcome<Recovery>)
      requires Steady() && (progress.commitObserved ==> progress.phase.RemovingConnection?)
      requires !progress.phase.Compensating? && Fits(failure) && Setback()
      modifies this`progress, this`phaseSequence, this`connected, this`patience, this`trace
      ensures Lawful()
      ensures r.Done? && r.value.CommitFound? ==> Committed() && progress.phase.RemovingConnection?
      ensures r.Done? && r.value.Ended? ==> Ends(r.value.result)
      ensures (r.Refused? || old(Setback())) ==> Setback()
      ensures |trace| > |old(trace)| && trace[|old(trace)|].Looked?
      ensures var seen := Classify(trace[|old(trace)|].runtime.configuration, intent);
              && (seen == Some(ReducedCurrent) ==> r.Refused? || r.value.CommitFound?)
              && (seen != Some(ReducedCurrent) && currentInstallDispatched ==>
                    r.Refused? && trace == old(trace) + [Looked(trace[|old(trace)|].runtime)])
              && (seen != Some(ReducedCurrent) && !currentInstallDispatched ==>
                    Compensated(|old(trace)|) || (r.Refused? && CannotCompensate()))
    {
      var runtime := LookAround();
      ghost var looked := trace;
      var observed := Classify(runtime.configuration, intent);
      if observed == Some(ReducedCurrent) {
        var found := ObserveCommit();
        assert looked <= trace;
        var _ :- found;
        return Done(CommitFound);
      }
      if currentInstallDispatched { return Refused(Own); }
      var expiry := EnterCompensation(failure);
      if expiry.Refused? { return Refused(expiry.error); }
      r := Compensate(expiry.value);
    }

    /** A compensation was published after the first `n` steps. */
    ghost predicate Compensated(n: nat)
      reads this
    {
      exists k :: n <= k < |trace| && trace[k].Published? && trace[k].progress.phase.Compensating?
    }

    /** The result is supported by the trace and by the private progress. */
    ghost predicate Ends(result: TerminalResult)
      reads this
    {
      && Steady() && connected
      && Evidence(trace, intent, result)
      && ValidTerminal(intent, progress, result)
    }

    method EnterCompensation(failure: Message) returns (r: Outcome<int>)
      requires Steady() && (progress.commitObserved ==> progress.phase.RemovingConnection?)
      requires !progress.phase.Compensating? && !currentInstallDispatched && Fits(failure) && Setback()
      modifies this`progress, this`phaseSequence, this`connected, this`patience, this`trace
      ensures Lawful()
      ensures r.Done? ==> Compensating() && progress.compensationExpiry == Some(r.value)
      ensures (r.Refused? || old(Setback())) ==> Setback()
      ensures old(trace) <= trace
      ensures if r.Done? then Compensated(|old(trace)|) else Compensated(|old(trace)|) || CannotCompensate()
    {
      var expiry := progress.compensationExpiry;
      if expiry.None? {
        var now := Clock();
        var observed := Min(now, intent.compensationDeadlineCap);
        expiry := CompensationExpiry(intent, observed);
        if expiry.None? {
          Note(NoExpiry(now));
          return Refused(Own);
        }
      }
      r := PublishCompensation(failure, expiry.value);
    }

    method PublishCompensation(failure: Message, expiry: int) returns (r: Outcome<int>)
      requires Steady() && (progress.commitObserved ==> progress.phase.RemovingConnection?)
      requires !progress.phase.Compensating? && !currentInstallDispatched && Fits(failure) && Setback()
      requires 0 < expiry <= intent.compensationDeadlineCap
      modifies this`progress, this`phaseSequence, this`connected, this`patience, this`trace
      ensures Lawful() && Setback() && old(trace) <= trace
      ensures r.Done? ==> Compensating() && progress.compensationExpiry == Some(r.value)
      ensures if r.Done? then Compensated(|old(trace)|) else Compensated(|old(trace)|) || CannotCompensate()
    {
      ghost var was := progress;
      progress := progress.(compensationExpiry := Some(expiry), error := Some(Normalized(failure)),
                            phase := RemovalProgress.Compensating);
      if !progress.commitObserved { CompensationIsPublishable(intent, was, progress, connected, trace); }
      var published := Publish();
      var _ :- published;
      return Done(expiry);
    }

    /** In compensation: published as such, nothing committed, the reduced installation never sent. */
    ghost predicate Compensating()
      reads this
    {
      && Steady() && connected && progress.phase.Compensating? && !progress.commitObserved
      && LastPublished(trace).Some?
      && LastPublished(trace).value.(error := None) == progress.(error := None)
    }

    ghost predicate ExpiryJustSeen()
      reads this
    {
      && trace != [] && trace[|trace| - 1].SawExpiry? && progress.compensationExpiry.Some?
      && trace[|trace| - 1].now >= progress.compensationExpiry.value
    }

    ghost method NoteExpiry(now: int)
      requires Compensating() && progress.compensationExpiry.Some? && now >= progress.compensationExpiry.value
      modifies this`trace
      ensures Compensating() && ExpiryJustSeen() && old(trace) <= trace && (Setback() <==> old(Setback()))
    {
      Note(SawExpiry(now));
    }

    /** Looks and restores until previous or reduced Current is seen, or the expiry. */
    method Restore(expiry: int) returns (r: Outcome<Restored>)
      requires Compensating() && progress.compensationExpiry == Some(expiry)
      modifies this`progress, this`patience, this`trace
      ensures Lawful() && old(trace) <= trace
      ensures r.Done? ==> Compensating() && progress.compensationExpiry == Some(expiry)
      ensures r.Done? ==> match r.value
                          case NotYet => ExpiryJustSeen()
                          case SawPrevious => GatedAt(trace, intent, PreviousCurrent)
                          case SawReduced => SawCommitLast(trace, intent)
      ensures (r.Refused? || old(Setback())) ==> Setback()
    {
      var restored := NotYet;
      while restored.NotYet?
        invariant Compensating() && progress.compensationExpiry == Some(expiry) && old(trace) <= trace
        invariant restored.SawPrevious? ==> GatedAt(trace, intent, PreviousCurrent)
        invariant restored.SawReduced? ==> SawCommitLast(trace, intent)
        invariant old(Setback()) ==> Setback()
        decreases patience, restored.NotYet?
      {
        var now := Clock();
        if now >= expiry {
          NoteExpiry(now);
          return Done(NotYet);
        }
        restored :- RestoreOnce(expiry);
      }
      return Done(restored);
    }

    method Compensate(expiry: int) returns (r: Outcome<Recovery>)
      requires Compensating() && progress.compensationExpiry == Some(expiry)
      modifies this`progress, this`phaseSequence, this`connected, this`patience, this`trace
      ensures Lawful() && old(trace) <= trace
      ensures r.Done? && r.value.CommitFound? ==> Committed() && progress.phase.RemovingConnection?
      ensures r.Done? && r.value.Ended? ==> Ends(r.value.result)
      ensures (r.Refused? || old(Setback())) ==> Setback()
    {
      var restored :- Restore(expiry);
      match restored {
        case NotYet => r := GiveUp();
        case SawPrevious =>
          PublishedAreValid(trace, intent);
          PlausibleIsValid(intent, progress);
          r := Done(Ended(RemovalProgress.Compensated));
        case SawReduced =>
          var _ :- ObserveCommit();
          r := Done(CommitFound);
      }
    }

    method GiveUp() returns (r: Outcome<Recovery>)
      requires Compensating() && ExpiryJustSeen()
      modifies this`progress, this`phaseSequence, this`connected, this`patience, this`trace
      ensures Lawful() && old(trace) <= trace
      ensures r.Done? ==> r.value == Ended(CompensationIncomplete) && Ends(CompensationIncomplete)
      ensures (r.Refused? || old(Setback())) ==> Setback()
    {
      progress := progress.(error := Some(if progress.error.Some? then Normalized(progress.error.value) else Own));
      PlausibleIsValid(intent, progress);
      var _ :- Publish();
      return Done(Ended(CompensationIncomplete));
    }

    /** One turn of the compensation: look, cancel a running wait or send the restoration, look again. */
    method RestoreOnce(expiry: int) returns (r: Outcome<Restored>)
      requires Compensating() && progress.compensationExpiry == Some(expiry)
      modifies this`progress, this`patience, this`trace
      ensures Lawful() && old(trace) <= trace
      ensures r.Done? ==> Compensating() && progress.compensationExpiry == Some(expiry) && patience < old(patience)
      ensures r.Done? && r.value.SawPrevious? ==> GatedAt(trace, intent, PreviousCurrent)
      ensures r.Done? && r.value.SawReduced? ==> SawCommitLast(trace, intent)
      ensures (r.Refused? || old(Setback())) ==> Setback()
    {
      var seen := Gate(Some(expiry), {PreviousCurrent, ReducedCatchUp, ReducedCurrent});
      if seen.Refused? {
        progress := progress.(error := Some(Normalized(seen.error)));
        var _ :- WaitForObservation();
        return Done(NotYet);
      }
      if seen.value == ReducedCurrent { return Done(SawReduced); }
      if seen.value == PreviousCurrent { return Done(SawPrevious); }
      r := RestoreSeen(expiry);
    }

    /** In the catch-up configuration: stops the wait if it still runs, and restores otherwise. */
    method RestoreSeen(expiry: int) returns (r: Outcome<Restored>)
      requires Compensating() && progress.compensationExpiry == Some(expiry)
      requires GatedFor(trace, intent, ReducedCatchUp, RestorePrevious)
      modifies this`progress, this`patience, this`trace
      ensures Lawful() && old(trace) <= trace
      ensures r.Done? ==> Compensating() && progress.compensationExpiry == Some(expiry) && patience < old(patience)
      ensures r.Done? && r.value.SawPrevious? ==> GatedAt(trace, intent, PreviousCurrent)
      ensures r.Done? && r.value.SawReduced? ==> SawCommitLast(trace, intent)
      ensures (r.Refused? || old(Setback())) ==> Setback()
    {
      var runtime := LookAtWait();
      if runtime.quorumWait.Some? && runtime.quorumWait.value.executionId == WaitId(intent)
         && runtime.quorumWait.value.state.Running? {
        r := CancelWait(expiry);
      } else {
        r := SendRestoration(expiry);
      }
    }

    /** In compensation, with an effect owed or free to be sent. */
    ghost predicate Restoring(expiry: int, effect: Effect)
      reads this
    {
      && Payable(effect, expiry) && connected && progress.phase.Compensating? && !progress.commitObserved
      && progress.compensationExpiry == Some(expiry) && LastPublished(trace).Some?
      && LastPublished(trace).value.(error := None) == progress.(error := None)
    }

    method CancelWait(expiry: int) returns (r: Outcome<Restored>)
      requires Restoring(expiry, CancelQuorumWait)
      modifies this`patience, this`trace
      ensures Lawful() && old(trace) <= trace
      ensures r.Done? ==> r.value.NotYet? && Compensating() && patience < old(patience)
      ensures (r.Refused? || old(Setback())) ==> Setback()
    {
      var _ := Execute(CancelQuorumWait, expiry);
      var _ :- Gate(Some(expiry), {PreviousCurrent, ReducedCatchUp, ReducedCurrent});
      var _ :- WaitForObservation();
      return Done(NotYet);
    }

    method SendRestoration(expiry: int) returns (r: Outcome<Restored>)
      requires Restoring(expiry, RestorePrevious)
      modifies this`progress, this`patience, this`trace
      ensures Lawful() && old(trace) <= trace && patience <= old(patience)
      ensures progress.compensationExpiry == old(progress.compensationExpiry)
      ensures r.Done? ==> Compensating() && patience < old(patience)
      ensures r.Done? && r.value.SawPrevious? ==> GatedAt(trace, intent, PreviousCurrent)
      ensures r.Done? && r.value.SawReduced? ==> SawCommitLast(trace, intent)
      ensures (r.Refused? || old(Setback())) ==> Setback()
    {
      var effect := Execute(RestorePrevious, expiry);
      var observed := Gate(Some(expiry), {PreviousCurrent, ReducedCatchUp, ReducedCurrent});
      if observed == Done(PreviousCurrent) { return Done(SawPrevious); }
      if observed == Done(ReducedCurrent) { return Done(SawReduced); }
      NoteFailure(effect);
      var _ :- WaitForObservation();
      return Done(NotYet);
    }

    // -------------------------------------------------------------- after the commit

    /** Removes the exact target connection until it is seen to be absent, and publishes that. */
    method RemoveTargetConnection() returns (r: Outcome<()>)
      requires Committed() && progress.phase.RemovingConnection?
      modifies this`progress, this`phaseSequence, this`connected, this`patience, this`trace
      ensures Lawful()
      ensures r.Done? ==> Committed() && progress.phase.RemovingConnection? && AbsencePublished(trace)
      ensures (r.Refused? || old(Setback())) ==> Setback()
    {
      var absent := false;
      while !absent
        modifies this`progress, this`patience, this`trace
        invariant Committed() && progress.phase.RemovingConnection?
        invariant absent ==> trace != [] && trace[|trace| - 1].SawAbsent?
        invariant old(Setback()) ==> Setback()
        decreases patience, !absent
      {
        absent :- DisconnectOnce();
      }
      r := PublishAbsence();
    }

    /** One turn: look, send the removal, look again; true when the connection was seen to be absent. */
    method DisconnectOnce() returns (r: Outcome<bool>)
      requires Committed() && progress.phase.RemovingConnection?
      modifies this`progress, this`patience, this`trace
      ensures Lawful()
      ensures r.Done? ==> Committed() && progress.phase.RemovingConnection? && patience < old(patience)
      ensures r.Done? && r.value ==> trace != [] && trace[|trace| - 1].SawAbsent?
      ensures (r.Refused? || old(Setback())) ==> Setback()
    {
      var absent :- LookForAbsence();
      if absent { return Done(true); }
      r := SendRemoval();
    }

    method SendRemoval() returns (r: Outcome<bool>)
      requires PastCommit() && progress.phase.RemovingConnection?
      requires MaySend(trace, RemoveConnection, intent)
      modifies this`progress, this`patience, this`trace
      ensures (r.Refused? || old(Setback())) ==> Setback()
      ensures Lawful() && patience <= old(patience)
      ensures r.Done? ==> Committed() && progress.phase.RemovingConnection? && patience < old(patience)
      ensures r.Done? && r.value ==> trace != [] && trace[|trace| - 1].SawAbsent?
    {
      var now := Clock();
      var limit := Min(now + intent.callTimeout, I64_MAX);
      var effect := Execute(RemoveConnection, limit);
      r := LookAfterRemoval(effect);
    }

    method LookAfterRemoval(effect: Outcome<()>) returns (r: Outcome<bool>)
      requires Committed() && progress.phase.RemovingConnection? && trace != [] && Attempted(trace[|trace| - 1])
      modifies this`progress, this`patience, this`trace
      ensures (r.Refused? || old(Setback())) ==> Setback()
      ensures Lawful() && patience <= old(patience)
      ensures r.Done? ==> Committed() && progress.phase.RemovingConnection? && patience < old(patience)
      ensures r.Done? && r.value ==> trace != [] && trace[|trace| - 1].SawAbsent?
    {
      var absent :- LookForAbsence();
      if absent { return Done(true); }
      NoteFailure(effect);
      var _ :- WaitForObservation();
      return Done(false);
    }

    /** Keeps the error of a failed call for the next publication. */
    method NoteFailure(effect: Outcome<()>)
      requires Coherent()
      modifies this`progress
      ensures Coherent() && progress.(error := None) == old(progress).(error := None)
      ensures progress.error == if effect.Refused? then Some(Normalized(effect.error)) else old(progress.error)
    {
      if effect.Refused? { progress := progress.(error := Some(Normalized(effect.error))); }
    }

    /** A gate and a look; a connection still there asks for its removal, unless that was just attempted. */
    method LookForAbsence() returns (r: Outcome<bool>)
      requires Steady() && CommitPublished(trace)
      modifies this`patience, this`trace
      ensures Coherent() && patience <= old(patience) && LastPublished(trace) == LastPublished(old(trace))
      ensures r.Refused? ==> Clear()
      ensures r.Done? && !r.value && PhaseIs(trace, Attesting) ==> Setback()
      ensures r.Done? ==> connected && patience < old(patience) && |trace| == |old(trace)| + 2
                          && GatedAt(trace[..|trace| - 1], intent, ReducedCurrent)
      ensures r.Done? && r.value ==> trace[|trace| - 1].SawAbsent? && Clear()
      ensures r.Done? && !r.value ==> trace[|trace| - 1].SawPresent?
      ensures !PhaseIs(trace, RemovingConnection) || (old(trace) != [] && Attempted(old(trace)[|old(trace)| - 1])) ==>
                Clear()
      ensures old(trace) <= trace && RetirementSeen(trace) == RetirementSeen(old(trace))
      ensures (r.Refused? || old(Setback())) ==> Setback()
    {
      var _ :- Gate(None, {ReducedCurrent});
      var absent := SeesTargetAbsent();
      return Done(absent);
    }

    method PublishAbsence() returns (r: Outcome<()>)
      requires Committed() && progress.phase.RemovingConnection? && trace != [] && trace[|trace| - 1].SawAbsent?
      modifies this`progress, this`phaseSequence, this`connected, this`patience, this`trace
      ensures Lawful()
      ensures r.Done? ==> Committed() && progress.phase.RemovingConnection? && AbsencePublished(trace)
      ensures (r.Refused? || old(Setback())) ==> Setback()
    {
      progress := progress.(connectionAbsent := true);
      PlausibleIsValid(intent, progress);
      r := Publish();
    }

    // -------------------------------------------------------------- retirement

    /** Past the connection's removal, with the target's retirement due by its expiry. */
    ghost predicate Due(expiry: int)
      reads this
    {
      && PastCommit() && progress.phase.RetiringTarget? && AbsencePublished(trace)
      && PhaseIs(trace, RetiringTarget) && progress.retirementExpiry == Some(expiry)
    }

    ghost predicate Retiring(expiry: int)
      reads this
    {
      Due(expiry) && Clear()
    }

    /** The last observation is what was published last; before any, the target counts as unavailable. */
    ghost predicate Lasts(last: Retirement)
      reads this
    {
      && LastPublished(trace).Some? && !last.Completed? && !last.NotAttempted?
      && var published := LastPublished(trace).value.retirement;
         last == if published.NotAttempted? then Unavailable else published
    }

    ghost predicate TurnHolds(turn: Turn, expiry: int)
      reads this
    {
      && Retiring(expiry)
      && match turn
         case Again(last) => Lasts(last) && !RetirementSeen(trace)
         case Settled(retirement) =>
           Final(retirement) && retirement == EndsAs(trace) && (retirement.Completed? <==> RetirementSeen(trace))
           && (!retirement.Completed? ==> ExpirySeen(trace, expiry) || (intent.mode.Force? && !Reachable(intent)))
    }

    method PublishRetirement(expiry: int, retirement: Retirement, error: Option<Message>) returns (r: Outcome<()>)
      requires Retiring(expiry) && !retirement.Completed? && !retirement.NotAttempted?
      requires error.Some? ==> Fits(error.value)
      requires if Reachable(intent) then Told(trace, intent, retirement, error) else retirement.Unavailable?
      modifies this`progress, this`phaseSequence, this`connected, this`patience, this`trace
      ensures Lawful() && patience <= old(patience)
      ensures r.Done? ==> Retiring(expiry) && patience < old(patience)
      ensures r.Done? ==> LastPublished(trace).value.retirement == retirement
      ensures RetirementSeen(trace) == RetirementSeen(old(trace))
      ensures (r.Refused? || old(Setback())) ==> Setback()
    {
      progress := progress.(retirement := retirement, error := error);
      PlausibleIsValid(intent, progress);
      r := Publish();
    }

    /** A status that did not come was told as what came instead. */
    ghost predicate Failed(reply: PeerReply<PeerStatus>)
      reads this
    {
      match reply
      case Answered(_) => true
      case TransportError(kind, text) => Fits(text) && Told(trace, intent, RetirementOf(kind), Some(text))
      case TimedOut => Told(trace, intent, Unavailable, Some(Own))
    }

    method AskPeerStatus(expiry: int) returns (r: Outcome<PeerReply<PeerStatus>>)
      requires Retiring(expiry) && GatedFor(trace, intent, ReducedCurrent, AskStatus)
      modifies this`trace
      ensures Retiring(expiry) && RetirementSeen(trace) == RetirementSeen(old(trace))
      // An answer comes only to a question.
      ensures Spent(AskStatus)
      // An answer comes only to a question, and what came instead is told.
      ensures r.Done? && r.value.Answered? ==> trace[|trace| - 1].Sent? && trace[|trace| - 1].answer.StatusCame?
      ensures r.Done? ==> Failed(r.value)
      ensures (r.Refused? || old(Setback())) ==> Setback()
    {
      var late, time := CallDeadline(expiry);
      if late {
        Missed(AskStatus, expiry, time, time.last);
        return Refused(Own);
      }
      var now := Clock();
      if now >= time.end {
        Missed(AskStatus, expiry, time, now);
        return Done(TimedOut);
      }
      var reply := PeerCall<PeerStatus>();
      NoteStatus(expiry, now, reply);
      return Done(reply);
    }

    /** The question was sent, and this came of it. */
    ghost method NoteStatus(expiry: int, at: int, reply: PeerReply<PeerStatus>)
      requires Payable(AskStatus, expiry) && at < expiry && (reply.TransportError? ==> Fits(reply.text))
      modifies this`trace
      ensures Steady() && Spent(AskStatus) && Failed(reply) && (Setback() <==> old(Setback()))
      ensures trace[|trace| - 1].Sent? && (reply.Answered? ==> trace[|trace| - 1].answer.StatusCame?)
    {
      Made(AskStatus, expiry, at, match reply
                                  case Answered(_) => StatusCame
                                  case TransportError(kind, text) => PeerFailed(kind, text)
                                  case TimedOut => NoAnswer);
    }

    /** The Retire request for the target's status, checked as the receiver will check it. */
    method PrepareRetire(expiry: int, version: U64) returns (ok: bool)
      requires Due(expiry) && Standing() && Reachable(intent)
      ensures ok <==> readable
    {
      PlausibleIsValid(intent, progress);
      var request := RequestOf(intent, progress.commitTime, expiry, version);
      ok := ValidateRequest(request, endpoint);
    }

    /** The Retire request that this commit and this expiry make. */
    ghost function RetireEffect(expiry: int): Effect
      reads this
    {
      Retire(if progress.commitTime.Some? then progress.commitTime.value else 0, expiry)
    }

    /** The exact target, up and without a request, was seen last. */
    ghost predicate NeedSeen(expiry: int)
      reads this
    {
      && Due(expiry) && !RetirementSeen(trace)
      && trace != [] && trace[|trace| - 1].SawStatus? && NeedsRetire(trace[|trace| - 1].status, intent)
      && GatedFor(trace[..|trace| - 1], intent, ReducedCurrent, RetireEffect(expiry))
    }

    /**
     * Sends the Retire request, unless its time is up; one that does not pass its own check is an error of the
     * coordinator, and stays unsent.
     */
    method SendRetire(expiry: int, version: U64) returns (r: Outcome<PeerReply<StageObservation>>)
      requires NeedSeen(expiry) && Standing() && Reachable(intent)
      modifies this`trace
      ensures Due(expiry) && !RetirementSeen(trace)
      ensures if readable then Clear() && Spent(RetireEffect(expiry)) else r.Refused? && trace == old(trace)
      ensures r.Done? ==> ToldBy(r.value)
      ensures ((r.Refused? && readable) || old(Setback())) ==> Setback()
    {
      var valid := PrepareRetire(expiry, version);
      if !valid { return Refused(Own); }
      r := CallRetire(expiry);
    }

    /** What a reply to the Retire request says, and the trace tells. */
    ghost predicate ToldBy(reply: PeerReply<StageObservation>)
      reads this
    {
      match reply
      case Answered(stage) =>
        trace != [] && trace[|trace| - 1].Sent?
        && Told(trace, intent, OfStage(stage.state), NormalizedOption(stage.error))
      case TransportError(kind, text) => Fits(text) && Told(trace, intent, RetirementOf(kind), Some(text))
      case TimedOut => Told(trace, intent, Unavailable, Some(Own))
    }

    /** The call itself, behind the status that asks for it. */
    method CallRetire(expiry: int) returns (r: Outcome<PeerReply<StageObservation>>)
      requires NeedSeen(expiry)
      modifies this`trace
      ensures Retiring(expiry) && !RetirementSeen(trace) && Spent(RetireEffect(expiry))
      ensures r.Done? ==> ToldBy(r.value)
      ensures (r.Refused? || old(Setback())) ==> Setback()
    {
      assert Payable(RetireEffect(expiry), expiry);
      var late, time := CallDeadline(expiry);
      if late {
        Missed(RetireEffect(expiry), expiry, time, time.last);
        return Refused(Own);
      }
      var now := Clock();
      if now >= time.end {
        Missed(RetireEffect(expiry), expiry, time, now);
        return Done(TimedOut);
      }
      var reply := PeerCall<StageObservation>();
      NoteRetire(expiry, now, reply);
      return Done(reply);
    }

    /** The request was sent, and this came of it. */
    ghost method NoteRetire(expiry: int, at: int, reply: PeerReply<StageObservation>)
      requires Payable(RetireEffect(expiry), expiry) && at < expiry && (reply.TransportError? ==> Fits(reply.text))
      modifies this`trace
      ensures Steady() && Spent(RetireEffect(expiry)) && ToldBy(reply) && (Setback() <==> old(Setback()))
    {
      Made(RetireEffect(expiry), expiry, at, match reply
                                             case Answered(stage) => StageCame(stage.state, stage.error)
                                             case TransportError(kind, text) => PeerFailed(kind, text)
                                             case TimedOut => NoAnswer);
    }

    method ReportAndWait(expiry: int, retirement: Retirement, error: Option<Message>) returns (r: Outcome<Turn>)
      requires Retiring(expiry) && !retirement.Completed? && !retirement.NotAttempted? && !RetirementSeen(trace)
      requires (error.Some? ==> Fits(error.value)) && Reachable(intent) && Told(trace, intent, retirement, error)
      modifies this`progress, this`phaseSequence, this`connected, this`patience, this`trace
      ensures Lawful() && patience <= old(patience)
      ensures r.Done? ==> TurnHolds(r.value, expiry) && patience < old(patience)
      ensures (r.Refused? || old(Setback())) ==> Setback()
    {
      var _ :- PublishRetirement(expiry, retirement, error);
      var _ :- WaitForObservation();
      return Done(Again(retirement));
    }

    /** What an answered status is put down as. */
    ghost predicate PutDown(status: PeerStatus)
      reads this
    {
      trace != []
      && trace[|trace| - 1] == if ExactPeer(status, intent) && Retired(status) then SawRetired(status)
                               else SawStatus(status)
    }

    /** What a look at the target leaves: its status put down, a failure told, or nothing past the expiry. */
    ghost predicate Heard(reply: Option<PeerReply<PeerStatus>>, expiry: int)
      reads this
    {
      match reply
      case None => Clear() && !RetirementSeen(trace) && ExpirySeen(trace, expiry)
      case Some(Answered(status)) => StatusSeen(status, expiry)
      case Some(failure) => Clear() && !RetirementSeen(trace) && Failed(failure)
    }

    /** The status was put down behind a gate that leaves time for a Retire request. */
    ghost predicate StatusSeen(status: PeerStatus, expiry: int)
      reads this
    {
      && PutDown(status)
      && GatedFor(trace[..|trace| - 1], intent, ReducedCurrent, RetireEffect(expiry))
      && (RetirementSeen(trace) <==> trace[|trace| - 1].SawRetired?)
    }

    /** The target's status between two gates; nothing when the expiry passed. */
    method LookAtTarget(expiry: int) returns (r: Outcome<Option<PeerReply<PeerStatus>>>)
      requires Retiring(expiry) && !RetirementSeen(trace)
      modifies this`patience, this`trace
      ensures Due(expiry) && patience <= old(patience) && LastPublished(trace) == LastPublished(old(trace))
      ensures if r.Refused? then Clear() else Heard(r.value, expiry)
      ensures (r.Refused? || old(Setback())) ==> Setback()
    {
      var now := Clock();
      if now >= expiry {
        RecordExpiry(now, expiry);
        return Done(None);
      }
      var _ :- Gate(Some(expiry), {ReducedCurrent});
      var reply :- AskPeerStatus(expiry);
      r := GateAnswer(reply, expiry);
    }

    /** An answer counts only before the expiry and behind a gate of its own. */
    method GateAnswer(reply: PeerReply<PeerStatus>, expiry: int)
      returns (r: Outcome<Option<PeerReply<PeerStatus>>>)
      requires Retiring(expiry) && !RetirementSeen(trace) && Failed(reply)
      modifies this`patience, this`trace
      ensures Due(expiry) && patience <= old(patience) && LastPublished(trace) == LastPublished(old(trace))
      ensures if r.Refused? then Clear() else Heard(r.value, expiry)
      ensures r.Done? && r.value.Some? ==> r.value.value == reply
      ensures (r.Refused? || old(Setback())) ==> Setback()
    {
      var now := Clock();
      if now >= expiry {
        RecordExpiry(now, expiry);
        return Done(None);
      }
      var _ :- Gate(Some(expiry), {ReducedCurrent});
      if reply.Answered? { RecordStatus(reply.value, expiry); }
      return Done(Some(reply));
    }

    ghost method RecordStatus(status: PeerStatus, expiry: int)
      requires Retiring(expiry) && !RetirementSeen(trace) && GatedAt(trace, intent, ReducedCurrent)
      modifies this`trace
      ensures Due(expiry) && PutDown(status) && trace[..|trace| - 1] == old(trace)
      ensures LastPublished(trace) == LastPublished(old(trace)) && (Setback() <==> old(Setback()))
      ensures RetirementSeen(trace) <==> trace[|trace| - 1].SawRetired?
    {
      if ExactPeer(status, intent) && Retired(status) {
        Note(SawRetired(status));
      } else {
        Note(SawStatus(status));
      }
    }

    /** One turn of the retirement: the target's status, and a Retire request when it has none yet. */
    method RetireOnce(last: Retirement, expiry: int) returns (r: Outcome<Turn>)
      requires TurnHolds(Again(last), expiry) && Standing() && Reachable(intent)
      modifies this`progress, this`phaseSequence, this`connected, this`patience, this`trace
      ensures Legal(trace, intent) && (Clear() || (r.Refused? && !readable)) && patience <= old(patience)
      ensures r.Done? ==> TurnHolds(r.value, expiry)
      ensures r.Done? && r.value.Again? ==> patience < old(patience)
      ensures ((r.Refused? && readable) || old(Setback())) ==> Setback()
    {
      var reply :- LookAtTarget(expiry);
      match reply {
        case None => return Done(Settled(AtExpiry(last)));
        case Some(TransportError(kind, text)) => r := ReportAndWait(expiry, RetirementOf(kind), Some(text));
        case Some(TimedOut) =>
          var _ :- PublishRetirement(expiry, Unavailable, Some(Own));
          return Done(Again(Unavailable));
        case Some(Answered(status)) => r := ReactToStatus(status, last, expiry);
      }
    }

    method ReactToStatus(status: PeerStatus, last: Retirement, expiry: int) returns (r: Outcome<Turn>)
      requires Due(expiry) && StatusSeen(status, expiry) && Lasts(last)
      requires Standing() && Reachable(intent)
      modifies this`progress, this`phaseSequence, this`connected, this`patience, this`trace
      ensures Legal(trace, intent) && (Clear() || (r.Refused? && !readable)) && patience <= old(patience)
      ensures r.Done? ==> TurnHolds(r.value, expiry)
      ensures r.Done? && r.value.Again? ==> patience < old(patience)
      ensures ((r.Refused? && readable) || old(Setback())) ==> Setback()
    {
      if !ExactPeer(status, intent) {
        r := ReportAndWait(expiry, Stale, Some(Own));
      } else if Retired(status) {
        r := Done(Settled(RemovalProgress.Completed));
      } else {
        var found := FindStage(status.current, status.retained, RetireId(intent));
        if found.Some? {
          var retirement := OfStage(found.value.state);
          r := ReportAndWait(expiry, retirement,
                             if retirement.InProgress? then None else NormalizedOption(found.value.error));
        } else {
          r := RequestRetirement(last, expiry, status.peerControlVersion);
        }
      }
    }

    ghost method RecordExpiry(now: int, expiry: int)
      requires Retiring(expiry) && now >= expiry
      modifies this`trace
      ensures Retiring(expiry) && ExpirySeen(trace, expiry) && RetirementSeen(trace) == RetirementSeen(old(trace))
      ensures LastPublished(trace) == LastPublished(old(trace)) && (Setback() <==> old(Setback()))
    {
      Note(SawExpiry(now));
      assert trace[|trace| - 1].SawExpiry?;
    }

    method RequestRetirement(last: Retirement, expiry: int, version: U64) returns (r: Outcome<Turn>)
      requires NeedSeen(expiry) && Lasts(last)
      requires Standing() && Reachable(intent)
      modifies this`progress, this`phaseSequence, this`connected, this`patience, this`trace
      ensures Legal(trace, intent) && (Clear() || (r.Refused? && !readable)) && patience <= old(patience)
      ensures r.Done? ==> TurnHolds(r.value, expiry)
      ensures r.Done? && r.value.Again? ==> patience < old(patience)
      ensures ((r.Refused? && readable) || old(Setback())) ==> Setback()
    {
      var reply :- SendRetire(expiry, version);
      r := ReportReply(reply, last, expiry);
    }

    /** Publishes what came of the Retire request, unless the expiry has passed. */
    method ReportReply(reply: PeerReply<StageObservation>, last: Retirement, expiry: int) returns (r: Outcome<Turn>)
      requires Retiring(expiry) && !RetirementSeen(trace) && Lasts(last) && ToldBy(reply) && Reachable(intent)
      modifies this`progress, this`phaseSequence, this`connected, this`patience, this`trace
      ensures Lawful() && patience <= old(patience)
      ensures r.Done? ==> TurnHolds(r.value, expiry)
      ensures r.Done? && r.value.Again? ==> patience < old(patience)
      ensures (r.Refused? || old(Setback())) ==> Setback()
    {
      var now := Clock();
      if now >= expiry {
        RecordExpiry(now, expiry);
        return Done(Settled(AtExpiry(last)));
      }
      var _ :- Gate(Some(expiry), {ReducedCurrent});
      var retirement, error := Unavailable, Some(Own);
      match reply {
        case Answered(stage) => retirement, error := OfStage(stage.state), NormalizedOption(stage.error);
        case TransportError(kind, text) => retirement, error := RetirementOf(kind), Some(text);
        case TimedOut =>
      }
      r := ReportAndWait(expiry, retirement, error);
    }

    /** Retires the target until it is seen to have closed or the signed expiry passes. */
    method EnsureTargetRetirement(expiry: int) returns (r: Outcome<Retirement>)
      requires Retiring(expiry) && Standing() && Lasts(Unavailable) && !RetirementSeen(trace)
      modifies this`progress, this`phaseSequence, this`connected, this`patience, this`trace
      ensures Legal(trace, intent) && (Clear() || (r.Refused? && !readable && Reachable(intent)))
      ensures r.Done? ==> TurnHolds(Settled(r.value), expiry)
      ensures ((r.Refused? && (readable || !Reachable(intent))) || old(Setback())) ==> Setback()
    {
      if !Reachable(intent) {
        assert intent.mode.Force?;  // a scale-down without an address is not accepted
        var _ :- PublishRetirement(expiry, Unavailable, progress.error);
        return Done(Unavailable);
      }
      var turn := Again(Unavailable);
      while turn.Again?
        invariant TurnHolds(turn, expiry) && (old(Setback()) ==> Setback())
        decreases patience, turn.Again?
      {
        turn :- RetireOnce(turn.last, expiry);
      }
      return Done(turn.retirement);
    }

    // -------------------------------------------------------------- the whole run

    method RunPostCommit() returns (r: Outcome<TerminalResult>)
      requires Committed() && progress.phase.RemovingConnection? && Standing()
      modifies this`progress, this`phaseSequence, this`connected, this`patience, this`trace
      ensures Legal(trace, intent) && (Clear() || (r.Refused? && !readable && Reachable(intent)))
      ensures r.Done? ==> Ends(r.value) && (r.value.CommittedClean? || r.value.CommittedDegraded?)
      ensures ((r.Refused? && (readable || !Reachable(intent))) || old(Setback())) ==> Setback()
    {
      var _ :- RemoveTargetConnection();
      NotYetRetired(trace, intent);
      var _ :- Transition(RetiringTarget);
      var expiry := progress.retirementExpiry.value;
      var retirement :- EnsureTargetRetirement(expiry);
      r := Attest(retirement, expiry);
    }

    method PublishAttestation(retirement: Retirement, expiry: int) returns (r: Outcome<()>)
      requires TurnHolds(Settled(retirement), expiry)
      modifies this`progress, this`phaseSequence, this`connected, this`patience, this`trace
      ensures (r.Refused? || old(Setback())) ==> Setback()
      ensures Lawful()
      ensures r.Done? ==> Attested(retirement, expiry)
    {
      ghost var before, was := trace, progress;
      progress := progress.(retirement := retirement, phase := Attesting,
                            error := if retirement.Completed? then None else Some(Own));
      AttestationIsPublishable(intent, was, progress, currentInstallDispatched, connected, trace);
      var _ :- Publish();
      SeenStaysSeen(before, trace, expiry);
      return Done(());
    }

    ghost predicate Attested(retirement: Retirement, expiry: int)
      reads this
    {
      && Committed() && LastPublished(trace) == Some(progress) && progress.phase.Attesting?
      && progress.retirement == retirement && Final(retirement) && progress.connectionAbsent
      && progress.retirementExpiry == Some(expiry)
      && (retirement.Completed? <==> RetirementSeen(trace))
      && (!retirement.Completed? ==> ExpirySeen(trace, expiry) || (intent.mode.Force? && !Reachable(intent)))
    }

    method Attest(retirement: Retirement, expiry: int) returns (r: Outcome<TerminalResult>)
      requires TurnHolds(Settled(retirement), expiry)
      modifies this`progress, this`phaseSequence, this`connected, this`patience, this`trace
      ensures Lawful()
      ensures r.Done? ==> Ends(r.value) && (r.value.CommittedClean? || r.value.CommittedDegraded?)
      ensures (r.Refused? || old(Setback())) ==> Setback()
    {
      var _ :- PublishAttestation(retirement, expiry);
      ghost var before := trace;
      var absent :- LookForAbsence();
      if !absent { return Refused(Own); }  // the connection is back
      SeenStaysSeen(before, trace, expiry);
      PlausibleIsValid(intent, progress);
      return Done(if retirement.Completed? then CommittedClean else CommittedDegraded);
    }

    method CommitOrRecover() returns (r: Outcome<Recovery>)
      requires Steady() && !progress.commitObserved && progress.phase.Validating? && !currentInstallDispatched
      modifies this`progress, this`currentInstallDispatched, this`phaseSequence, this`connected, this`patience,
               this`trace
      ensures (r.Refused? || old(Setback())) ==> Setback()
      ensures Lawful()
      ensures r.Done? && r.value.CommitFound? ==> Committed() && progress.phase.RemovingConnection?
      ensures r.Done? && r.value.Ended? ==> Ends(r.value.result) && Setback()
    {
      var committed := RunPreCommit();
      if committed.Done? { return Done(CommitFound); }
      r := Recover(Normalized(committed.error));
    }

    /**
     * One run of the coordinator. Whatever the environment does, the steps taken are legal and pay what they owe,
     * and a result is reported only with its evidence and with the whole of the published progress handed to the
     * agent.
     */
    method Run() returns (r: Outcome<TerminalResult>)
      requires Steady() && trace == [] && progress == Initial(intent.attemptId) && !currentInstallDispatched
      requires connected && phaseSequence == 0 && !Setback() && Standing()
      modifies this`progress, this`currentInstallDispatched, this`phaseSequence, this`connected, this`patience,
               this`trace
      ensures Legal(trace, intent)
      // Only an unreadable fence leaves something owed: the Retire request that could not be made.
      ensures Clear() || (r.Refused? && !readable && Reachable(intent))
      ensures r.Done? ==> Evidence(trace, intent, r.value) && phaseSequence == |Publications(trace)|
      // Without a setback the removal commits, clean or degraded, unless its target is asked and its fence unreadable.
      ensures !Setback() && (readable || !Reachable(intent)) ==>
                r.Done? && (r.value.CommittedClean? || r.value.CommittedDegraded?)
      // The check of the private progress that precedes the report never fails.
      ensures r.Done? ==> ValidTerminal(intent, progress, r.value)
      ensures ((r.Refused? && (readable || !Reachable(intent))) || old(Setback())) ==> Setback()
    {
      var runtime := LookAround();
      var initial := Classify(runtime.configuration, intent);
      match initial {
        case None => return Refused(Own);
        case Some(ReducedCurrent) =>
          var _ :- ObserveCommit();
          r := RunPostCommit();
        case Some(_) =>
          var recovery :- CommitOrRecover();
          if recovery.Ended? { return Done(recovery.result); }
          r := RunPostCommit();
      }
    }
  }
}
