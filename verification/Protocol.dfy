/** Any number of hosts, crashing and racing over one store: every reachable state. */
module Protocol {
  import opened Basics
  import opened Identity
  import opened CheckpointJson
  import opened Checkpoint
  import opened Workflow
  import opened Replay
  import opened Store
  import opened Host
  import opened Progress
  import opened Duties
  import opened Reservation

  /** A running host; `waiting` is the write it has sent and not yet heard about. */
  datatype RunningHost = RunningHost(config: HostConfig, counter: nat, waiting: Option<Proposal>)

  /** What was written at a revision, and the limits of the host that wrote it. */
  datatype Write = Write(executionId: Id16, checkpoint: CheckpointEnvelope, limits: CheckpointLimits)

  datatype Grant = Grant(permit: DispatchPermit, revision: StorageRevision)

  /** The store, the hosts and the writes still on their way, with the history of the run:
      what each revision held, which results were recorded, and everything hosts have reported. */
  datatype System = System(
    store: StoreState,
    hosts: map<nat, RunningHost>,
    inflight: set<Proposal>,
    written: map<nat, Write>,
    observed: map<Id16, seq<Bytes>>,
    grants: seq<Grant>,
    reported: seq<HostOutcome>)

  datatype Event =
    | Boot(host: nat, config: HostConfig)
    | Begin(host: nat, op: Operation, loadError: Option<StoreErrorKind>)
    | Answer(host: nat, applied: bool, result: CasResult)
    | LateApply(proposal: Proposal)
    | Crash(host: nat)

  const INITIAL := System(StoreState(map[], 0), map[], {}, map[], map[], [], [])

  function ObservedOf(s: System, id: Id16): seq<Bytes>
  {
    if id in s.observed then s.observed[id] else []
  }

  predicate CanLand(s: System, p: Proposal)
  {
    Matches(s.store, p.executionId, p.expected)
  }

  /** The write reaches the store. */
  function Land(s: System, p: Proposal): System
  {
    s.(store := Apply(s.store, p.executionId, p.checkpoint),
       written := s.written[s.store.revisionCounter + 1 := Write(p.executionId, p.checkpoint, p.limits)],
       observed := s.observed[p.executionId := ObservedOf(s, p.executionId) + AsSeq(p.observed)])
  }

  predicate Enabled(s: System, e: Event)
  {
    match e
    case Boot(h, _) => h !in s.hosts
    case Begin(h, _, _) => h in s.hosts && s.hosts[h].waiting.None? && 1 <= s.hosts[h].counter < U64_MAX
    case Answer(h, applied, result) =>
      && h in s.hosts && s.hosts[h].waiting.Some?
      && var p := s.hosts[h].waiting.value;
         && (applied ==> CanLand(s, p))
         && (result.Accepted? ==> applied) && (applied ==> result.Accepted? || result.OutcomeUnknown?)
         && CasAllowed(s.store, p.executionId, p.expected, p.checkpoint,
                       if applied then Apply(s.store, p.executionId, p.checkpoint) else s.store, result)
    case LateApply(p) => p in s.inflight && CanLand(s, p)
    case Crash(h) => h in s.hosts
  }

  function Report(s: System, outcome: HostOutcome): System
  {
    s.(reported := s.reported + [outcome],
       grants := if outcome.DispatchPermitted? then s.grants + [Grant(outcome.permit, outcome.revision)] else s.grants)
  }

  function Step(body: Body, s: System, e: Event): System
    requires Enabled(s, e)
  {
    match e
    case Boot(h, config) => s.(hosts := s.hosts[h := RunningHost(config, 1, None)])
    case Begin(h, op, loadError) =>
      if loadError.Some? then Report(s, StoreFailed(LoadOperation, loadError.value))
      else
        var host := s.hosts[h];
        var planned := PlanOperation(host.config, body, op, Lookup(s.store, op.execution.executionId), host.counter);
        (match planned.plan
         case Settle(outcome) =>
           Report(s.(hosts := s.hosts[h := host.(counter := planned.counter)]), outcome)
         case Propose(p) =>
           s.(hosts := s.hosts[h := RunningHost(host.config, planned.counter, Some(p))]))
    case Answer(h, applied, result) =>
      var p := s.hosts[h].waiting.value;
      var landed := if applied then Land(s, p) else s;
      var heard := landed.(hosts := s.hosts[h := s.hosts[h].(waiting := None)],
                           inflight := if result.OutcomeUnknown? && !applied then s.inflight + {p} else s.inflight);
      Report(heard, Conclude(p, result))
    case LateApply(p) => Land(s, p).(inflight := s.inflight - {p})
    case Crash(h) =>
      s.(hosts := map k | k in s.hosts && k != h :: s.hosts[k],
         inflight := if s.hosts[h].waiting.Some? then s.inflight + {s.hosts[h].waiting.value} else s.inflight)
  }

  /** The state after a run, or nothing when some event of it could not happen. */
  function Run(body: Body, events: seq<Event>): Option<System>
  {
    if events == [] then Some(INITIAL)
    else
      var before := Run(body, events[..|events| - 1]);
      var e := events[|events| - 1];
      if before.None? || !Enabled(before.value, e) then None else Some(Step(body, before.value, e))
  }

  // ---------------------------------------------------------------- invariants

  /** Every stored checkpoint is the content its revision was written with. */
  predicate StoredIsWritten(s: System)
  {
    && (forall t :: t in s.written ==> 1 <= t <= s.store.revisionCounter)
    && (forall id :: id in s.store.checkpoints ==>
          var c := s.store.checkpoints[id];
          && c.revision.token in s.written && s.written[c.revision.token].executionId == id
          && s.written[c.revision.token].checkpoint == c.checkpoint)
  }

  ghost predicate WrittenOnTrack(body: Body, s: System)
  {
    forall t :: t in s.written ==>
      && OnTrack(body, s.written[t].checkpoint.payload)
      && s.written[t].checkpoint.payload.execution.spec.executionId == s.written[t].executionId
  }

  /** The write was computed from what its expected revision holds, and is a legal step from it. */
  ghost predicate WellFounded(body: Body, s: System, p: Proposal)
  {
    match p.expected
       case None => Legal(body, None, p)
       case Some(revision) =>
         && revision.token in s.written && s.written[revision.token].executionId == p.executionId
         && Legal(body, Some(s.written[revision.token].checkpoint.payload), p)
  }

  ghost predicate ProposalsLegal(body: Body, s: System)
  {
    && (forall p :: p in s.inflight ==> WellFounded(body, s, p))
    && (forall h :: h in s.hosts && s.hosts[h].waiting.Some? ==> WellFounded(body, s, s.hosts[h].waiting.value))
  }

  /** Every stored state is where the direct run stands after exactly the results recorded so far. */
  ghost predicate Refines(body: Body, s: System)
  {
    && (forall id :: id in s.store.checkpoints ==>
          var p := s.store.checkpoints[id].checkpoint.payload;
          Agrees(body, p.execution.spec, p.state, ObservedOf(s, id)))
    && (forall id :: id !in s.store.checkpoints ==> ObservedOf(s, id) == [])
  }

  /** A terminal checkpoint is never overwritten. */
  predicate TerminalStays(s: System)
  {
    forall t :: t in s.written && s.written[t].checkpoint.payload.state.Terminal? ==>
      var id := s.written[t].executionId;
      id in s.store.checkpoints && s.store.checkpoints[id].revision.token == t
  }

  /** The position can no longer be exposed. */
  predicate Passed(p: CheckpointPayload, sequence: nat)
  {
    p.state.Terminal? || (sequence < |p.state.activities| && !p.state.activities[sequence].state.Scheduled?)
  }

  predicate GrantHolds(s: System, g: Grant)
  {
    var id, sequence := g.permit.activity.executionId, g.permit.activity.sequence;
    && id in s.store.checkpoints && Passed(s.store.checkpoints[id].checkpoint.payload, sequence)
    && g.revision.token in s.written
    && var w := s.written[g.revision.token];
       && w.executionId == id && w.checkpoint.payload.state.Active? && w.checkpoint.payload.state.activities != []
       && Final(w.checkpoint.payload.state.activities).LogicalId(id) == g.permit.activity
       && Final(w.checkpoint.payload.state.activities).state == DispatchExposed(g.permit.attempt)
  }

  predicate GrantsHold(s: System)
  {
    && (forall i :: 0 <= i < |s.grants| ==> GrantHolds(s, s.grants[i]))
    && (forall i, j :: 0 <= i < j < |s.grants| ==> !SamePlace(s.grants[i], s.grants[j]))
  }

  /** Two permits for one position of one execution. */
  predicate SamePlace(a: Grant, b: Grant)
  {
    a.permit.activity.executionId == b.permit.activity.executionId
    && a.permit.activity.sequence == b.permit.activity.sequence
  }

  /** A workflow that, on these results, suspends without asking for an activity. */
  ghost predicate Suspends(body: Body)
  {
    exists spec: ExecutionSpec, results: seq<Bytes> :: Direct(body, spec, results).Stuck?
  }

  ghost predicate ReportHolds(body: Body, s: System, outcome: HostOutcome)
  {
    match outcome
    case NondeterminismFound(error) => error == UnsupportedSuspension && Suspends(body)
    case WorkflowCompleted(result, revision, _) =>
      revision.token in s.written && s.written[revision.token].checkpoint.payload.state.Terminal?
      && s.written[revision.token].checkpoint.payload.state.outcome == result
    case _ => true
  }

  ghost predicate ReportsHold(body: Body, s: System)
  {
    forall i :: 0 <= i < |s.reported| ==> ReportHolds(body, s, s.reported[i])
  }

  ghost predicate Invariant(body: Body, s: System)
  {
    && StoredIsWritten(s) && WrittenOnTrack(body, s) && ProposalsLegal(body, s) && Refines(body, s)
    && TerminalStays(s) && GrantsHold(s) && ReportsHold(body, s)
  }

  // ---------------------------------------------------------------- a legal write only moves forward

  /** What can become of a record: a permit's attempt and a recorded result never change. */
  predicate StateAdvances(a: ActivityState, b: ActivityState)
  {
    match a
    case Scheduled => true
    case DispatchExposed(_) => b == a || b.Completed?
    case Completed(_) => b == a
  }

  predicate Extends(a: CheckpointPayload, b: CheckpointPayload)
  {
    && a.execution == b.execution
    && match a.state
       case Terminal(_, _) => b == a
       case Active(h) =>
         match b.state
         case Terminal(_, count) => |h| <= count
         case Active(g) =>
           && |h| <= |g|
           && forall i :: 0 <= i < |h| ==>
                g[i].sequence == h[i].sequence && g[i].spec == h[i].spec && StateAdvances(h[i].state, g[i].state)
  }

  lemma {:induction false} LegalWritesExtend(from: CheckpointPayload, p: Proposal)
    requires LegalShape(Some(from), p)
    ensures Extends(from, p.checkpoint.payload)
  {
  }

  lemma {:induction false} ExtendsIsTransitive(a: CheckpointPayload, b: CheckpointPayload, c: CheckpointPayload)
    requires Extends(a, b) && Extends(b, c)
    ensures Extends(a, c)
  {
  }

  lemma {:induction false} PassedStaysPassed(a: CheckpointPayload, b: CheckpointPayload, sequence: nat)
    requires Extends(a, b) && Passed(a, sequence)
    ensures Passed(b, sequence)
  {
  }

  /** The position a legal write exposes was still open before it, and is closed after it. */
  lemma {:induction false} ExposureClosesPosition(from: Option<CheckpointPayload>, p: Proposal)
    requires LegalShape(from, p) && p.purpose.ToExpose?
    ensures from.Some? ==> !Passed(from.value, p.purpose.permit.activity.sequence)
    ensures p.checkpoint.payload.state.Active?
    ensures Passed(p.checkpoint.payload, p.purpose.permit.activity.sequence)
  {
  }

  // ---------------------------------------------------------------- landing keeps the invariant

  lemma {:induction false} LandingSource(body: Body, s: System, p: Proposal)
    requires Invariant(body, s) && WellFounded(body, s, p) && CanLand(s, p)
    ensures var id := p.executionId;
            var from := if id in s.store.checkpoints then Some(s.store.checkpoints[id].checkpoint.payload) else None;
            && Legal(body, from, p)
            && ObservedOf(s, id) == Recorded(HistoryOf(from))
  {
  }

  lemma {:induction false} OnTrackFromAgreement(body: Body, p: CheckpointPayload, observed: seq<Bytes>)
    requires Agrees(body, p.execution.spec, p.state, observed)
    ensures OnTrack(body, p)
  {
  }

  lemma {:induction false} LandingIsWritten(body: Body, s: System, p: Proposal)
    requires StoredIsWritten(s)
    ensures StoredIsWritten(Land(s, p))
  {
  }

  lemma {:induction false} LandingKeepsWrites(body: Body, s: System, p: Proposal)
    requires Invariant(body, s) && WellFounded(body, s, p) && CanLand(s, p)
    ensures StoredIsWritten(Land(s, p)) && WrittenOnTrack(body, Land(s, p))
  {
    LandingIsWritten(body, s, p);
    LandingSource(body, s, p);
    OnTrackFromAgreement(body, p.checkpoint.payload, ObservedOf(s, p.executionId) + AsSeq(p.observed));
  }

  lemma {:induction false} LandingRefines(body: Body, s: System, p: Proposal)
    requires Invariant(body, s) && WellFounded(body, s, p) && CanLand(s, p)
    ensures Refines(body, Land(s, p))
  {
    LandingSource(body, s, p);
    var s' := Land(s, p);
    forall id | id != p.executionId ensures ObservedOf(s', id) == ObservedOf(s, id) {}
  }

  lemma {:induction false} LandingKeepsTerminal(body: Body, s: System, p: Proposal)
    requires Invariant(body, s) && WellFounded(body, s, p) && CanLand(s, p)
    ensures TerminalStays(Land(s, p))
  {
    LandingSource(body, s, p);
  }

  lemma {:induction false} LandingKeepsProposals(body: Body, s: System, p: Proposal)
    requires Invariant(body, s)
    ensures ProposalsLegal(body, Land(s, p))
  {
    var s' := Land(s, p);
    forall q | WellFounded(body, s, q) ensures WellFounded(body, s', q) {}
  }

  lemma {:induction false} LandingKeepsGrants(body: Body, s: System, p: Proposal)
    requires Invariant(body, s) && WellFounded(body, s, p) && CanLand(s, p)
    ensures GrantsHold(Land(s, p))
  {
    LandingSource(body, s, p);
    var s' := Land(s, p);
    forall i | 0 <= i < |s.grants| ensures GrantHolds(s', s.grants[i]) {
      var g := s.grants[i];
      assert GrantHolds(s, g);
      if g.permit.activity.executionId == p.executionId {
        var from := s.store.checkpoints[p.executionId].checkpoint.payload;
        LegalWritesExtend(from, p);
        PassedStaysPassed(from, p.checkpoint.payload, g.permit.activity.sequence);
      }
    }
  }

  lemma {:induction false} LandingKeepsReports(body: Body, s: System, p: Proposal)
    requires Invariant(body, s)
    ensures ReportsHold(body, Land(s, p))
  {
    var s' := Land(s, p);
    forall i | 0 <= i < |s.reported| ensures ReportHolds(body, s', s.reported[i]) {
      assert ReportHolds(body, s, s.reported[i]);
    }
  }

  lemma {:induction false} LandingKeepsInvariant(body: Body, s: System, p: Proposal)
    requires Invariant(body, s) && WellFounded(body, s, p) && CanLand(s, p)
    ensures Invariant(body, Land(s, p))
  {
    LandingKeepsWrites(body, s, p);
    LandingRefines(body, s, p);
    LandingKeepsTerminal(body, s, p);
    LandingKeepsProposals(body, s, p);
    LandingKeepsGrants(body, s, p);
    LandingKeepsReports(body, s, p);
  }

  // ---------------------------------------------------------------- every event keeps the invariant

  /** Changing which hosts run and which writes are on their way keeps everything but the proposals. */
  lemma {:induction false} BookkeepingKeepsInvariant(body: Body, s: System, s': System)
    requires Invariant(body, s)
    requires s' == s.(hosts := s'.hosts, inflight := s'.inflight)
    requires ProposalsLegal(body, s')
    ensures Invariant(body, s')
  {
    forall i | 0 <= i < |s.grants| ensures GrantHolds(s', s.grants[i]) {
      assert GrantHolds(s, s.grants[i]);
    }
    forall i | 0 <= i < |s.reported| ensures ReportHolds(body, s', s.reported[i]) {
      assert ReportHolds(body, s, s.reported[i]);
    }
  }

  lemma {:induction false} ProposalsSurvive(body: Body, s: System, s': System, added: Option<Proposal>)
    requires ProposalsLegal(body, s) && s'.written == s.written
    requires added.Some? ==> WellFounded(body, s, added.value)
    requires forall p :: p in s'.inflight ==> p in s.inflight || added == Some(p)
    requires forall h :: h in s'.hosts && s'.hosts[h].waiting.Some? ==>
               added == s'.hosts[h].waiting || (h in s.hosts && s'.hosts[h].waiting == s.hosts[h].waiting)
    ensures ProposalsLegal(body, s')
  {
    forall p | WellFounded(body, s, p) ensures WellFounded(body, s', p) {}
  }

  lemma {:induction false} ReportingKeepsInvariant(body: Body, s: System, outcome: HostOutcome)
    requires Invariant(body, s) && ReportHolds(body, s, outcome)
    requires outcome.DispatchPermitted? ==>
               var g := Grant(outcome.permit, outcome.revision);
               GrantHolds(s, g) && forall i :: 0 <= i < |s.grants| ==> !SamePlace(s.grants[i], g)
    ensures Invariant(body, Report(s, outcome))
  {
    var s' := Report(s, outcome);
    ProposalsSurvive(body, s, s', None);
    forall i | 0 <= i < |s'.grants| ensures GrantHolds(s', s'.grants[i]) {
      if i < |s.grants| { assert GrantHolds(s, s.grants[i]); }
    }
    forall i | 0 <= i < |s'.reported| ensures ReportHolds(body, s', s'.reported[i]) {
      if i < |s.reported| { assert ReportHolds(body, s, s.reported[i]); }
    }
  }

  lemma {:induction false} SettlingKeepsInvariant(body: Body, s: System, h: nat, counter: nat, outcome: HostOutcome)
    requires Invariant(body, s) && h in s.hosts && s.hosts[h].waiting.None?
    requires ReportHolds(body, s, outcome) && !outcome.DispatchPermitted?
    ensures Invariant(body, Report(s.(hosts := s.hosts[h := s.hosts[h].(counter := counter)]), outcome))
  {
    var quiet := s.(hosts := s.hosts[h := s.hosts[h].(counter := counter)]);
    ProposalsSurvive(body, s, quiet, None);
    BookkeepingKeepsInvariant(body, s, quiet);
    ReportingKeepsInvariant(body, quiet, outcome);
  }

  lemma {:induction false} ProposingKeepsInvariant(body: Body, s: System, h: nat, config: HostConfig, counter: nat,
                                                   p: Proposal)
    requires Invariant(body, s) && WellFounded(body, s, p)
    ensures Invariant(body, s.(hosts := s.hosts[h := RunningHost(config, counter, Some(p))]))
  {
    var waiting := s.(hosts := s.hosts[h := RunningHost(config, counter, Some(p))]);
    ProposalsSurvive(body, s, waiting, Some(p));
    BookkeepingKeepsInvariant(body, s, waiting);
  }

  /** A sound write computed from what is stored now is founded on what its revision holds. */
  lemma {:induction false} LoadedPlansAreFounded(body: Body, s: System, execution: ExecutionSpec,
                                                 p: Proposal)
    requires Invariant(body, s)
    requires LegalWrite(body, execution, Lookup(s.store, execution.executionId), Propose(p))
    ensures WellFounded(body, s, p)
  {
  }

  lemma {:induction false} BeginKeepsInvariant(body: Body, s: System, h: nat, op: Operation,
                                               loadError: Option<StoreErrorKind>)
    requires Invariant(body, s) && Enabled(s, Begin(h, op, loadError))
    ensures Invariant(body, Step(body, s, Begin(h, op, loadError)))
  {
    if loadError.Some? {
      ReportingKeepsInvariant(body, s, StoreFailed(LoadOperation, loadError.value));
    } else {
      var host, loaded := s.hosts[h], Lookup(s.store, op.execution.executionId);
      EveryPlanIsSound(host.config, body, op, loaded, host.counter);
      var planned := PlanOperation(host.config, body, op, loaded, host.counter);
      match planned.plan
      case Settle(outcome) =>
        SettledReportHolds(body, s, host.config, op, host.counter, outcome);
        SettlingKeepsInvariant(body, s, h, planned.counter, outcome);
      case Propose(p) =>
        LoadedPlansAreFounded(body, s, op.execution, p);
        ProposingKeepsInvariant(body, s, h, host.config, planned.counter, p);
    }
  }

  lemma {:induction false} SettledReportHolds(body: Body, s: System, config: HostConfig, op: Operation,
                                              counter: AttemptCounter, outcome: HostOutcome)
    requires Invariant(body, s)
    requires var loaded := Lookup(s.store, op.execution.executionId);
             && (loaded.Some? ==> OnTrack(body, loaded.value.checkpoint.payload))
             && Honest(config, body, op, loaded, counter, outcome)
    ensures ReportHolds(body, s, outcome) && !outcome.DispatchPermitted?
  {
  }

  /** The write an answered exposure made closes a position no earlier permit was for. */
  lemma {:induction false} GrantIsNew(body: Body, s: System, p: Proposal)
    requires Invariant(body, s) && WellFounded(body, s, p) && CanLand(s, p) && p.purpose.ToExpose?
    ensures var g := Grant(p.purpose.permit, StorageRevision(s.store.revisionCounter + 1));
            && GrantHolds(Land(s, p), g)
            && forall i :: 0 <= i < |s.grants| ==> !SamePlace(s.grants[i], g)
  {
    LandingSource(body, s, p);
    var id := p.executionId;
    var from := if id in s.store.checkpoints then Some(s.store.checkpoints[id].checkpoint.payload) else None;
    ExposureClosesPosition(from, p);
    forall i | 0 <= i < |s.grants|
      ensures !SamePlace(s.grants[i], Grant(p.purpose.permit, StorageRevision(s.store.revisionCounter + 1)))
    {
      assert GrantHolds(s, s.grants[i]);
    }
  }

  /** The host no longer waits; a write that may still land is on its way. */
  function Heard(landed: System, h: nat, late: Option<Proposal>): System
    requires h in landed.hosts
  {
    landed.(hosts := landed.hosts[h := landed.hosts[h].(waiting := None)],
            inflight := if late.Some? then landed.inflight + {late.value} else landed.inflight)
  }

  /** Hearing an answer keeps the invariant of what it left in the store. */
  lemma {:induction false} HearingKeepsInvariant(body: Body, landed: System, h: nat, late: Option<Proposal>)
    requires Invariant(body, landed) && h in landed.hosts
    requires late.Some? ==> WellFounded(body, landed, late.value)
    ensures Invariant(body, Heard(landed, h, late))
  {
    ProposalsSurvive(body, landed, Heard(landed, h, late), late);
    BookkeepingKeepsInvariant(body, landed, Heard(landed, h, late));
  }

  lemma {:induction false} AnswerKeepsInvariant(body: Body, s: System, h: nat, applied: bool, result: CasResult)
    requires Invariant(body, s) && Enabled(s, Answer(h, applied, result))
    ensures Invariant(body, Step(body, s, Answer(h, applied, result)))
  {
    var p := s.hosts[h].waiting.value;
    assert WellFounded(body, s, p);
    var landed := if applied then Land(s, p) else s;
    if applied { LandingKeepsInvariant(body, s, p); }
    var late := if result.OutcomeUnknown? && !applied then Some(p) else None;
    HearingKeepsInvariant(body, landed, h, late);
    var heard := Heard(landed, h, late);
    AnswerReportHolds(body, s, p, applied, result, heard);
    AnswerGrantHolds(body, s, p, applied, result, heard);
    ReportingKeepsInvariant(body, heard, Conclude(p, result));
    assert Step(body, s, Answer(h, applied, result)) == Report(heard, Conclude(p, result));
  }

  lemma {:induction false} AnswerReportHolds(body: Body, s: System, p: Proposal, applied: bool, result: CasResult,
                                             heard: System)
    requires Invariant(body, s) && WellFounded(body, s, p)
    requires (result.Accepted? ==> applied) && (applied ==> CanLand(s, p))
    requires result.Accepted? ==> result.revision == StorageRevision(s.store.revisionCounter + 1)
    requires heard == (if applied then Land(s, p) else s).(hosts := heard.hosts, inflight := heard.inflight)
    ensures ReportHolds(body, heard, Conclude(p, result))
  {
    if result.Accepted? { LandingSource(body, s, p); }
  }

  lemma {:induction false} AnswerGrantHolds(body: Body, s: System, p: Proposal, applied: bool, result: CasResult,
                                            heard: System)
    requires Invariant(body, s) && WellFounded(body, s, p)
    requires (result.Accepted? ==> applied) && (applied ==> CanLand(s, p))
    requires result.Accepted? ==> result.revision == StorageRevision(s.store.revisionCounter + 1)
    requires heard == (if applied then Land(s, p) else s).(hosts := heard.hosts, inflight := heard.inflight)
    ensures var outcome := Conclude(p, result);
            outcome.DispatchPermitted? ==>
              var g := Grant(outcome.permit, outcome.revision);
              GrantHolds(heard, g) && forall i :: 0 <= i < |heard.grants| ==> !SamePlace(heard.grants[i], g)
  {
    if result.Accepted? && p.purpose.ToExpose? { GrantIsNew(body, s, p); }
  }

  lemma {:induction false} LateApplyKeepsInvariant(body: Body, s: System, p: Proposal)
    requires Invariant(body, s) && Enabled(s, LateApply(p))
    ensures Invariant(body, Step(body, s, LateApply(p)))
  {
    LandingKeepsInvariant(body, s, p);
    var landed := Land(s, p);
    var done := landed.(inflight := s.inflight - {p});
    ProposalsSurvive(body, landed, done, None);
    BookkeepingKeepsInvariant(body, landed, done);
  }

  lemma {:induction false} StepKeepsInvariant(body: Body, s: System, e: Event)
    requires Invariant(body, s) && Enabled(s, e)
    ensures Invariant(body, Step(body, s, e))
  {
    match e
    case Boot(h, config) =>
      ProposalsSurvive(body, s, Step(body, s, e), None);
      BookkeepingKeepsInvariant(body, s, Step(body, s, e));
    case Begin(h, op, loadError) => BeginKeepsInvariant(body, s, h, op, loadError);
    case Answer(h, applied, result) => AnswerKeepsInvariant(body, s, h, applied, result);
    case LateApply(p) => LateApplyKeepsInvariant(body, s, p);
    case Crash(h) =>
      ProposalsSurvive(body, s, Step(body, s, e), s.hosts[h].waiting);
      BookkeepingKeepsInvariant(body, s, Step(body, s, e));
  }

  lemma {:induction false} EveryRunKeepsInvariant(body: Body, events: seq<Event>)
    requires Run(body, events).Some?
    ensures Invariant(body, Run(body, events).value)
    decreases |events|
  {
    if events != [] {
      EveryRunKeepsInvariant(body, events[..|events| - 1]);
      StepKeepsInvariant(body, Run(body, events[..|events| - 1]).value, events[|events| - 1]);
    }
  }

  /** In every reachable state an operation that can load does what is due with what is stored: the host answers
      at once, or waits for the one write that is due. */
  lemma {:induction false} EveryRunDoesWhatIsDue(body: Body, events: seq<Event>, h: nat, op: Operation)
    returns (planned: Planned)
    requires Run(body, events).Some? && Enabled(Run(body, events).value, Begin(h, op, None))
    ensures var s := Run(body, events).value;
            var loaded := Lookup(s.store, op.execution.executionId);
            && (loaded.Some? ==> OnTrack(body, loaded.value.checkpoint.payload))
            && Due(s.hosts[h].config, body, op, loaded, s.hosts[h].counter, planned)
    ensures var s := Run(body, events).value;
            var next := Step(body, s, Begin(h, op, None));
            && next.store == s.store
            && match planned.plan
               case Settle(outcome) => next.reported == s.reported + [outcome]
               case Propose(p) => next.hosts[h] == RunningHost(s.hosts[h].config, planned.counter, Some(p))
  {
    EveryRunKeepsInvariant(body, events);
    var s := Run(body, events).value;
    var host, loaded := s.hosts[h], Lookup(s.store, op.execution.executionId);
    EveryPlanIsDue(host.config, body, op, loaded, host.counter);
    planned := PlanOperation(host.config, body, op, loaded, host.counter);
  }

  // ---------------------------------------------------------------- theorems about whole runs

  /** However hosts race, crash and hear nothing back, each stored checkpoint is where one direct
      sequential run stands after exactly the results recorded for that execution: its history is
      that run's calls with those results, and a terminal outcome is that run's own. */
  lemma {:induction false} RunsRefineDirectExecution(body: Body, events: seq<Event>, id: Id16)
    requires Run(body, events).Some? && id in Run(body, events).value.store.checkpoints
    ensures var s := Run(body, events).value;
            var p := s.store.checkpoints[id].checkpoint.payload;
            && p.execution.spec.executionId == id
            && Agrees(body, p.execution.spec, p.state, ObservedOf(s, id))
  {
    EveryRunKeepsInvariant(body, events);
  }

  /** No turn of any host ever finds a mismatching activity or unused history; a workflow that
      never suspends without asking for an activity is never called nondeterministic at all. */
  lemma {:induction false} NoRunReportsNondeterminism(body: Body, events: seq<Event>, outcome: HostOutcome)
    requires Run(body, events).Some? && outcome in Run(body, events).value.reported
    requires outcome.NondeterminismFound?
    ensures outcome.nondeterminism == UnsupportedSuspension && Suspends(body)
  {
    EveryRunKeepsInvariant(body, events);
    var s := Run(body, events).value;
    var i :| 0 <= i < |s.reported| && s.reported[i] == outcome;
    assert ReportHolds(body, s, s.reported[i]);
  }

  /** Every host that reports completion reports the outcome of the direct run. */
  lemma {:induction false} ReportedOutcomeIsTheDirectOne(body: Body, events: seq<Event>, outcome: HostOutcome)
    returns (id: Id16)
    requires Run(body, events).Some? && outcome in Run(body, events).value.reported
    requires outcome.WorkflowCompleted?
    ensures var s := Run(body, events).value;
            && id in s.store.checkpoints
            && var p := s.store.checkpoints[id].checkpoint.payload;
               var run := Direct(body, p.execution.spec, ObservedOf(s, id));
               run.Finished? && run.outcome == outcome.outcome
               && p.state.Terminal? && p.state.outcome == outcome.outcome
               && p.state.completedCount == |ObservedOf(s, id)|
  {
    EveryRunKeepsInvariant(body, events);
    var s := Run(body, events).value;
    var i :| 0 <= i < |s.reported| && s.reported[i] == outcome;
    assert ReportHolds(body, s, s.reported[i]);
    id := s.written[outcome.revision.token].executionId;
  }

  /** Across all hosts and all entry points, at most one permit is ever returned for one position
      of one execution, and it names the final record stored at the returned revision. */
  lemma {:induction false} AtMostOnePermitPerPosition(body: Body, events: seq<Event>, i: nat, j: nat)
    requires Run(body, events).Some? && i < |Run(body, events).value.grants| && j < |Run(body, events).value.grants|
    ensures var s := Run(body, events).value;
            && (i != j ==> !SamePlace(s.grants[i], s.grants[j]))
            && GrantHolds(s, s.grants[i])
  {
    EveryRunKeepsInvariant(body, events);
    var s := Run(body, events).value;
    if i != j { assert !SamePlace(s.grants[Min(i, j)], s.grants[Max(i, j)]); }
  }

  lemma {:induction false} LandingExtends(body: Body, s: System, p: Proposal, id: Id16)
    requires Invariant(body, s) && WellFounded(body, s, p) && CanLand(s, p) && id in s.store.checkpoints
    ensures var s' := Land(s, p);
            && id in s'.store.checkpoints
            && Extends(s.store.checkpoints[id].checkpoint.payload, s'.store.checkpoints[id].checkpoint.payload)
            && ObservedOf(s, id) <= ObservedOf(s', id)
  {
    if p.executionId == id {
      LandingSource(body, s, p);
      LegalWritesExtend(s.store.checkpoints[id].checkpoint.payload, p);
    }
  }

  /** The write an event lets into the store, if it does. */
  function LandedBy(s: System, e: Event): Option<Proposal>
    requires Enabled(s, e)
  {
    match e
    case Answer(h, applied, _) => if applied then s.hosts[h].waiting else None
    case LateApply(p) => Some(p)
    case _ => None
  }

  lemma {:induction false} StepChangesStoreByLanding(body: Body, s: System, e: Event)
    requires Enabled(s, e)
    ensures var landed := if LandedBy(s, e).Some? then Land(s, LandedBy(s, e).value) else s;
            Step(body, s, e).store == landed.store && Step(body, s, e).observed == landed.observed
    ensures LandedBy(s, e).Some? ==> CanLand(s, LandedBy(s, e).value)
  {
  }

  /** A terminal write counts exactly the records of the history it replaces. */
  lemma {:induction false} TerminalCountsReplacedHistory(body: Body, s: System, e: Event, id: Id16)
    requires Invariant(body, s) && Enabled(s, e)
    requires id in Step(body, s, e).store.checkpoints
    requires Step(body, s, e).store.checkpoints[id].checkpoint.payload.state.Terminal?
    ensures var after := Step(body, s, e).store.checkpoints[id].checkpoint.payload.state;
            if id !in s.store.checkpoints then after.completedCount == 0
            else match s.store.checkpoints[id].checkpoint.payload.state
              case Active(history) => after.completedCount == |history|
              case Terminal(_, _) => after == s.store.checkpoints[id].checkpoint.payload.state
  {
    StepChangesStoreByLanding(body, s, e);
    if LandedBy(s, e).Some? && LandedBy(s, e).value.executionId == id {
      assert WellFounded(body, s, LandedBy(s, e).value);
      LandingSource(body, s, LandedBy(s, e).value);
    }
  }

  lemma {:induction false} StepExtends(body: Body, s: System, e: Event, id: Id16)
    requires Invariant(body, s) && Enabled(s, e) && id in s.store.checkpoints
    ensures var s' := Step(body, s, e);
            && id in s'.store.checkpoints
            && Extends(s.store.checkpoints[id].checkpoint.payload, s'.store.checkpoints[id].checkpoint.payload)
            && ObservedOf(s, id) <= ObservedOf(s', id)
  {
    StepChangesStoreByLanding(body, s, e);
    if LandedBy(s, e).Some? {
      assert WellFounded(body, s, LandedBy(s, e).value);
      LandingExtends(body, s, LandedBy(s, e).value, id);
    }
  }

  /** Stored checkpoints only move forward: the contract, earlier specs, attempts and results never
      change, records only advance, and terminal is final. */
  lemma {:induction false} CheckpointsOnlyMoveForward(body: Body, events: seq<Event>, n: nat, id: Id16)
    requires n <= |events| && Run(body, events).Some?
    requires Run(body, events[..n]).Some? && id in Run(body, events[..n]).value.store.checkpoints
    ensures var s, s' := Run(body, events[..n]).value, Run(body, events).value;
            && id in s'.store.checkpoints
            && Extends(s.store.checkpoints[id].checkpoint.payload, s'.store.checkpoints[id].checkpoint.payload)
            && ObservedOf(s, id) <= ObservedOf(s', id)
    decreases |events| - n
  {
    if n == |events| {
      assert events[..n] == events;
    } else {
      var before := events[..|events| - 1];
      assert before[..n] == events[..n];
      CheckpointsOnlyMoveForward(body, before, n, id);
      EveryRunKeepsInvariant(body, before);
      var s, middle := Run(body, events[..n]).value, Run(body, before).value;
      StepExtends(body, middle, events[|events| - 1], id);
      ExtendsIsTransitive(s.store.checkpoints[id].checkpoint.payload,
                          middle.store.checkpoints[id].checkpoint.payload,
                          Run(body, events).value.store.checkpoints[id].checkpoint.payload);
    }
  }

  // ---------------------------------------------------------------- capacity over whole runs

  /** A property of what is written, judged with the limits of the host that writes it. */
  type WriteTest = (CheckpointEnvelope, CheckpointLimits) -> bool

  predicate AllPass(s: System, test: WriteTest)
  {
    && (forall t :: t in s.written ==> test(s.written[t].checkpoint, s.written[t].limits))
    && (forall p :: p in s.inflight ==> test(p.checkpoint, p.limits))
    && (forall h :: h in s.hosts && s.hosts[h].waiting.Some? ==>
          test(s.hosts[h].waiting.value.checkpoint, s.hosts[h].waiting.value.limits))
  }

  /** What every plan of every host passes, everything ever written passes. */
  lemma {:induction false} WritesPass(body: Body, events: seq<Event>, test: WriteTest)
    requires forall config, op, loaded, counter ::
               var plan := PlanOperation(config, body, op, loaded, counter).plan;
               plan.Propose? ==> test(plan.proposal.checkpoint, plan.proposal.limits)
    requires Run(body, events).Some?
    ensures AllPass(Run(body, events).value, test)
    decreases |events|
  {
    if events != [] {
      WritesPass(body, events[..|events| - 1], test);
      var s, e := Run(body, events[..|events| - 1]).value, events[|events| - 1];
      if e.Begin? {
        var host := s.hosts[e.host];
        assert forall op, loaded ::
            var plan := PlanOperation(host.config, body, op, loaded, host.counter).plan;
            plan.Propose? ==> test(plan.proposal.checkpoint, plan.proposal.limits);
      }
    }
  }

  lemma {:induction false} WrittenCheckpointsFit(body: Body, events: seq<Event>, id: Id16)
    requires Run(body, events).Some? && id in Run(body, events).value.store.checkpoints
    ensures var s := Run(body, events).value;
            var c := s.store.checkpoints[id];
            && c.revision.token in s.written && c.checkpoint.formatVersion == FORMAT_VERSION
            && Fits(c.checkpoint.payload, s.written[c.revision.token].limits)
  {
    var test: WriteTest :=
      (c: CheckpointEnvelope, limits: CheckpointLimits) => c.formatVersion == FORMAT_VERSION && Fits(c.payload, limits);
    forall config, op, loaded, counter
      ensures var plan := PlanOperation(config, body, op, loaded, counter).plan;
              plan.Propose? ==> test(plan.proposal.checkpoint, plan.proposal.limits)
    {
      EveryWriteFits(config, body, op, loaded, counter);
    }
    WritesPass(body, events, test);
    EveryRunKeepsInvariant(body, events);
  }

  /** In every run, whatever is stored can be loaded by every host whose limits are no smaller than
      those of the host that wrote it. */
  lemma {:induction false} StoredCheckpointsStayLoadable(body: Body, events: seq<Event>, id: Id16,
                                                         limits: CheckpointLimits)
    requires Run(body, events).Some? && id in Run(body, events).value.store.checkpoints
    requires var s := Run(body, events).value;
             var t := s.store.checkpoints[id].revision.token;
             t in s.written ==> AtLeast(limits, s.written[t].limits)
    ensures var c := Run(body, events).value.store.checkpoints[id].checkpoint;
            DecodeAndValidate(c, c.payload.execution.spec, limits) == Ok(c.payload)
  {
    WrittenCheckpointsFit(body, events, id);
    var s := Run(body, events).value;
    var c := s.store.checkpoints[id];
    FittingStaysLoadable(c.checkpoint.payload, s.written[c.revision.token].limits, limits);
  }

  /** In every run, while an activity is exposed, no host with limits no smaller than the exposing
      host's ever refuses an in-bound result of it, for size or for any other reason. */
  lemma {:induction false} ExposedResultsAreAlwaysRecordable(body: Body, events: seq<Event>, id: Id16,
                                                             config: HostConfig, result: Bytes)
    requires Run(body, events).Some? && id in Run(body, events).value.store.checkpoints
    requires var s := Run(body, events).value;
             var c := s.store.checkpoints[id];
             && IsExposed(c.checkpoint.payload)
             && |result| <= Final(c.checkpoint.payload.state.activities).spec.maxResultBytes
             && (c.revision.token in s.written ==> AtLeast(config.limits, s.written[c.revision.token].limits))
    ensures var c := Run(body, events).value.store.checkpoints[id];
            var activity := Final(c.checkpoint.payload.state.activities).LogicalId(id);
            PlanObserve(config, c.checkpoint.payload.execution.spec, activity, result, Some(c)).Propose?
  {
    WrittenCheckpointsFit(body, events, id);
    EveryRunKeepsInvariant(body, events);
    var s := Run(body, events).value;
    var c := s.store.checkpoints[id];
    ExposedResultFits(config, c, s.written[c.revision.token].limits, result);
  }
}
