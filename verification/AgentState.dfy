/**
 * What the replica agent records about the action in flight, and how the events of its coordinator change it.
 * The agent sees the coordinator only through the events it accepts.
 */
module AgentState {
  import opened Basics
  import opened Configurations
  import opened Removal
  import opened RemovalProgress
  import RemovalTrace

  datatype ActionState = Scheduled | InProgress | Completed | Failed

  datatype ErrorClass = NotPrimary | NoWriteQuorum | ReconfigurationPending | StaleEpoch | Cancelled | Closed
                      | Internal

  datatype ActionResult = Removed(result: TerminalResult) | Added | DataLoss(changed: bool)

  datatype ActionObservation = ActionObservation(
    generation: string, controlVersion: U64, actionId: string, signature: string, state: ActionState,
    errorClass: Option<ErrorClass>, error: Option<Message>, result: Option<ActionResult>,
    removal: Option<Progress>)

  datatype CoordinatorId = CoordinatorId(generation: string, actionId: string, attemptId: string,
                                         phaseSequence: nat)

  /** The authority a removal coordinator waits for: granted for one phase sequence, or revoked. */
  datatype Authority = NoChannel | Revoked | GrantedFor(phaseSequence: nat)

  datatype Active = Active(executionId: nat, coordinator: Option<CoordinatorId>, authority: Authority,
                           intent: Option<RemoveReplicaIntent>, observation: ActionObservation,
                           replyPending: bool)

  datatype Update =
    | AddProgress
    | AddTerminal(added: Result<(), Message>)
    | RemoveProgress(progress: Progress)
    | RemoveTerminal(removed: Result<TerminalResult, Message>)

  datatype Event = Event(id: CoordinatorId, update: Update)

  predicate Terminal(o: ActionObservation) { o.state.Completed? || o.state.Failed? }

  function CompletedWith(o: ActionObservation, result: Option<ActionResult>): ActionObservation
  {
    o.(state := ActionState.Completed, result := result)
  }

  function FailedWith(o: ActionObservation, errorClass: ErrorClass, error: Message): ActionObservation
  {
    o.(state := ActionState.Failed, errorClass := Some(errorClass), error := Some(Normalized(error)))
  }

  /** What an action is, whatever becomes of it. */
  predicate SameAction(a: ActionObservation, b: ActionObservation)
  {
    && a.generation == b.generation && a.controlVersion == b.controlVersion
    && a.actionId == b.actionId && a.signature == b.signature && a.removal == b.removal
  }

  /** The action ended well: with the result given, or with what it had, and with no error. */
  predicate EndedWell(before: ActionObservation, after: ActionObservation, result: Option<ActionResult>)
  {
    && SameAction(before, after) && after.state.Completed?
    && after.result == (if result.Some? then result else before.result)
    && after.errorClass == before.errorClass && after.error == before.error
  }

  /** The action failed: with this class and this message, cut to the bound. */
  predicate EndedBadly(before: ActionObservation, after: ActionObservation, errorClass: ErrorClass, message: Message)
  {
    && SameAction(before, after) && after.state.Failed? && after.result == before.result
    && after.errorClass == Some(errorClass) && after.error.Some? && Fits(after.error.value)
    && (Fits(message) ==> after.error.value == message)
    && (message.Foreign? && !Fits(message) ==>
          after.error.value.Foreign? && after.error.value.text <= message.text
          && Boundary(message.text, |after.error.value.text|)
          && forall n :: |after.error.value.text| < n <= MAX_ERROR_BYTES ==> !Boundary(message.text, n))
  }

  lemma {:induction false} FailureIsReported(o: ActionObservation, errorClass: ErrorClass, message: Message)
    ensures EndedBadly(o, FailedWith(o, errorClass, message), errorClass, message)
  {
    if !Fits(message) { NormalizedKeepsMost(message.text); }
  }

  // ---------------------------------------------------------------- coordinator events

  predicate SameCoordinator(a: CoordinatorId, b: CoordinatorId)
  {
    a.generation == b.generation && a.actionId == b.actionId && a.attemptId == b.attemptId
  }

  predicate IsProgress(u: Update) { u.AddProgress? || u.RemoveProgress? }

  /** An event is taken from the coordinator in flight, in sequence, and from nothing else. */
  predicate InSequence(active: Option<Active>, e: Event)
  {
    && active.Some? && active.value.coordinator.Some?
    && var current := active.value.coordinator.value;
    && SameCoordinator(current, e.id)
    && e.id.phaseSequence == (if IsProgress(e.update) then Min(current.phaseSequence + 1, U64_MAX)
                              else current.phaseSequence)
  }

  /** The slot and the terminal observation after an event. */
  datatype Reaction = Reaction(active: Option<Active>, terminal: Option<ActionObservation>)

  function OnEvent(active: Option<Active>, e: Event): Reaction
  {
    if !InSequence(active, e) then Reaction(active, None)
    else
      var a := active.value;
      match e.update
      case AddProgress => Reaction(Some(a.(coordinator := Some(e.id))), None)
      case AddTerminal(Ok(_)) => Reaction(None, Some(CompletedWith(a.observation, Some(Added))))
      case AddTerminal(Err(error)) => Reaction(None, Some(FailedWith(a.observation, Internal, error)))
      case RemoveProgress(p) =>
        if a.intent.Some? && ValidFor(a.intent.value, p) then
          Reaction(Some(a.(coordinator := Some(e.id), observation := a.observation.(removal := Some(p)),
                           authority := if a.authority.NoChannel? then NoChannel
                                        else GrantedFor(e.id.phaseSequence))), None)
        else Reaction(None, Some(FailedWith(a.observation, Internal, Own)))
      case RemoveTerminal(Ok(result)) =>
        if a.intent.Some? && a.observation.removal.Some?
           && ValidTerminal(a.intent.value, a.observation.removal.value, result) then
          Reaction(None, Some(CompletedWith(a.observation, Some(Removed(result)))))
        else Reaction(None, Some(FailedWith(a.observation, Internal, Own)))
      case RemoveTerminal(Err(error)) => Reaction(None, Some(FailedWith(a.observation, Internal, error)))
  }

  /** The progress of an accepted update, and the report of one that ends the action. */
  predicate Follows(a: Active, e: Event, r: Reaction)
  {
    match e.update
    case AddProgress =>
      r == Reaction(Some(a.(coordinator := Some(e.id))), None)
    case RemoveProgress(p) =>
      if a.intent.Some? && ValidFor(a.intent.value, p) then
        && r.terminal.None? && r.active.Some? && r.active.value.coordinator == Some(e.id)
        && r.active.value.observation == a.observation.(removal := Some(p))
        && (r.active.value.authority.NoChannel? <==> a.authority.NoChannel?)
        && (!a.authority.NoChannel? ==> r.active.value.authority == GrantedFor(e.id.phaseSequence))
        && r.active.value.executionId == a.executionId && r.active.value.intent == a.intent
      else r.active.None? && r.terminal.Some? && EndedBadly(a.observation, r.terminal.value, Internal, Own)
    case AddTerminal(Ok(_)) =>
      r.active.None? && r.terminal.Some? && EndedWell(a.observation, r.terminal.value, Some(Added))
    case RemoveTerminal(Ok(result)) =>
      && r.active.None? && r.terminal.Some?
      && (if a.intent.Some? && a.observation.removal.Some?
             && ValidTerminal(a.intent.value, a.observation.removal.value, result)
          then EndedWell(a.observation, r.terminal.value, Some(Removed(result)))
          else EndedBadly(a.observation, r.terminal.value, Internal, Own))
    case AddTerminal(Err(error)) =>
      r.active.None? && r.terminal.Some? && EndedBadly(a.observation, r.terminal.value, Internal, error)
    case RemoveTerminal(Err(error)) =>
      r.active.None? && r.terminal.Some? && EndedBadly(a.observation, r.terminal.value, Internal, error)
  }

  /** An event in sequence moves the action on or ends it as its update says; any other changes nothing. */
  lemma {:induction false} EventsAreFollowed(active: Option<Active>, e: Event)
    ensures if InSequence(active, e) then Follows(active.value, e, OnEvent(active, e))
            else OnEvent(active, e) == Reaction(active, None)
  {
    if InSequence(active, e) {
      var o := active.value.observation;
      FailureIsReported(o, Internal, Own);
      match e.update
      case AddTerminal(Err(error)) => FailureIsReported(o, Internal, error);
      case RemoveTerminal(Err(error)) => FailureIsReported(o, Internal, error);
      case _ =>
    }
  }

  /** The events handled one after the other; nothing follows the terminal observation. */
  function Feed(active: Option<Active>, events: seq<Event>): Reaction
    decreases |events|
  {
    if events == [] then Reaction(active, None)
    else
      var first := OnEvent(active, events[0]);
      if first.terminal.Some? then first else Feed(first.active, events[1..])
  }

  // ---------------------------------------------------------------- what a shutdown revokes

  /** At shutdown the authority of the coordinator in flight is taken away; the coordinator is not stopped. */
  function Revoke(active: Option<Active>): Option<Active>
  {
    if active.Some? && !active.value.authority.NoChannel? then Some(active.value.(authority := Revoked)) else active
  }

  /** A removal coordinator publishes no progress of an addition. */
  predicate FromRemoval(id: CoordinatorId, events: seq<Event>)
  {
    forall e :: e in events && SameCoordinator(id, e.id) ==> !e.update.AddProgress?
  }

  /** The progress that follows what the agent has taken from the coordinator. */
  predicate IsNextProgress(id: CoordinatorId, e: Event)
  {
    SameCoordinator(id, e.id) && e.update.RemoveProgress? && e.id.phaseSequence == id.phaseSequence + 1
  }

  lemma {:induction false} GrantStays(a: Active, events: seq<Event>)
    requires a.authority.GrantedFor? && Feed(Some(a), events).terminal.None?
    ensures Feed(Some(a), events).active.Some? && Feed(Some(a), events).active.value.authority.GrantedFor?
    decreases |events|
  {
    if events != [] { GrantStays(OnEvent(Some(a), events[0]).active.value, events[1..]); }
  }

  /**
   * While the action stays in flight, its revoked authority stays revoked exactly if the events still to come
   * do not hold the coordinator's next progress.
   */
  lemma {:induction false} RevocationLasts(a: Active, id: CoordinatorId, events: seq<Event>)
    requires a.coordinator == Some(id) && a.authority.Revoked? && id.phaseSequence < U64_MAX
    requires FromRemoval(id, events) && Feed(Some(a), events).terminal.None?
    ensures Feed(Some(a), events).active.Some?
    ensures Feed(Some(a), events).active.value.authority.Revoked?
            <==> forall e :: e in events ==> !IsNextProgress(id, e)
    decreases |events|
  {
    if events != [] {
      assert events[0] in events && events == [events[0]] + events[1..];
      if InSequence(Some(a), events[0]) {
        GrantStays(OnEvent(Some(a), events[0]).active.value, events[1..]);
        assert IsNextProgress(id, events[0]);
      } else {
        RevocationLasts(a, id, events[1..]);
      }
    }
  }

  function FirstTaken(active: Option<Active>, events: seq<Event>): Option<Event>
  {
    if events == [] then None
    else if InSequence(active, events[0]) then Some(events[0])
    else FirstTaken(active, events[1..])
  }

  predicate IsGranted(r: Reaction) { r.active.Some? && r.active.value.authority.GrantedFor? }

  /**
   * With no assumption on how the events end the action: a revoked authority is granted again at some moment
   * exactly if the first event the agent takes is valid progress.
   */
  lemma {:induction false} RevocationEnds(a: Active, id: CoordinatorId, events: seq<Event>)
    requires a.coordinator == Some(id) && a.authority.Revoked? && FromRemoval(id, events)
    ensures (exists k :: 0 <= k <= |events| && IsGranted(Feed(Some(a), events[..k])))
            <==> var first := FirstTaken(Some(a), events);
                 first.Some? && first.value.update.RemoveProgress? && a.intent.Some?
                 && ValidFor(a.intent.value, first.value.update.progress)
    decreases |events|
  {
    if events != [] {
      assert events[0] in events && events == [events[0]] + events[1..];
      forall k | 1 <= k <= |events|
        ensures Feed(Some(a), events[..k])
                == (var first := OnEvent(Some(a), events[0]);
                    if first.terminal.Some? then first else Feed(first.active, events[1..][..k - 1]))
      {
        assert events[..k][1..] == events[1..][..k - 1];
      }
      if InSequence(Some(a), events[0]) {
        assert events[1..][..0] == [];
        assert Feed(Some(a), events[..1]).active == OnEvent(Some(a), events[0]).active;
      } else {
        RevocationEnds(a, id, events[1..]);
        if k :| 0 <= k <= |events| - 1 && IsGranted(Feed(Some(a), events[1..][..k])) {
          assert IsGranted(Feed(Some(a), events[..k + 1]));
        }
      }
    }
  }

  // ---------------------------------------------------------------- agent and coordinator agree

  /** What a coordinator run sends: its publications, numbered, and how it ended. */
  function Emission(id: CoordinatorId, published: seq<Progress>, end: Result<TerminalResult, Message>): seq<Event>
    decreases |published|
  {
    if published == [] then [Event(id, RemoveTerminal(end))]
    else
      var next := id.(phaseSequence := id.phaseSequence + 1);
      [Event(next, RemoveProgress(published[0]))] + Emission(next, published[1..], end)
  }

  /** The events of one coordinator, out of everything the agent's channel carries. */
  function OwnEvents(id: CoordinatorId, events: seq<Event>): seq<Event>
  {
    if events == [] then []
    else if SameCoordinator(id, events[0].id) then [events[0]] + OwnEvents(id, events[1..])
    else OwnEvents(id, events[1..])
  }

  /** Events of other coordinators, generations, actions or attempts change nothing. */
  lemma {:induction false} ForeignEventsAreIgnored(active: Option<Active>, id: CoordinatorId, events: seq<Event>)
    requires active.Some? && active.value.coordinator.Some? && SameCoordinator(active.value.coordinator.value, id)
    ensures Feed(active, events) == Feed(active, OwnEvents(id, events))
    decreases |events|
  {
    if events != [] {
      var first := OnEvent(active, events[0]);
      if SameCoordinator(id, events[0].id) {
        assert OwnEvents(id, events)[0] == events[0];
        assert OwnEvents(id, events)[1..] == OwnEvents(id, events[1..]);
        if first.terminal.None? {
          ForeignEventsAreIgnored(first.active, id, events[1..]);
        }
      } else {
        ForeignEventsAreIgnored(active, id, events[1..]);
      }
    }
  }

  function LastOf(published: seq<Progress>, before: Option<Progress>): Option<Progress>
  {
    if published == [] then before else Some(published[|published| - 1])
  }

  /** All that is published is taken in, and the end meets the last of it. */
  lemma {:induction false} FeedEmission(a: Active, id: CoordinatorId, published: seq<Progress>,
                                        end: Result<TerminalResult, Message>) returns (last: Active)
    requires a.coordinator == Some(id) && a.intent.Some?
    requires id.phaseSequence + |published| <= U64_MAX
    requires forall p :: p in published ==> ValidFor(a.intent.value, p)
    ensures last.coordinator == Some(id.(phaseSequence := id.phaseSequence + |published|))
    ensures last.intent == a.intent
    ensures last.observation == a.observation.(removal := LastOf(published, a.observation.removal))
    ensures Feed(Some(a), Emission(id, published, end))
            == OnEvent(Some(last), Event(last.coordinator.value, RemoveTerminal(end)))
    decreases |published|
  {
    var events := Emission(id, published, end);
    if published == [] {
      last := a;
      assert OnEvent(Some(a), events[0]).terminal.Some?;
    } else {
      assert published[0] in published;
      var next := id.(phaseSequence := id.phaseSequence + 1);
      var b := OnEvent(Some(a), events[0]).active.value;
      assert events[1..] == Emission(next, published[1..], end);
      last := FeedEmission(b, next, published[1..], end);
    }
  }

  lemma {:induction false} PublicationsAreValid(t: RemovalTrace.Trace, i: RemoveReplicaIntent)
    requires RemovalTrace.Legal(t, i)
    ensures forall p :: p in RemovalTrace.Publications(t) ==> ValidFor(i, p)
    ensures var ps := RemovalTrace.Publications(t);
            RemovalTrace.LastPublished(t) == if ps == [] then None else Some(ps[|ps| - 1])
  {
    if t != [] { PublicationsAreValid(t[..|t| - 1], i); }
  }

  /**
   * A result the coordinator reached is the result the agent reports, whatever else comes in between: the
   * agent's own check, made on the last progress it took, never overrides the coordinator's.
   */
  lemma {:induction false} AgentReportsTheCoordinatorsResult(a: Active, id: CoordinatorId, t: RemovalTrace.Trace,
                                                             result: TerminalResult, events: seq<Event>)
    requires a.coordinator == Some(id) && id.phaseSequence == 0 && a.intent.Some?
    requires RemovalTrace.Legal(t, a.intent.value) && RemovalTrace.Evidence(t, a.intent.value, result)
    requires |RemovalTrace.Publications(t)| <= U64_MAX
    requires OwnEvents(id, events) == Emission(id, RemovalTrace.Publications(t), Ok(result))
    ensures Feed(Some(a), events)
            == Reaction(None, Some(CompletedWith(a.observation.(removal := RemovalTrace.LastPublished(t)),
                                                 Some(Removed(result)))))
  {
    PublicationsAreValid(t, a.intent.value);
    ForeignEventsAreIgnored(Some(a), id, events);
    var last := FeedEmission(a, id, RemovalTrace.Publications(t), Ok(result));
  }

  /** A coordinator that fails is reported as failed, with its own message, on the last progress it published. */
  lemma {:induction false} AgentReportsTheCoordinatorsFailure(a: Active, id: CoordinatorId, t: RemovalTrace.Trace,
                                                              error: Message, events: seq<Event>)
    requires a.coordinator == Some(id) && id.phaseSequence == 0 && a.intent.Some?
    requires RemovalTrace.Legal(t, a.intent.value) && |RemovalTrace.Publications(t)| <= U64_MAX
    requires OwnEvents(id, events) == Emission(id, RemovalTrace.Publications(t), Err(error))
    ensures Feed(Some(a), events).active.None? && Feed(Some(a), events).terminal.Some?
    ensures var last := LastOf(RemovalTrace.Publications(t), a.observation.removal);
            EndedBadly(a.observation.(removal := last), Feed(Some(a), events).terminal.value, Internal, error)
  {
    PublicationsAreValid(t, a.intent.value);
    ForeignEventsAreIgnored(Some(a), id, events);
    var last := FeedEmission(a, id, RemovalTrace.Publications(t), Err(error));
    FailureIsReported(last.observation, Internal, error);
  }
}
