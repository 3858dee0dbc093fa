/** The replay context a workflow body polls its activities through. */
module Workflow {
  import opened Basics
  import opened Identity
  import opened CheckpointJson

  /** What a deterministic workflow does once it has seen the given results of its activities. */
  datatype Command = Call(spec: ActivitySpec) | Finish(outcome: TerminalOutcome) | Suspend

  /** A workflow body: execution id, exact input and results so far determine the next command. */
  type Body = (Id16, Bytes, seq<Bytes>) -> Command

  datatype Nondeterminism =
    | ActivityMismatch(sequence: U64, recorded: ActivitySpec, requested: ActivitySpec)
    | UnusedHistory(consumed: nat, remaining: nat)
    | UnsupportedSuspension

  datatype ContextDecision =
    | Schedule(sequence: U64, spec: ActivitySpec)
    | ExistingPending(position: U64, pendingSpec: ActivitySpec, state: ActivityState)
    | Divergence(error: Nondeterminism)

  datatype Poll = Ready(result: Bytes) | Pending

  /** The record state and cursor a poll leaves behind, and its answer. */
  datatype Polled = Polled(cursor: nat, decision: Option<ContextDecision>, poll: Poll)

  function PollSpec(history: seq<ActivityRecord>, cursor: nat, decision: Option<ContextDecision>,
                    spec: ActivitySpec): Polled
    requires cursor <= |history| <= U64_MAX
  {
    if decision.Some? then Polled(cursor, decision, Pending)
    else if cursor == |history| then Polled(cursor, Some(Schedule(cursor, spec)), Pending)
    else if history[cursor].spec != spec then
      Polled(cursor, Some(Divergence(ActivityMismatch(cursor, history[cursor].spec, spec))), Pending)
    else match history[cursor].state
      case Completed(result) => Polled(cursor + 1, None, Ready(result))
      case state => Polled(cursor, Some(ExistingPending(cursor, spec, state)), Pending)
  }

  class WorkflowContext {
    const executionId: Id16
    const history: seq<ActivityRecord>
    var cursor: nat
    var decision: Option<ContextDecision>

    ghost predicate Valid()
      reads this
    {
      cursor <= |history| <= U64_MAX
    }

    constructor (executionId: Id16, history: seq<ActivityRecord>)
      requires |history| <= U64_MAX
      ensures Valid() && this.executionId == executionId && this.history == history
      ensures cursor == 0 && decision == None
    {
      this.executionId := executionId;
      this.history := history;
      cursor := 0;
      decision := None;
    }

    /** One poll of the next activity; the first decision taken in a turn is final. */
    method PollActivity(spec: ActivitySpec) returns (poll: Poll)
      requires Valid()
      modifies this
      ensures Valid()
      ensures Polled(cursor, decision, poll) == PollSpec(history, old(cursor), old(decision), spec)
    {
      if decision.Some? {
        return Pending;
      }
      if cursor == |history| {
        decision := Some(Schedule(cursor, spec));
        return Pending;
      }
      var record := history[cursor];
      if record.spec != spec {
        decision := Some(Divergence(ActivityMismatch(cursor, record.spec, spec)));
        return Pending;
      }
      match record.state {
        case Completed(result) =>
          cursor := cursor + 1;
          return Ready(result);
        case state =>
          decision := Some(ExistingPending(cursor, spec, state));
          return Pending;
      }
    }
  }
}
