/**
 * What can be stored, loaded, admitted and exposed, said of the text that would be written and of the records
 * themselves, and why the checkpoint's own checks accept exactly that.
 */
module Sizes {
  import opened Basics
  import opened Identity
  import opened CheckpointJson
  import opened Checkpoint
  import Base64

  /** The length of the text a store would hold for a payload. */
  function TextLen(p: CheckpointPayload): nat
  {
    |EnvelopeText(FORMAT_VERSION, AsBytes(PayloadText(p)))|
  }

  /** Every in-bound outcome, at every count, fits the capacity the execution was admitted with. */
  ghost predicate Roomy(contract: ExecutionContract)
  {
    forall outcome: TerminalOutcome, count: U64 :: |outcome.payload| <= contract.spec.maxTerminalPayloadBytes ==>
      TextLen(CheckpointPayload(contract, Terminal(outcome, count))) <= contract.admitted
  }

  /** The capacity is there, and the state is one the limits allow. */
  ghost predicate Allowed(p: CheckpointPayload, limits: CheckpointLimits)
  {
    && p.execution.admitted <= limits.maxEncodedBytes && Roomy(p.execution)
    && match p.state
       case Active(activities) => |activities| <= limits.maxActivityRecords && LinearHistory(activities)
       case Terminal(outcome, _) => |outcome.payload| <= p.execution.spec.maxTerminalPayloadBytes
  }

  /** The payload is allowed, and its text is within the limit. */
  ghost predicate Storable(p: CheckpointPayload, limits: CheckpointLimits)
  {
    Allowed(p, limits) && TextLen(p) <= limits.maxEncodedBytes
  }

  /** A stored checkpoint that a host with these limits accepts for this execution. */
  ghost predicate Loadable(c: CheckpointEnvelope, execution: ExecutionSpec, limits: CheckpointLimits)
  {
    c.formatVersion == FORMAT_VERSION && c.payload.execution.spec == execution && Storable(c.payload, limits)
  }

  function Completing(p: CheckpointPayload, result: Bytes): CheckpointPayload
    requires p.state.Active? && p.state.activities != []
  {
    p.(state := Active(WithFinalState(p.state.activities, Completed(result))))
  }

  /** Every in-bound result of the final activity would fit the limit. */
  ghost predicate Reservable(p: CheckpointPayload, limits: CheckpointLimits)
    requires p.state.Active? && p.state.activities != []
  {
    forall result: Bytes :: |result| <= p.state.activities[|p.state.activities| - 1].spec.maxResultBytes ==>
      TextLen(Completing(p, result)) <= limits.maxEncodedBytes
  }

  // ---------------------------------------------------------------- the checks accept exactly that

  function OfLength(n: nat): (b: Bytes)
    ensures |b| == n
  {
    seq(n, _ => 0)
  }

  lemma {:induction false} EncodedLenIsTextLen(p: CheckpointPayload)
    ensures EncodedLen(CheckpointEnvelope(FORMAT_VERSION, p))
         == if TextLen(p) <= U64_MAX then Ok(TextLen(p)) else Err(EncodedLengthOverflow)
  {
    EncodedLenIsExact(CheckpointEnvelope(FORMAT_VERSION, p));
  }

  lemma {:induction false} RoomyIsEnough(contract: ExecutionContract)
    requires MaximumTerminalEncodedLen(contract).Ok?
    requires MaximumTerminalEncodedLen(contract).value <= contract.admitted
    ensures Roomy(contract)
  {
    forall outcome: TerminalOutcome, count: U64 | |outcome.payload| <= contract.spec.maxTerminalPayloadBytes
      ensures TextLen(CheckpointPayload(contract, Terminal(outcome, count))) <= contract.admitted
    {
      TerminalProjectionCovers(contract, outcome, count);
      EncodedLenIsTextLen(CheckpointPayload(contract, Terminal(outcome, count)));
    }
  }

  lemma {:induction false} VariantIsProjected(contract: ExecutionContract, outcome: TerminalOutcome)
    requires Roomy(contract) && |outcome.payload| == contract.spec.maxTerminalPayloadBytes
    ensures var projected := ProjectedLen(CheckpointPayload(contract, Terminal(outcome.(payload := []), U64_MAX)),
                                          contract.spec.maxTerminalPayloadBytes);
            projected.Ok? && projected.value <= contract.admitted
  {
    TerminalProjectionOfVariant(contract, outcome);
    EncodedLenIsTextLen(CheckpointPayload(contract, Terminal(outcome, U64_MAX)));
  }

  lemma {:induction false} RoomyIsNeeded(contract: ExecutionContract)
    requires Roomy(contract)
    ensures MaximumTerminalEncodedLen(contract).Ok?
    ensures MaximumTerminalEncodedLen(contract).value <= contract.admitted
  {
    var payload := OfLength(contract.spec.maxTerminalPayloadBytes);
    VariantIsProjected(contract, Succeeded(payload));
    VariantIsProjected(contract, Failed(payload));
  }

  lemma {:induction false} AllowedIsValid(p: CheckpointPayload, limits: CheckpointLimits)
    ensures InternalError(p, limits).None? <==> Allowed(p, limits)
  {
    if Roomy(p.execution) { RoomyIsNeeded(p.execution); }
    if CapacityError(p.execution, limits).None? { RoomyIsEnough(p.execution); }
    if p.state.Active? { AcceptedHistoriesAreLinear(p.state.activities); }
  }

  /** Encoding succeeds exactly on what can be stored. */
  lemma {:induction false} StorableIsEncoded(p: CheckpointPayload, limits: CheckpointLimits)
    ensures EncodeWithLimits(p, limits).Ok? <==> Storable(p, limits)
  {
    AllowedIsValid(p, limits);
    EncodedLenIsTextLen(p);
  }

  /** Decoding succeeds exactly on what can be loaded, and gives back what was stored. */
  lemma {:induction false} LoadableIsDecoded(c: CheckpointEnvelope, execution: ExecutionSpec, limits: CheckpointLimits)
    ensures DecodeAndValidate(c, execution, limits).Ok? <==> Loadable(c, execution, limits)
  {
    AllowedIsValid(c.payload, limits);
    if c.formatVersion == FORMAT_VERSION {
      assert c == CheckpointEnvelope(FORMAT_VERSION, c.payload);
      EncodedLenIsTextLen(c.payload);
    }
  }

  lemma {:induction false} ActivityProjectionIsReached(p: CheckpointPayload, result: Bytes)
    requires p.state.Active? && p.state.activities != []
    requires |result| == p.state.activities[|p.state.activities| - 1].spec.maxResultBytes
    ensures EncodedLen(CheckpointEnvelope(FORMAT_VERSION, Completing(p, result)))
         == MaximumActivityCompletedEncodedLen(p)
  {
    var activities := p.state.activities;
    var n := |activities| - 1;
    FinalStateShape(activities, Completed(result));
    FinalStateShape(activities, Completed([]));
    CompletedHistoryLength(p.execution, activities[..n], activities[n], result);
    ProjectionIsExact(|EnvelopeText(FORMAT_VERSION, [])|, |PayloadText(Completing(p, result))|,
                      |PayloadText(Completing(p, []))|, |result|);
  }

  /** The reservation made at exposure succeeds exactly if every in-bound result will fit. */
  lemma {:induction false} ReservableIsReserved(p: CheckpointPayload, limits: CheckpointLimits)
    requires p.state.Active? && p.state.activities != []
    ensures MaximumActivityCompletedEncodedLen(p).Ok?
            && MaximumActivityCompletedEncodedLen(p).value <= limits.maxEncodedBytes
            <==> Reservable(p, limits)
  {
    var most := OfLength(p.state.activities[|p.state.activities| - 1].spec.maxResultBytes);
    ActivityProjectionIsReached(p, most);
    EncodedLenIsTextLen(Completing(p, most));
    if MaximumActivityCompletedEncodedLen(p).Ok?
       && MaximumActivityCompletedEncodedLen(p).value <= limits.maxEncodedBytes {
      forall result: Bytes | |result| <= p.state.activities[|p.state.activities| - 1].spec.maxResultBytes
        ensures TextLen(Completing(p, result)) <= limits.maxEncodedBytes
      {
        ActivityProjectionCovers(p, result);
        EncodedLenIsTextLen(Completing(p, result));
      }
    }
  }
}
