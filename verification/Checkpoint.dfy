/** Checkpoint limits, length projections and validation, and why a reservation is enough. */
module Checkpoint {
  import opened Basics
  import opened Identity
  import opened CheckpointJson
  import Base64

  const FORMAT_VERSION: U32 := 3

  datatype CheckpointLimits = CheckpointLimits(maxActivityRecords: U64, maxEncodedBytes: U64)

  /** The envelope a store keeps: a format version and a payload whose bytes are `PayloadText`. */
  datatype CheckpointEnvelope = CheckpointEnvelope(formatVersion: U32, payload: CheckpointPayload)

  datatype CheckpointError =
    | UnsupportedFormat(actual: U32)
    | ExecutionMismatch(expectedId: Id16, actualId: Id16)
    | WorkflowInputMismatch
    | TerminalPayloadBoundMismatch(expectedBound: U64, actualBound: U64)
    | ActivityRecordLimitExceeded(records: nat, maxRecords: U64)
    | EncodedCheckpointLimitExceeded(encoded: nat, maxEncoded: U64)
    | ConfiguredCapacityBelowAdmission(configured: U64, admitted: U64)
    | AdmittedTerminalCapacityInsufficient(required: nat, available: U64)
    | EncodedLengthOverflow
    | MissingPendingActivity
    | ExpectedActiveCheckpoint
    | CompletedResultExceedsDeclared(sequence: U64)
    | TerminalPayloadExceedsDeclared(size: nat, declared: U64)
    | NonContiguousSequence(found: U64)
    | PendingActivityNotFinal(pending: U64)

  // ---------------------------------------------------------------- encoded lengths

  /** An envelope of `overhead` fixed bytes around the Base64 form of `n` bytes. */
  function WrappedLen(overhead: nat, n: nat): Result<nat, CheckpointError>
  {
    var base64 := Base64.EncodedLen(n);
    if base64.None? then Err(EncodedLengthOverflow)
    else
      var total := CheckedAdd(overhead, base64.value);
      if total.None? then Err(EncodedLengthOverflow) else Ok(total.value)
  }

  /** The same once `maximum` exact bytes are added to a payload of `emptyInner` bytes. */
  function WrappedProjection(overhead: nat, emptyInner: nat, maximum: U64): Result<nat, CheckpointError>
  {
    var base64 := Base64.EncodedLen(maximum);
    if base64.None? then Err(EncodedLengthOverflow)
    else
      var inner := CheckedAdd(emptyInner, base64.value);
      if inner.None? then Err(EncodedLengthOverflow) else WrappedLen(overhead, inner.value)
  }

  /** The length of the persisted envelope, without building it. */
  function EncodedLen(c: CheckpointEnvelope): Result<nat, CheckpointError>
  {
    WrappedLen(|EnvelopeText(c.formatVersion, [])|, |PayloadText(c.payload)|)
  }

  function ProjectedLen(empty: CheckpointPayload, maximum: U64): Result<nat, CheckpointError>
  {
    WrappedProjection(|EnvelopeText(FORMAT_VERSION, [])|, |PayloadText(empty)|, maximum)
  }

  function MaximumTerminalEncodedLen(contract: ExecutionContract): Result<nat, CheckpointError>
  {
    var success := ProjectedLen(CheckpointPayload(contract, Terminal(Succeeded([]), U64_MAX)),
                                contract.spec.maxTerminalPayloadBytes);
    var failure := ProjectedLen(CheckpointPayload(contract, Terminal(Failed([]), U64_MAX)),
                                contract.spec.maxTerminalPayloadBytes);
    if success.Err? then success else if failure.Err? then failure
    else Ok(Max(success.value, failure.value))
  }

  function WithFinalState(activities: seq<ActivityRecord>, state: ActivityState): seq<ActivityRecord>
    requires activities != []
  {
    activities[|activities| - 1 := activities[|activities| - 1].(state := state)]
  }

  function MaximumActivityCompletedEncodedLen(p: CheckpointPayload): (r: Result<nat, CheckpointError>)
    ensures r.Ok? ==> p.state.Active? && p.state.activities != []
  {
    if p.state.Terminal? then Err(ExpectedActiveCheckpoint)
    else if p.state.activities == [] then Err(MissingPendingActivity)
    else
      var record := p.state.activities[|p.state.activities| - 1];
      var empty := p.(state := Active(WithFinalState(p.state.activities, Completed([]))));
      ProjectedLen(empty, record.spec.maxResultBytes)
  }

  // ---------------------------------------------------------------- validation

  /** What is wrong with record `i`, looking at nothing but its position and itself. */
  function RecordError(activities: seq<ActivityRecord>, i: nat): Option<CheckpointError>
    requires i < |activities|
  {
    var record := activities[i];
    if record.sequence != i then Some(NonContiguousSequence(record.sequence))
    else if record.state.Completed? then
      if |record.state.result| > record.spec.maxResultBytes
      then Some(CompletedResultExceedsDeclared(record.sequence)) else None
    else if i + 1 != |activities| then Some(PendingActivityNotFinal(record.sequence))
    else None
  }

  /** The first defect at or after position `i`. */
  function HistoryErrorFrom(activities: seq<ActivityRecord>, i: nat): Option<CheckpointError>
    requires i <= |activities|
    decreases |activities| - i
  {
    if i == |activities| then None
    else if RecordError(activities, i).Some? then RecordError(activities, i)
    else HistoryErrorFrom(activities, i + 1)
  }

  method ValidateActiveHistory(activities: seq<ActivityRecord>) returns (error: Option<CheckpointError>)
    ensures error == HistoryErrorFrom(activities, 0)
  {
    for index := 0 to |activities|
      invariant HistoryErrorFrom(activities, 0) == HistoryErrorFrom(activities, index)
    {
      var record := activities[index];
      if record.sequence != index {
        return Some(NonContiguousSequence(record.sequence));
      }
      if record.state.Completed? {
        if |record.state.result| > record.spec.maxResultBytes {
          return Some(CompletedResultExceedsDeclared(record.sequence));
        }
      } else if index + 1 != |activities| {
        return Some(PendingActivityNotFinal(record.sequence));
      }
    }
    return None;
  }

  /** Contiguous from zero, every record but possibly the last one completed, results in bound. */
  predicate LinearHistory(activities: seq<ActivityRecord>)
  {
    && (forall i :: 0 <= i < |activities| ==> activities[i].sequence == i)
    && (forall i :: 0 <= i < |activities| - 1 ==> activities[i].state.Completed?)
    && (forall i :: 0 <= i < |activities| && activities[i].state.Completed? ==>
          |activities[i].state.result| <= activities[i].spec.maxResultBytes)
  }

  lemma {:induction false} HistoryErrorFromMeaning(activities: seq<ActivityRecord>, i: nat)
    requires i <= |activities|
    ensures HistoryErrorFrom(activities, i).None?
       <==> forall k :: i <= k < |activities| ==> RecordError(activities, k).None?
    decreases |activities| - i
  {
    if i < |activities| { HistoryErrorFromMeaning(activities, i + 1); }
  }

  /** Validation accepts exactly the linear histories. */
  lemma {:induction false} AcceptedHistoriesAreLinear(activities: seq<ActivityRecord>)
    ensures HistoryErrorFrom(activities, 0).None? <==> LinearHistory(activities)
  {
    HistoryErrorFromMeaning(activities, 0);
    if LinearHistory(activities) {
      forall k | 0 <= k < |activities| ensures RecordError(activities, k).None? {}
    }
    if forall k :: 0 <= k < |activities| ==> RecordError(activities, k).None? {
      forall k | 0 <= k < |activities|
        ensures activities[k].sequence == k
        ensures k < |activities| - 1 ==> activities[k].state.Completed?
        ensures activities[k].state.Completed? ==>
                  |activities[k].state.result| <= activities[k].spec.maxResultBytes
      {
        assert RecordError(activities, k).None?;
      }
    }
  }

  function OutcomeError(outcome: TerminalOutcome, maximum: U64): Option<CheckpointError>
  {
    if |outcome.payload| > maximum then Some(TerminalPayloadExceedsDeclared(|outcome.payload|, maximum))
    else None
  }

  function CapacityError(contract: ExecutionContract, limits: CheckpointLimits): Option<CheckpointError>
  {
    if limits.maxEncodedBytes < contract.admitted
    then Some(ConfiguredCapacityBelowAdmission(limits.maxEncodedBytes, contract.admitted))
    else
      var required := MaximumTerminalEncodedLen(contract);
      if required.Err? then Some(required.error)
      else if required.value > contract.admitted
      then Some(AdmittedTerminalCapacityInsufficient(required.value, contract.admitted))
      else None
  }

  function InternalError(p: CheckpointPayload, limits: CheckpointLimits): (r: Option<CheckpointError>)
    ensures r.None? && p.state.Active? ==> |p.state.activities| <= limits.maxActivityRecords
    ensures r.None? && p.state.Active? ==> HistoryErrorFrom(p.state.activities, 0).None?
  {
    var capacity := CapacityError(p.execution, limits);
    if capacity.Some? then capacity
    else match p.state
    case Active(activities) =>
      if |activities| > limits.maxActivityRecords
      then Some(ActivityRecordLimitExceeded(|activities|, limits.maxActivityRecords))
      else HistoryErrorFrom(activities, 0)
    case Terminal(outcome, _) => OutcomeError(outcome, p.execution.spec.maxTerminalPayloadBytes)
  }

  function ContractError(contract: ExecutionContract, expected: ExecutionSpec): Option<CheckpointError>
  {
    if contract.spec.executionId != expected.executionId
    then Some(ExecutionMismatch(expected.executionId, contract.spec.executionId))
    else if contract.spec.workflowInput != expected.workflowInput then Some(WorkflowInputMismatch)
    else if contract.spec.maxTerminalPayloadBytes != expected.maxTerminalPayloadBytes
    then Some(TerminalPayloadBoundMismatch(expected.maxTerminalPayloadBytes,
                                           contract.spec.maxTerminalPayloadBytes))
    else None
  }

  function ValidationError(p: CheckpointPayload, expected: ExecutionSpec,
                           limits: CheckpointLimits): (r: Option<CheckpointError>)
    ensures r.None? ==> InternalError(p, limits).None?
  {
    var mismatch := ContractError(p.execution, expected);
    if mismatch.Some? then mismatch else InternalError(p, limits)
  }

  function SizeError(c: CheckpointEnvelope, limits: CheckpointLimits): Option<CheckpointError>
  {
    var actual := EncodedLen(c);
    if actual.Err? then Some(actual.error)
    else if actual.value > limits.maxEncodedBytes
    then Some(EncodedCheckpointLimitExceeded(actual.value, limits.maxEncodedBytes))
    else None
  }

  function EncodeWithLimits(p: CheckpointPayload, limits: CheckpointLimits):
    (r: Result<CheckpointEnvelope, CheckpointError>)
    ensures r.Ok? ==> r.value == CheckpointEnvelope(FORMAT_VERSION, p)
  {
    var internal := InternalError(p, limits);
    if internal.Some? then Err(internal.value)
    else
      var c := CheckpointEnvelope(FORMAT_VERSION, p);
      var size := SizeError(c, limits);
      if size.Some? then Err(size.value) else Ok(c)
  }

  function DecodeAndValidate(c: CheckpointEnvelope, expected: ExecutionSpec, limits: CheckpointLimits):
    (r: Result<CheckpointPayload, CheckpointError>)
    ensures r.Ok? ==> r.value == c.payload && c.payload.execution.spec == expected
    ensures r.Ok? ==> InternalError(r.value, limits).None?
  {
    if c.formatVersion != FORMAT_VERSION then Err(UnsupportedFormat(c.formatVersion))
    else
      var size := SizeError(c, limits);
      if size.Some? then Err(size.value)
      else
        var invalid := ValidationError(c.payload, expected, limits);
        if invalid.Some? then Err(invalid.value) else Ok(c.payload)
  }

  function IntoTerminal(p: CheckpointPayload, outcome: TerminalOutcome, count: U64):
    (r: Result<CheckpointPayload, CheckpointError>)
  {
    if p.state.Terminal? then Err(ExpectedActiveCheckpoint)
    else
      var oversized := OutcomeError(outcome, p.execution.spec.maxTerminalPayloadBytes);
      if oversized.Some? then Err(oversized.value)
      else Ok(CheckpointPayload(p.execution, Terminal(outcome, count)))
  }

  // ---------------------------------------------------------------- the arithmetic is exact

  lemma {:induction false} WrappedLenClosedForm(overhead: nat, n: nat)
    ensures var full := overhead + 4 * ((n + 2) / 3);
            WrappedLen(overhead, n) == if full <= U64_MAX then Ok(full) else Err(EncodedLengthOverflow)
  {
    Base64.EncodedLenClosedForm(n);
  }

  lemma {:induction false} EnvelopeOfText(version: U32, text: string)
    ensures var actual := |EnvelopeText(version, AsBytes(text))|;
            WrappedLen(|EnvelopeText(version, [])|, |text|)
            == if actual <= U64_MAX then Ok(actual) else Err(EncodedLengthOverflow)
  {
    EnvelopeLength(version, AsBytes(text));
    WrappedLenClosedForm(|EnvelopeText(version, [])|, |text|);
  }

  /** `encoded_len` is the length of the text that would be written, or that length overflows. */
  lemma {:induction false} EncodedLenIsExact(c: CheckpointEnvelope)
    ensures var actual := |EnvelopeText(c.formatVersion, AsBytes(PayloadText(c.payload)))|;
            EncodedLen(c) == if actual <= U64_MAX then Ok(actual) else Err(EncodedLengthOverflow)
  {
    EnvelopeOfText(c.formatVersion, PayloadText(c.payload));
  }

  lemma {:induction false} WrappedProjectionClosedForm(overhead: nat, inner: nat, maximum: U64)
    ensures var full := WrappedLen(overhead, inner + 4 * ((maximum + 2) / 3));
            WrappedProjection(overhead, inner, maximum) == full
  {
    Base64.EncodedLenClosedForm(maximum);
    WrappedLenClosedForm(overhead, inner + 4 * ((maximum + 2) / 3));
  }

  /** A payload no longer than an empty form plus `added` encoded bytes fits the projection. */
  lemma {:induction false} ProjectionCovers(overhead: nat, size: nat, inner: nat, added: nat, maximum: U64)
    requires WrappedProjection(overhead, inner, maximum).Ok?
    requires added <= maximum && size <= inner + 4 * ((added + 2) / 3)
    ensures WrappedLen(overhead, size).Ok?
    ensures WrappedLen(overhead, size).value <= WrappedProjection(overhead, inner, maximum).value
  {
    WrappedProjectionClosedForm(overhead, inner, maximum);
    WrappedLenClosedForm(overhead, inner + 4 * ((maximum + 2) / 3));
    WrappedLenClosedForm(overhead, size);
  }

  lemma {:induction false} TerminalTextBound(contract: ExecutionContract, outcome: TerminalOutcome, count: U64)
    ensures |PayloadText(CheckpointPayload(contract, Terminal(outcome, count)))|
         <= |PayloadText(CheckpointPayload(contract, Terminal(outcome.(payload := []), U64_MAX)))|
            + 4 * ((|outcome.payload| + 2) / 3)
  {
    TerminalLength(contract, outcome, count, U64_MAX);
  }

  /** Every in-bound terminal form, whatever its variant and count, fits the terminal projection. */
  lemma {:induction false} TerminalProjectionCovers(contract: ExecutionContract, outcome: TerminalOutcome, count: U64)
    requires MaximumTerminalEncodedLen(contract).Ok?
    requires |outcome.payload| <= contract.spec.maxTerminalPayloadBytes
    ensures var c := EncodedLen(CheckpointEnvelope(FORMAT_VERSION,
                                                   CheckpointPayload(contract, Terminal(outcome, count))));
            c.Ok? && c.value <= MaximumTerminalEncodedLen(contract).value
  {
    TerminalTextBound(contract, outcome, count);
    var empty := CheckpointPayload(contract, Terminal(outcome.(payload := []), U64_MAX));
    var full := CheckpointPayload(contract, Terminal(outcome, count));
    ProjectionCovers(|EnvelopeText(FORMAT_VERSION, [])|, |PayloadText(full)|, |PayloadText(empty)|,
                     |outcome.payload|, contract.spec.maxTerminalPayloadBytes);
  }

  lemma {:induction false} ProjectionIsExact(overhead: nat, size: nat, inner: nat, maximum: U64)
    requires size == inner + 4 * ((maximum + 2) / 3)
    ensures WrappedLen(overhead, size) == WrappedProjection(overhead, inner, maximum)
  {
    WrappedProjectionClosedForm(overhead, inner, maximum);
  }

  lemma {:induction false} TerminalProjectionOfVariant(contract: ExecutionContract, outcome: TerminalOutcome)
    requires |outcome.payload| == contract.spec.maxTerminalPayloadBytes
    ensures EncodedLen(CheckpointEnvelope(FORMAT_VERSION, CheckpointPayload(contract, Terminal(outcome, U64_MAX))))
         == ProjectedLen(CheckpointPayload(contract, Terminal(outcome.(payload := []), U64_MAX)),
                         contract.spec.maxTerminalPayloadBytes)
  {
    var empty := CheckpointPayload(contract, Terminal(outcome.(payload := []), U64_MAX));
    var full := CheckpointPayload(contract, Terminal(outcome, U64_MAX));
    TerminalLength(contract, outcome, U64_MAX, U64_MAX);
    ProjectionIsExact(|EnvelopeText(FORMAT_VERSION, [])|, |PayloadText(full)|, |PayloadText(empty)|, |outcome.payload|);
  }

  /** The terminal projection is not merely safe: some in-bound outcome reaches it exactly. */
  lemma {:induction false} TerminalProjectionIsReached(contract: ExecutionContract,
                                                       payload: Bytes) returns (outcome: TerminalOutcome)
    requires MaximumTerminalEncodedLen(contract).Ok?
    requires |payload| == contract.spec.maxTerminalPayloadBytes
    ensures outcome == Succeeded(payload) || outcome == Failed(payload)
    ensures EncodedLen(CheckpointEnvelope(FORMAT_VERSION, CheckpointPayload(contract, Terminal(outcome, U64_MAX))))
         == MaximumTerminalEncodedLen(contract)
  {
    TerminalProjectionOfVariant(contract, Succeeded(payload));
    TerminalProjectionOfVariant(contract, Failed(payload));
    var success := ProjectedLen(CheckpointPayload(contract, Terminal(Succeeded([]), U64_MAX)),
                                contract.spec.maxTerminalPayloadBytes);
    outcome := if success == MaximumTerminalEncodedLen(contract) then Succeeded(payload) else Failed(payload);
  }

  lemma {:induction false} FinalStateShape(activities: seq<ActivityRecord>, state: ActivityState)
    requires activities != []
    ensures var n := |activities| - 1;
            WithFinalState(activities, state) == activities[..n] + [activities[n].(state := state)]
  {
  }

  /** Any in-bound result fits the space the activity projection reserves for it. */
  lemma {:induction false} ActivityProjectionCovers(p: CheckpointPayload, result: Bytes)
    requires MaximumActivityCompletedEncodedLen(p).Ok?
    requires |result| <= p.state.activities[|p.state.activities| - 1].spec.maxResultBytes
    ensures var done := p.(state := Active(WithFinalState(p.state.activities, Completed(result))));
            var c := EncodedLen(CheckpointEnvelope(FORMAT_VERSION, done));
            c.Ok? && c.value <= MaximumActivityCompletedEncodedLen(p).value
  {
    var activities := p.state.activities;
    var n := |activities| - 1;
    FinalStateShape(activities, Completed(result));
    FinalStateShape(activities, Completed([]));
    CompletedHistoryLength(p.execution, activities[..n], activities[n], result);
    var empty := p.(state := Active(WithFinalState(activities, Completed([]))));
    var full := p.(state := Active(WithFinalState(activities, Completed(result))));
    ProjectionCovers(|EnvelopeText(FORMAT_VERSION, [])|, |PayloadText(full)|, |PayloadText(empty)|,
                     |result|, activities[n].spec.maxResultBytes);
  }
}
