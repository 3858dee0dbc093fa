/** The checkpoint entities and the exact JSON text (RFC 8259) they are persisted as. */
module CheckpointJson {
  import opened Basics
  import opened Identity
  import Base64

  datatype TerminalOutcome = Succeeded(payload: Bytes) | Failed(payload: Bytes)

  /** Persisted state of one logical activity. */
  datatype ActivityState =
    | Scheduled
    | DispatchExposed(attempt: AttemptId)
    | Completed(result: Bytes)

  datatype ActivityRecord = ActivityRecord(sequence: U64, spec: ActivitySpec, state: ActivityState)
  {
    function LogicalId(executionId: Id16): LogicalActivityId
    {
      LogicalActivityId(executionId, sequence, spec)
    }
  }

  /** Immutable execution-level authority. */
  datatype ExecutionContract = ExecutionContract(spec: ExecutionSpec, admitted: U64)

  datatype CheckpointState =
    | Active(activities: seq<ActivityRecord>)
    | Terminal(outcome: TerminalOutcome, completedCount: U64)

  datatype CheckpointPayload =
    CheckpointPayload(execution: ExecutionContract, state: CheckpointState)

  // ---------------------------------------------------------------- JSON text

  /** The fixed stretches of the persisted JSON, in the order the fields are declared. */
  datatype Keyword =
    | OpenBracket | Comma | CloseBracket | CloseBrace
    | OpenExecution | WorkflowInputKey | MaxTerminalKey | AdmittedKey | StateKey
    | OpenActive | CloseActive | OpenSucceeded | OpenFailed | CountKey
    | OpenRecord | RecordSpecKey | VersionKey | InputKey | MaxResultKey | RecordStateKey
    | ScheduledStatus | OpenExposed | CounterKey | OpenCompleted | CloseState
    | OpenEnvelope | PayloadKey

  function KeywordText(k: Keyword): string
  {
    match k
    case OpenBracket => "["
    case Comma => ","
    case CloseBracket => "]"
    case CloseBrace => "}"
    case OpenExecution => "{\"execution\":{\"spec\":{\"execution_id\":"
    case WorkflowInputKey => ",\"workflow_input\":"
    case MaxTerminalKey => ",\"max_terminal_payload_bytes\":"
    case AdmittedKey => "},\"admitted_max_encoded_checkpoint_bytes\":"
    case StateKey => "},\"state\":"
    case OpenActive => "{\"lifecycle\":\"active\",\"activities\":["
    case CloseActive => "]}"
    case OpenSucceeded => "{\"lifecycle\":\"terminal\",\"outcome\":{\"status\":\"succeeded\",\"payload\":"
    case OpenFailed => "{\"lifecycle\":\"terminal\",\"outcome\":{\"status\":\"failed\",\"payload\":"
    case CountKey => "},\"completed_activity_count\":"
    case OpenRecord => "{\"sequence\":"
    case RecordSpecKey => ",\"spec\":{\"name\":{\"name\":"
    case VersionKey => ",\"version\":"
    case InputKey => "},\"input\":"
    case MaxResultKey => ",\"max_result_bytes\":"
    case RecordStateKey => "},\"state\":"
    case ScheduledStatus => "{\"status\":\"scheduled\"}"
    case OpenExposed => "{\"status\":\"dispatch_exposed\",\"attempt_id\":{\"host_epoch\":"
    case CounterKey => ",\"counter\":"
    case OpenCompleted => "{\"status\":\"completed\",\"result\":"
    case CloseState => "}}"
    case OpenEnvelope => "{\"format_version\":"
    case PayloadKey => ",\"payload\":"
  }

  /** Persisted JSON is a run of fixed stretches, numbers, texts and exact bytes. */
  datatype Piece = Fixed(keyword: Keyword) | Number(n: nat) | Text(utf8: Bytes) | Exact(bytes: Bytes)

  /** The escapes of section 7 of RFC 8259 that the serializer writes, character by character. */
  function EscapeChar(c: char): string
  {
    if c == '"' || c == '\\' then ['\\', c]
    else if c as int == 8 then "\\b"
    else if c == '\t' then "\\t"
    else if c == '\n' then "\\n"
    else if c as int == 12 then "\\f"
    else if c == '\r' then "\\r"
    else if c < ' ' then "\\u00" + HexByte(c as int)
    else [c]
  }

  function Escape(s: string): string
  {
    if s == [] then [] else EscapeChar(s[0]) + Escape(s[1..])
  }

  function Quoted(s: string): string { "\"" + Escape(s) + "\"" }

  /** Each byte of a UTF-8 text as one character. */
  function Utf8Chars(b: Bytes): (s: string)
    ensures |s| == |b|
  {
    seq(|b|, i requires 0 <= i < |b| => b[i] as char)
  }

  function PieceText(p: Piece): string
  {
    match p
    case Fixed(keyword) => KeywordText(keyword)
    case Number(n) => Dec(n)
    case Text(utf8) => Quoted(Utf8Chars(utf8))
    case Exact(bytes) => Quoted(Base64.Encode(bytes))
  }

  /** The texts of the pieces, one after another. */
  function Join(text: Piece -> string, pieces: seq<Piece>): string
  {
    if pieces == [] then [] else text(pieces[0]) + Join(text, pieces[1..])
  }

  function Print(pieces: seq<Piece>): string { Join(PieceText, pieces) }

  function NumberPieces(s: Bytes): seq<Piece>
  {
    if s == [] then []
    else if |s| == 1 then [Number(s[0])]
    else [Number(s[0]), Fixed(Comma)] + NumberPieces(s[1..])
  }

  function IdPieces(id: Id16): seq<Piece>
  {
    [Fixed(OpenBracket)] + NumberPieces(id) + [Fixed(CloseBracket)]
  }

  function StatePieces(s: ActivityState): seq<Piece>
  {
    match s
    case Scheduled => [Fixed(ScheduledStatus)]
    case DispatchExposed(a) =>
      [Fixed(OpenExposed)] + IdPieces(a.hostEpoch) + [Fixed(CounterKey), Number(a.counter), Fixed(CloseState)]
    case Completed(result) => [Fixed(OpenCompleted), Exact(result), Fixed(CloseBrace)]
  }

  /** A record up to its state. */
  function RecordHead(sequence: U64, spec: ActivitySpec): seq<Piece>
  {
    [Fixed(OpenRecord), Number(sequence), Fixed(RecordSpecKey), Text(spec.name.name), Fixed(VersionKey),
     Number(spec.name.version), Fixed(InputKey), Exact(spec.input), Fixed(MaxResultKey),
     Number(spec.maxResultBytes), Fixed(RecordStateKey)]
  }

  function RecordPieces(r: ActivityRecord): seq<Piece>
  {
    RecordHead(r.sequence, r.spec) + StatePieces(r.state) + [Fixed(CloseBrace)]
  }

  function RecordsPieces(records: seq<ActivityRecord>): seq<Piece>
  {
    if records == [] then []
    else
      (if |records| == 1 then [] else RecordsPieces(records[..|records| - 1]) + [Fixed(Comma)])
      + RecordPieces(records[|records| - 1])
  }

  function ContractPieces(c: ExecutionContract): seq<Piece>
  {
    [Fixed(OpenExecution)] + IdPieces(c.spec.executionId)
    + [Fixed(WorkflowInputKey), Exact(c.spec.workflowInput), Fixed(MaxTerminalKey),
       Number(c.spec.maxTerminalPayloadBytes), Fixed(AdmittedKey), Number(c.admitted), Fixed(StateKey)]
  }

  function LifecyclePieces(s: CheckpointState): seq<Piece>
  {
    match s
    case Active(activities) => [Fixed(OpenActive)] + RecordsPieces(activities) + [Fixed(CloseActive)]
    case Terminal(outcome, count) =>
      [Fixed(if outcome.Succeeded? then OpenSucceeded else OpenFailed), Exact(outcome.payload),
       Fixed(CountKey), Number(count), Fixed(CloseBrace)]
  }

  function PayloadText(p: CheckpointPayload): string
  {
    Print(ContractPieces(p.execution) + LifecyclePieces(p.state) + [Fixed(CloseBrace)])
  }

  function EnvelopeText(version: U32, payload: Bytes): string
  {
    Print([Fixed(OpenEnvelope), Number(version), Fixed(PayloadKey), Exact(payload), Fixed(CloseBrace)])
  }

  // ---------------------------------------------------------------- lengths of the text

  predicate Plain(c: char) { c >= ' ' && c != '"' && c != '\\' }

  lemma {:induction false} NothingToEscape(s: string)
    requires forall i :: 0 <= i < |s| ==> Plain(s[i])
    ensures Escape(s) == s
  {
    if s != [] {
      NothingToEscape(s[1..]);
      assert s == [s[0]] + s[1..];
    }
  }

  lemma {:induction false} Base64IsPlain(b: Bytes)
    ensures forall i :: 0 <= i < |Base64.Encode(b)| ==> Plain(Base64.Encode(b)[i])
  {
    if |b| >= 3 { Base64IsPlain(b[3..]); }
  }

  /** Base64 inside a JSON string costs its own length and two quotes, nothing more. */
  lemma {:induction false} ExactLength(b: Bytes)
    ensures |PieceText(Exact(b))| == |Base64.Encode(b)| + 2
  {
    Base64IsPlain(b);
    NothingToEscape(Base64.Encode(b));
  }

  lemma {:induction false} JoinLength(text: Piece -> string, a: seq<Piece>, b: seq<Piece>)
    ensures |Join(text, a + b)| == |Join(text, a)| + |Join(text, b)|
  {
    if a == [] {
      assert a + b == b;
    } else {
      JoinLength(text, a[1..], b);
      assert (a + b)[1..] == a[1..] + b;
    }
  }

  /** Changing one piece changes the length of the whole by exactly that piece. */
  lemma {:induction false} OnePieceLength(text: Piece -> string, before: seq<Piece>, x: Piece, y: Piece,
                                          after: seq<Piece>)
    ensures |Join(text, before + ([x] + after))| + |text(y)| == |Join(text, before + ([y] + after))| + |text(x)|
  {
    JoinLength(text, before, [x] + after);
    JoinLength(text, before, [y] + after);
    assert ([x] + after)[1..] == after == ([y] + after)[1..];
  }

  /** Completing the final record of a history grows its text by the encoded result alone. */
  lemma {:induction false} CompletedHistoryLength(contract: ExecutionContract, prefix: seq<ActivityRecord>,
                                                  record: ActivityRecord, result: Bytes)
    ensures |PayloadText(CheckpointPayload(contract, Active(prefix + [record.(state := Completed(result))])))|
         == |PayloadText(CheckpointPayload(contract, Active(prefix + [record.(state := Completed([]))])))|
            + |Base64.Encode(result)|
  {
    var before := BeforeResult(contract, prefix, record);
    var after := [Fixed(CloseBrace), Fixed(CloseBrace), Fixed(CloseActive), Fixed(CloseBrace)];
    CompletedPieces(contract, prefix, record, result);
    CompletedPieces(contract, prefix, record, []);
    OnePieceLength(PieceText, before, Exact(result), Exact([]), after);
    ExactLength(result);
    ExactLength([]);
  }

  /** The persisted text up to the result of a completed final record. */
  function BeforeResult(contract: ExecutionContract, prefix: seq<ActivityRecord>, record: ActivityRecord): seq<Piece>
  {
    ContractPieces(contract) + [Fixed(OpenActive)]
    + (if prefix == [] then [] else RecordsPieces(prefix) + [Fixed(Comma)])
    + RecordHead(record.sequence, record.spec) + [Fixed(OpenCompleted)]
  }

  lemma {:induction false} CompletedPieces(contract: ExecutionContract, prefix: seq<ActivityRecord>,
                                           record: ActivityRecord, result: Bytes)
    ensures PayloadText(CheckpointPayload(contract, Active(prefix + [record.(state := Completed(result))])))
         == Print(BeforeResult(contract, prefix, record)
                  + ([Exact(result)] + [Fixed(CloseBrace), Fixed(CloseBrace), Fixed(CloseActive), Fixed(CloseBrace)]))
  {
    var history := prefix + [record.(state := Completed(result))];
    assert history[..|prefix|] == prefix;
    Regroup(ContractPieces(contract), if prefix == [] then [] else RecordsPieces(prefix) + [Fixed(Comma)],
            RecordHead(record.sequence, record.spec), Exact(result));
  }

  lemma {:induction false} Regroup(a: seq<Piece>, b: seq<Piece>, c: seq<Piece>, x: Piece)
    ensures a + ([Fixed(OpenActive)]
                 + (b + (c + [Fixed(OpenCompleted), x, Fixed(CloseBrace)] + [Fixed(CloseBrace)]))
                 + [Fixed(CloseActive)]) + [Fixed(CloseBrace)]
         == a + [Fixed(OpenActive)] + b + c + [Fixed(OpenCompleted)]
            + ([x] + [Fixed(CloseBrace), Fixed(CloseBrace), Fixed(CloseActive), Fixed(CloseBrace)])
  {
  }

  /** A terminal payload is its empty form with a larger count plus the encoded outcome,
      less the digits the real count does not use. */
  lemma {:induction false} TerminalLength(contract: ExecutionContract, outcome: TerminalOutcome, count: U64, limit: U64)
    requires count <= limit
    ensures |PayloadText(CheckpointPayload(contract, Terminal(outcome, count)))| + |Dec(limit)|
         == |PayloadText(CheckpointPayload(contract, Terminal(outcome.(payload := []), limit)))|
            + |Base64.Encode(outcome.payload)| + |Dec(count)|
    ensures |Dec(count)| <= |Dec(limit)|
  {
    var status := Fixed(if outcome.Succeeded? then OpenSucceeded else OpenFailed);
    TerminalPieces(contract, outcome, count);
    TerminalPieces(contract, outcome.(payload := []), limit);
    var before := ContractPieces(contract) + [status];
    OnePieceLength(PieceText, before, Exact(outcome.payload), Exact([]),
                   [Fixed(CountKey)] + ([Number(count)] + [Fixed(CloseBrace), Fixed(CloseBrace)]));
    var middle := before + ([Exact([])] + [Fixed(CountKey)]);
    OnePieceLength(PieceText, middle, Number(count), Number(limit), [Fixed(CloseBrace), Fixed(CloseBrace)]);
    Reassociate(before, Exact([]), Number(count));
    Reassociate(before, Exact([]), Number(limit));
    ExactLength(outcome.payload);
    ExactLength([]);
    DecWidthMonotone(count, limit);
  }

  lemma {:induction false} Reassociate(before: seq<Piece>, x: Piece, count: Piece)
    ensures before + ([x] + ([Fixed(CountKey)] + ([count] + [Fixed(CloseBrace), Fixed(CloseBrace)])))
         == before + ([x] + [Fixed(CountKey)]) + ([count] + [Fixed(CloseBrace), Fixed(CloseBrace)])
  {
  }

  lemma {:induction false} TerminalPieces(contract: ExecutionContract, outcome: TerminalOutcome, count: U64)
    ensures PayloadText(CheckpointPayload(contract, Terminal(outcome, count)))
         == Print(ContractPieces(contract) + [Fixed(if outcome.Succeeded? then OpenSucceeded else OpenFailed)]
                  + ([Exact(outcome.payload)]
                     + ([Fixed(CountKey)] + ([Number(count)] + [Fixed(CloseBrace), Fixed(CloseBrace)]))))
  {
    assert ContractPieces(contract) + LifecyclePieces(Terminal(outcome, count)) + [Fixed(CloseBrace)]
        == ContractPieces(contract) + [Fixed(if outcome.Succeeded? then OpenSucceeded else OpenFailed)]
           + ([Exact(outcome.payload)]
              + ([Fixed(CountKey)] + ([Number(count)] + [Fixed(CloseBrace), Fixed(CloseBrace)])));
  }

  lemma {:induction false} EnvelopeLength(version: U32, payload: Bytes)
    ensures |EnvelopeText(version, payload)| == |EnvelopeText(version, [])| + |Base64.Encode(payload)|
  {
    var before := [Fixed(OpenEnvelope), Number(version), Fixed(PayloadKey)];
    assert before + ([Exact(payload)] + [Fixed(CloseBrace)])
        == [Fixed(OpenEnvelope), Number(version), Fixed(PayloadKey), Exact(payload), Fixed(CloseBrace)];
    assert before + ([Exact([])] + [Fixed(CloseBrace)])
        == [Fixed(OpenEnvelope), Number(version), Fixed(PayloadKey), Exact([]), Fixed(CloseBrace)];
    OnePieceLength(PieceText, before, Exact(payload), Exact([]), [Fixed(CloseBrace)]);
    ExactLength(payload);
    ExactLength([]);
  }
}
