/** Execution, activity and attempt identities, and the external rendering of a logical activity. */
module Identity {
  import opened Basics

  datatype ActivityName = ActivityName(name: Bytes, version: U32)

  datatype ActivitySpec = ActivitySpec(name: ActivityName, input: Bytes, maxResultBytes: U64)

  /** One dispatch attempt. */
  datatype AttemptId = AttemptId(hostEpoch: Id16, counter: U64)

  datatype LogicalActivityId =
    LogicalActivityId(executionId: Id16, sequence: U64, spec: ActivitySpec)

  datatype ExecutionSpec =
    ExecutionSpec(executionId: Id16, workflowInput: Bytes, maxTerminalPayloadBytes: U64)

  // ---------------------------------------------------------------- rendering

  function HexDigit(d: nat): (c: char)
    requires d < 16
  {
    if d < 10 then ('0' as int + d) as char else ('a' as int + (d - 10)) as char
  }

  function HexByte(b: Byte): (s: string)
    ensures |s| == 2
  {
    [HexDigit(b / 16), HexDigit(b % 16)]
  }

  function Hex(bytes: Bytes): (s: string)
    ensures |s| == 2 * |bytes|
  {
    if bytes == [] then [] else HexByte(bytes[0]) + Hex(bytes[1..])
  }

  const PREFIX := "logical:v2:"

  /** The fields after a given point, each one followed by everything to its right. */
  function Tail1(id: LogicalActivityId): string { ":" + Dec(id.spec.maxResultBytes) }

  function Tail2(id: LogicalActivityId): string
  {
    ":" + Dec(|id.spec.input|) + (":" + (Hex(id.spec.input) + Tail1(id)))
  }

  function Tail3(id: LogicalActivityId): string { ":" + Dec(id.spec.name.version) + Tail2(id) }

  function Tail4(id: LogicalActivityId): string
  {
    ":" + Dec(|id.spec.name.name|) + (":" + (Hex(id.spec.name.name) + Tail3(id)))
  }

  function Rendered(id: LogicalActivityId): string
  {
    PREFIX + (Hex(id.executionId) + (":" + Dec(id.sequence) + Tail4(id)))
  }

  lemma {:induction false} HexSnoc(bytes: Bytes, b: Byte)
    ensures Hex(bytes + [b]) == Hex(bytes) + HexByte(b)
  {
    if bytes == [] {
      assert bytes + [b] == [b];
    } else {
      HexSnoc(bytes[1..], b);
      assert (bytes + [b])[1..] == bytes[1..] + [b];
    }
  }

  /** Appends two lower-case hexadecimal digits a byte. */
  method PushHex(output: string, bytes: Bytes) returns (r: string)
    ensures r == output + Hex(bytes)
  {
    r := output;
    for i := 0 to |bytes|
      invariant r == output + Hex(bytes[..i])
    {
      r := r + HexByte(bytes[i]);
      HexSnoc(bytes[..i], bytes[i]);
      assert bytes[..i + 1] == bytes[..i] + [bytes[i]];
    }
    assert bytes[..|bytes|] == bytes;
  }

  lemma {:induction false} Regroup(a: string, b: string, c: string, d: string)
    ensures a + b + c + d == a + (b + c + d) == a + (b + (c + d))
  {
  }

  method PushField(output: string, n: nat, ghost rest: string) returns (r: string)
    ensures r + rest == output + (":" + Dec(n) + rest)
  {
    r := output + ":" + Dec(n);
    Regroup(output, ":", Dec(n), rest);
  }

  method PushBlock(output: string, bytes: Bytes, ghost rest: string) returns (r: string)
    ensures r + rest == output + (":" + Dec(|bytes|) + (":" + (Hex(bytes) + rest)))
  {
    r := PushField(output, |bytes|, ":" + (Hex(bytes) + rest));
    Regroup(r, ":", Hex(bytes), rest);
    r := PushHex(r + ":", bytes);
  }

  /** Renders every member of the tuple directly: nothing is hashed or normalized. */
  method ToExternalId(id: LogicalActivityId) returns (rendered: string)
    ensures rendered == Rendered(id)
  {
    rendered := PushHex(PREFIX, id.executionId);
    assert rendered + (":" + Dec(id.sequence) + Tail4(id)) == Rendered(id);
    rendered := PushField(rendered, id.sequence, Tail4(id));
    rendered := PushBlock(rendered, id.spec.name.name, Tail3(id));
    rendered := PushField(rendered, id.spec.name.version, Tail2(id));
    rendered := PushBlock(rendered, id.spec.input, Tail1(id));
    assert Tail1(id) == ":" + Dec(id.spec.maxResultBytes) + "";
    rendered := PushField(rendered, id.spec.maxResultBytes, "");
    assert rendered + "" == rendered;
  }

  // ---------------------------------------------------------------- a reader of the rendering

  function HexValue(c: char): (r: Option<nat>)
    ensures r.Some? ==> r.value < 16
  {
    if '0' <= c <= '9' then Some(c as int - '0' as int)
    else if 'a' <= c <= 'f' then Some(c as int - 'a' as int + 10)
    else None
  }

  /** Exactly `count` bytes of hexadecimal text, and what follows them. */
  function TakeHex(s: string, count: nat): (r: Option<(Bytes, string)>)
    ensures r.Some? ==> |r.value.0| == count
    decreases count
  {
    if count == 0 then Some(([], s))
    else if |s| < 2 then None
    else
      var hi, lo, rest := HexValue(s[0]), HexValue(s[1]), TakeHex(s[2..], count - 1);
      if hi.None? || lo.None? || rest.None? then None
      else Some(([hi.value * 16 + lo.value] + rest.value.0, rest.value.1))
  }

  function DigitRun(s: string): (n: nat)
    ensures n <= |s|
    ensures forall i :: 0 <= i < n ==> IsDigit(s[i])
    ensures n < |s| ==> !IsDigit(s[n])
  {
    if s == [] || !IsDigit(s[0]) then 0 else 1 + DigitRun(s[1..])
  }

  /** A colon, a decimal number, and what follows its last digit. */
  function TakeField(s: string): (r: Option<(nat, string)>)
  {
    if s == [] || s[0] != ':' then None
    else
      var n := DigitRun(s[1..]);
      if n == 0 then None else Some((DecValue(s[1..][..n]), s[1..][n..]))
  }

  /** A length, and that many bytes of hexadecimal text. */
  function TakeBlock(s: string): (r: Option<(Bytes, string)>)
  {
    var length := TakeField(s);
    if length.None? || length.value.1 == [] || length.value.1[0] != ':' then None
    else TakeHex(length.value.1[1..], length.value.0)
  }

  /** Everything behind the sequence number. */
  function ParseSpec(s: string): (r: Option<ActivitySpec>)
  {
    var name := TakeBlock(s);
    if name.None? then None else
    var version := TakeField(name.value.1);
    if version.None? || version.value.0 > U32_MAX then None else
    var input := TakeBlock(version.value.1);
    if input.None? then None else
    var bound := TakeField(input.value.1);
    if bound.None? || bound.value.0 > U64_MAX || bound.value.1 != [] then None
    else Some(ActivitySpec(ActivityName(name.value.0, version.value.0), input.value.0, bound.value.0))
  }

  function Parse(s: string): (r: Option<LogicalActivityId>)
  {
    if |s| < |PREFIX| || s[..|PREFIX|] != PREFIX then None else
    var eid := TakeHex(s[|PREFIX|..], 16);
    if eid.None? then None else
    var sequence := TakeField(eid.value.1);
    if sequence.None? || sequence.value.0 > U64_MAX then None else
    var spec := ParseSpec(sequence.value.1);
    if spec.None? then None else Some(LogicalActivityId(eid.value.0, sequence.value.0, spec.value))
  }

  lemma {:induction false} TakeHexOfHex(bytes: Bytes, rest: string)
    ensures TakeHex(Hex(bytes) + rest, |bytes|) == Some((bytes, rest))
  {
    var s := Hex(bytes) + rest;
    if bytes == [] {
      assert s == rest;
    } else {
      TakeHexOfHex(bytes[1..], rest);
      assert s[2..] == Hex(bytes[1..]) + rest;
      assert s[0] == HexDigit(bytes[0] / 16) && s[1] == HexDigit(bytes[0] % 16);
      assert bytes == [bytes[0]] + bytes[1..];
    }
  }

  lemma {:induction false} DigitRunOfDigits(digits: string, rest: string)
    requires forall i :: 0 <= i < |digits| ==> IsDigit(digits[i])
    requires rest == [] || !IsDigit(rest[0])
    ensures DigitRun(digits + rest) == |digits|
  {
    if digits == [] {
      assert digits + rest == rest;
    } else {
      DigitRunOfDigits(digits[1..], rest);
      assert (digits + rest)[1..] == digits[1..] + rest;
    }
  }

  lemma {:induction false} TakeFieldOfDec(n: nat, rest: string)
    requires rest == [] || !IsDigit(rest[0])
    ensures TakeField(":" + Dec(n) + rest) == Some((n, rest))
  {
    var s := ":" + Dec(n) + rest;
    assert s[1..] == Dec(n) + rest;
    DigitRunOfDigits(Dec(n), rest);
    assert s[1..][..|Dec(n)|] == Dec(n) && s[1..][|Dec(n)|..] == rest;
    DecValueOfDec(n);
  }

  lemma {:induction false} TakeBlockOfBytes(bytes: Bytes, rest: string)
    ensures TakeBlock(":" + Dec(|bytes|) + (":" + (Hex(bytes) + rest))) == Some((bytes, rest))
  {
    var after := ":" + (Hex(bytes) + rest);
    TakeFieldOfDec(|bytes|, after);
    assert after[1..] == Hex(bytes) + rest;
    TakeHexOfHex(bytes, rest);
  }

  lemma {:induction false} ParseSpecOfTail(id: LogicalActivityId)
    ensures ParseSpec(Tail4(id)) == Some(id.spec)
  {
    TakeBlockOfBytes(id.spec.name.name, Tail3(id));
    TakeFieldOfDec(id.spec.name.version, Tail2(id));
    TakeBlockOfBytes(id.spec.input, Tail1(id));
    TakeFieldOfDec(id.spec.maxResultBytes, "");
    assert Tail1(id) == ":" + Dec(id.spec.maxResultBytes) + "";
  }

  /** Reading back the rendering gives the whole tuple, for names and inputs of any length. */
  lemma {:induction false} ParseOfRendered(id: LogicalActivityId)
    ensures Parse(Rendered(id)) == Some(id)
  {
    var s := Rendered(id);
    var rest := ":" + Dec(id.sequence) + Tail4(id);
    assert s[|PREFIX|..] == Hex(id.executionId) + rest && s[..|PREFIX|] == PREFIX;
    TakeHexOfHex(id.executionId, rest);
    TakeFieldOfDec(id.sequence, Tail4(id));
    ParseSpecOfTail(id);
  }

  /** Two activities share an external name only when they are the same activity. */
  lemma {:induction false} RenderingIsInjective(a: LogicalActivityId, b: LogicalActivityId)
    requires Rendered(a) == Rendered(b)
    ensures a == b
  {
    ParseOfRendered(a);
    ParseOfRendered(b);
  }
}
