/** Joining and searching texts: occurrences, the first of them, the piece between two separators, counts. */
module Texts {
  import opened Basics

  predicate At(text: string, part: string, k: nat)
  {
    k + |part| <= |text| && text[k..k + |part|] == part
  }

  predicate Contains(text: string, part: string)
  {
    exists k :: 0 <= k <= |text| && At(text, part, k)
  }

  predicate ContainsAll(text: string, parts: seq<string>)
  {
    forall k :: 0 <= k < |parts| ==> Contains(text, parts[k])
  }

  method SearchAll(text: string, parts: seq<string>) returns (ok: bool)
    ensures ok <==> ContainsAll(text, parts)
  {
    for k := 0 to |parts|
      invariant forall j :: 0 <= j < k ==> Contains(text, parts[j])
    {
      var found := Contains(text, parts[k]);
      if !found { return false; }
    }
    return true;
  }

  /** The first occurrence at or after `k`. */
  function IndexFrom(text: string, part: string, k: nat): (r: Option<nat>)
    requires k <= |text|
    ensures r.Some? ==> k <= r.value && At(text, part, r.value)
    ensures forall j :: k <= j <= (if r.Some? then r.value - 1 else |text|) ==> !At(text, part, j)
    decreases |text| - k
  {
    if At(text, part, k) then Some(k) else if k == |text| then None else IndexFrom(text, part, k + 1)
  }

  /** `split(separator).nth(1)`: what lies between the first separator and the second, if there is one. */
  function SecondPiece(text: string, separator: string): Option<string>
  {
    match IndexFrom(text, separator, 0)
    case None => None
    case Some(k) =>
      var rest := text[k + |separator|..];
      match IndexFrom(rest, separator, 0)
      case None => Some(rest)
      case Some(end) => Some(rest[..end])
  }

  function Joined(texts: seq<string>, separator: char): string
  {
    if texts == [] then ""
    else if |texts| == 1 then texts[0]
    else texts[0] + [separator] + Joined(texts[1..], separator)
  }

  function Count(text: string, c: char): nat
  {
    if text == "" then 0 else (if text[0] == c then 1 else 0) + Count(text[1..], c)
  }

  lemma {:induction false} CountOfSum(a: string, b: string, c: char)
    ensures Count(a + b, c) == Count(a, c) + Count(b, c)
  {
    if a == "" {
      assert a + b == b;
    } else {
      CountOfSum(a[1..], b, c);
      assert (a + b)[1..] == a[1..] + b;
    }
  }

  lemma {:induction false} CountIsZero(text: string, c: char)
    ensures Count(text, c) == 0 <==> c !in text
  {
    if text != "" {
      CountIsZero(text[1..], c);
      assert text == [text[0]] + text[1..];
    }
  }

  /** A part without the character `c` lies on one side of it. */
  lemma {:induction false} OnOneSide(a: string, c: char, b: string, part: string)
    requires c !in part && part != ""
    requires !Contains(a, part) && !Contains(b, part)
    ensures !Contains(a + [c] + b, part)
  {
    var text := a + [c] + b;
    forall k | 0 <= k <= |text| ensures !At(text, part, k) {
      if k + |part| <= |a| {
        assert text[k..k + |part|] == a[k..k + |part|];
        assert !At(a, part, k);
      } else if k > |a| {
        var j := k - |a| - 1;
        if k + |part| <= |text| { assert text[k..k + |part|] == b[j..j + |part|]; }
        assert !At(b, part, j);
      } else if k + |part| <= |text| {
        assert text[k..k + |part|][|a| - k] == c;
      }
    }
  }

  lemma {:induction false} NeedsItsFirst(text: string, part: string)
    requires part != "" && part[0] !in text
    ensures !Contains(text, part)
  {
    forall k | 0 <= k <= |text| ensures !At(text, part, k) {
      if k + |part| <= |text| { assert text[k..k + |part|][0] == text[k]; }
    }
  }

  lemma {:induction false} InContext(a: string, text: string, b: string, part: string)
    requires Contains(text, part)
    ensures Contains(a + text + b, part)
  {
    var k :| 0 <= k <= |text| && At(text, part, k);
    assert (a + text + b)[|a| + k..|a| + k + |part|] == text[k..k + |part|];
    assert At(a + text + b, part, |a| + k);
  }

  /** Behind a character of another kind, a separator is found where it was put, if it is nowhere else. */
  lemma {:induction false} PieceIsTail(front: string, c: char, separator: string, tail: string)
    requires c !in separator && separator != ""
    requires !Contains(front, separator) && !Contains(tail, separator)
    ensures SecondPiece(front + [c] + (separator + tail), separator) == Some(tail)
  {
    var text, at := front + [c] + (separator + tail), |front| + 1;
    assert At(text, separator, at);
    forall k | 0 <= k < at ensures !At(text, separator, k) {
      if k + |separator| <= |front| {
        assert text[k..k + |separator|] == front[k..k + |separator|];
        assert !At(front, separator, k);
      } else {
        assert text[k..k + |separator|][|front| - k] == c;
      }
    }
    assert text[at + |separator|..] == tail;
  }

  // ---------------------------------------------------------------- joined texts

  lemma {:induction false} JoinedContains(texts: seq<string>, separator: char, k: nat)
    requires k < |texts|
    ensures Contains(Joined(texts, separator), texts[k])
  {
    var joined := Joined(texts, separator);
    if k == 0 {
      assert At(joined, texts[0], 0);
    } else {
      JoinedContains(texts[1..], separator, k - 1);
      InContext(texts[0] + [separator], Joined(texts[1..], separator), "", texts[k]);
      assert joined == texts[0] + [separator] + Joined(texts[1..], separator) + "";
    }
  }

  /** What the separator does not occur in lies within one of the joined texts. */
  lemma {:induction false} WithinOneText(texts: seq<string>, separator: char, part: string)
    requires separator !in part && part != ""
    requires forall t :: t in texts ==> !Contains(t, part)
    ensures !Contains(Joined(texts, separator), part)
  {
    if texts == [] {
      NeedsItsFirst("", part);
    } else {
      assert texts[0] in texts;
      if |texts| > 1 {
        WithinOneText(texts[1..], separator, part);
        OnOneSide(texts[0], separator, Joined(texts[1..], separator), part);
      }
    }
  }

  /** The separators counted are those between the texts exactly when no text holds one. */
  lemma {:induction false} SeparatorsAreBetween(texts: seq<string>, separator: char)
    requires texts != []
    ensures Count(Joined(texts, separator), separator) >= |texts| - 1
    ensures Count(Joined(texts, separator), separator) == |texts| - 1
            <==> forall t :: t in texts ==> separator !in t
  {
    CountIsZero(texts[0], separator);
    if |texts| > 1 {
      var rest := Joined(texts[1..], separator);
      SeparatorsAreBetween(texts[1..], separator);
      CountOfSum(texts[0] + [separator], rest, separator);
      CountOfSum(texts[0], [separator], separator);
      assert texts == [texts[0]] + texts[1..];
    }
  }
}
