/** Standard padded Base64 (section 4 of RFC 4648), the JSON form of every exact byte string,
    and the length arithmetic that projects it without encoding anything. */
module Base64 {
  import opened Basics

  type Sextet = d: int | 0 <= d < 64

  /** Table 1 of RFC 4648. */
  function Symbol(d: Sextet): (c: char)
    ensures c != PAD && c >= ' ' && c != '"' && c != '\\'
  {
    if d < 26 then ('A' as int + d) as char
    else if d < 52 then ('a' as int + (d - 26)) as char
    else if d < 62 then ('0' as int + (d - 52)) as char
    else if d == 62 then '+'
    else '/'
  }

  const PAD := '='

  function Value(c: char): (r: Option<Sextet>)
    ensures r.Some? ==> Symbol(r.value) == c
  {
    if 'A' <= c <= 'Z' then Some(c as int - 'A' as int)
    else if 'a' <= c <= 'z' then Some(c as int - 'a' as int + 26)
    else if '0' <= c <= '9' then Some(c as int - '0' as int + 52)
    else if c == '+' then Some(62)
    else if c == '/' then Some(63)
    else None
  }

  /** Three bytes as four sextets, and back. */
  function Group(a: Byte, b: Byte, c: Byte): (Sextet, Sextet, Sextet, Sextet)
  {
    (a / 4, a % 4 * 16 + b / 16, b % 16 * 4 + c / 64, c % 64)
  }

  function Ungroup(g: (Sextet, Sextet, Sextet, Sextet)): (Byte, Byte, Byte)
  {
    (g.0 * 4 + g.1 / 16, g.1 % 16 * 16 + g.2 / 4, g.2 % 4 * 64 + g.3)
  }

  lemma {:induction false} UngroupOfGroup(a: Byte, b: Byte, c: Byte)
    ensures Ungroup(Group(a, b, c)) == (a, b, c)
  {
    var (b', b'') := (b / 16, b % 16);
    assert b == 16 * b' + b'' && 0 <= b' < 16 && 0 <= b'' < 16;
    var (c', c'') := (c / 64, c % 64);
    assert c == 64 * c' + c'' && 0 <= c' < 4 && 0 <= c'' < 64;
    var (a', a'') := (a / 4, a % 4);
    assert a == 4 * a' + a'' && 0 <= a'' < 4;
    assert (a'' * 16 + b') / 16 == a'' && (a'' * 16 + b') % 16 == b';
    assert (b'' * 4 + c') / 4 == b'' && (b'' * 4 + c') % 4 == c';
  }

  lemma {:induction false} GroupOfUngroup(g: (Sextet, Sextet, Sextet, Sextet))
    ensures var u := Ungroup(g); Group(u.0, u.1, u.2) == g
  {
    var (m, m') := (g.1 / 16, g.1 % 16);
    assert g.1 == 16 * m + m' && 0 <= m < 4 && 0 <= m' < 16;
    var (n, n') := (g.2 / 4, g.2 % 4);
    assert g.2 == 4 * n + n' && 0 <= n < 16 && 0 <= n' < 4;
    assert (g.0 * 4 + m) / 4 == g.0 && (g.0 * 4 + m) % 4 == m;
    assert (m' * 16 + n) / 16 == m' && (m' * 16 + n) % 16 == n;
    assert (n' * 64 + g.3) / 64 == n' && (n' * 64 + g.3) % 64 == g.3;
  }

  lemma {:induction false} ValueOfSymbol(d: Sextet)
    ensures Value(Symbol(d)) == Some(d)
  {
  }

  function Symbols(g: (Sextet, Sextet, Sextet, Sextet)): (s: string)
    ensures |s| == 4
  {
    [Symbol(g.0), Symbol(g.1), Symbol(g.2), Symbol(g.3)]
  }

  function Encode(b: Bytes): (s: string)
    ensures |s| == 4 * ((|b| + 2) / 3)
  {
    if |b| == 0 then []
    else if |b| == 1 then Symbols(Group(b[0], 0, 0))[..2] + [PAD, PAD]
    else if |b| == 2 then Symbols(Group(b[0], b[1], 0))[..3] + [PAD]
    else Symbols(Group(b[0], b[1], b[2])) + Encode(b[3..])
  }

  /** The sextets behind the first `count` symbols of a quad; the others read as zero. */
  function Quad(s: string, count: nat): (r: Option<(Sextet, Sextet, Sextet, Sextet)>)
    requires |s| >= 4 && 2 <= count <= 4
  {
    var v0, v1 := Value(s[0]), Value(s[1]);
    var v2 := if count > 2 then Value(s[2]) else Some(0);
    var v3 := if count > 3 then Value(s[3]) else Some(0);
    if v0.None? || v1.None? || v2.None? || v3.None? then None
    else Some((v0.value, v1.value, v2.value, v3.value))
  }

  /** Strict decoding: canonical padding only, and no stray bits under the padding. */
  function Decode(s: string): (r: Option<Bytes>)
  {
    if |s| == 0 then Some([])
    else if |s| < 4 then None
    else if |s| == 4 && s[3] == PAD then
      var count := if s[2] == PAD then 2 else 3;
      var quad := Quad(s, count);
      if quad.None? then None
      else
        var u := Ungroup(quad.value);
        if count == 2 then (if u.1 == 0 then Some([u.0]) else None)
        else if u.2 == 0 then Some([u.0, u.1]) else None
    else
      var quad, rest := Quad(s, 4), Decode(s[4..]);
      if quad.None? || rest.None? then None
      else
        var u := Ungroup(quad.value);
        Some([u.0, u.1, u.2] + rest.value)
  }

  lemma {:induction false} QuadOfSymbols(s: string, g: (Sextet, Sextet, Sextet, Sextet), count: nat)
    requires |s| >= 4 && 2 <= count <= 4 && s[..count] == Symbols(g)[..count]
    requires (count <= 2 ==> g.2 == 0) && (count <= 3 ==> g.3 == 0)
    ensures Quad(s, count) == Some(g)
  {
    assert forall i :: 0 <= i < count ==> s[i] == s[..count][i] == Symbols(g)[i];
    ValueOfSymbol(g.0); ValueOfSymbol(g.1); ValueOfSymbol(g.2); ValueOfSymbol(g.3);
  }

  lemma {:induction false} SymbolsOfQuad(s: string, count: nat)
    requires |s| >= 4 && 2 <= count <= 4 && Quad(s, count).Some?
    ensures Symbols(Quad(s, count).value)[..count] == s[..count]
  {
  }

  /** Every byte string survives encoding and decoding. */
  lemma {:induction false} DecodeOfEncode(b: Bytes)
    ensures Decode(Encode(b)) == Some(b)
  {
    if |b| != 0 {
      var b1 := if |b| > 1 then b[1] else 0;
      var b2 := if |b| > 2 then b[2] else 0;
      var g := Group(b[0], b1, b2);
      UngroupOfGroup(b[0], b1, b2);
      if |b| >= 3 {
        DecodeOfEncode(b[3..]);
        assert Encode(b)[4..] == Encode(b[3..]);
        QuadOfSymbols(Encode(b), g, 4);
        assert b == [b[0], b1, b2] + b[3..];
      } else if |b| == 2 {
        QuadOfSymbols(Encode(b), g, 3);
        assert Encode(b)[2] == Symbol(g.2);
        assert b == [b[0], b1];
      } else {
        QuadOfSymbols(Encode(b), g, 2);
        assert Encode(b)[2] == PAD;
        assert b == [b[0]];
      }
    }
  }

  /** Decoding accepts nothing but encodings, so two different texts never carry one value. */
  lemma {:induction false} EncodeOfDecode(s: string)
    requires Decode(s).Some?
    ensures Encode(Decode(s).value) == s
  {
    if |s| == 0 {
    } else if |s| == 4 && s[3] == PAD {
      var count := if s[2] == PAD then 2 else 3;
      GroupOfUngroup(Quad(s, count).value);
      SymbolsOfQuad(s, count);
      assert s == s[..count] + s[count..];
    } else {
      EncodeOfDecode(s[4..]);
      GroupOfUngroup(Quad(s, 4).value);
      SymbolsOfQuad(s, 4);
      assert Decode(s).value[3..] == Decode(s[4..]).value;
      assert s == s[..4] + s[4..];
    }
  }

  /** `base64::encoded_len(n, true)`: four symbols per started group of three bytes,
      or nothing when that count does not fit a 64-bit `usize`. */
  function EncodedLen(n: nat): (r: Option<nat>)
  {
    var complete := n / 3 * 4;
    if complete > U64_MAX then None
    else if n % 3 > 0 then CheckedAdd(complete, 4)
    else Some(complete)
  }

  lemma {:induction false} EncodedLenClosedForm(n: nat)
    ensures var full := 4 * ((n + 2) / 3);
            EncodedLen(n) == if full <= U64_MAX then Some(full) else None
  {
    var q, r := n / 3, n % 3;
    assert n == 3 * q + r;
    assert (n + 2) / 3 == if r > 0 then q + 1 else q;
  }

  /** The projection is the length of the real encoding, or that length overflows. */
  lemma {:induction false} EncodedLenIsExact(b: Bytes)
    ensures |Encode(b)| <= U64_MAX ==> EncodedLen(|b|) == Some(|Encode(b)|)
    ensures |Encode(b)| > U64_MAX ==> EncodedLen(|b|) == None
  {
    EncodedLenClosedForm(|b|);
  }
}
