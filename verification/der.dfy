/**
 * ECDSA signatures: from the DER SEQUENCE of two INTEGERs to the two mpints of the SSH wire format
 * (X.690 sections 8.1.3 and 8.3, RFC 5656 section 3.1.2, RFC 4251 section 5).
 */
module Der {
  import opened Common
  import opened State
  import opened Wire

  // ----- numbers as big-endian bytes

  function Value(bytes: Bytes): nat {
    if bytes == [] then 0 else Value(bytes[..|bytes| - 1]) * 0x100 + bytes[|bytes| - 1] as nat
  }

  /** The shortest big-endian bytes of a number; none for zero. */
  function Digits(n: nat): Bytes {
    if n == 0 then [] else Digits(n / 0x100) + [(n % 0x100) as byte]
  }

  /** The body of the mpint of a number: a zero byte in front of a first byte with the top bit set. */
  function MpintBody(n: nat): Bytes {
    var digits := Digits(n);
    if digits != [] && digits[0] >= 0x80 then [0] + digits else digits
  }

  function Mpint(n: nat): Bytes {
    Str(MpintBody(n))
  }

  /** The form RFC 4251 asks for: not negative, and no byte that could be left away. */
  predicate Canonical(body: Bytes) {
    body != [] ==> body[0] < 0x80 && (body[0] == 0 ==> |body| > 1 && body[1] >= 0x80)
  }

  lemma {:induction false} ValueOfDigits(n: nat)
    ensures Value(Digits(n)) == n
    ensures Digits(n) != [] ==> Digits(n)[0] != 0
  {
    if n != 0 {
      ValueOfDigits(n / 0x100);
      var high := Digits(n / 0x100);
      assert (high + [(n % 0x100) as byte])[..|high|] == high;
    }
  }

  lemma {:induction false} DigitsOfValue(bytes: Bytes)
    requires bytes != [] ==> bytes[0] != 0
    ensures Digits(Value(bytes)) == bytes
    decreases |bytes|
  {
    if bytes != [] {
      var n := |bytes| - 1;
      DigitsOfValue(bytes[..n]);
      SplitByte(Value(bytes[..n]), bytes[n] as nat);
      if n > 0 { NonZero(bytes[..n]); }
      assert bytes == bytes[..n] + [bytes[n]];
    }
  }

  lemma {:induction false} NonZero(bytes: Bytes)
    requires bytes != [] && bytes[0] != 0
    ensures Value(bytes) > 0
    decreases |bytes|
  {
    if |bytes| > 1 { NonZero(bytes[..|bytes| - 1]); }
  }

  lemma {:induction false} LeadingZero(bytes: Bytes)
    ensures Value([0] + bytes) == Value(bytes)
    decreases |bytes|
  {
    if bytes != [] {
      LeadingZero(bytes[..|bytes| - 1]);
      assert ([0] + bytes)[..|bytes|] == [0] + bytes[..|bytes| - 1];
    }
  }

  lemma DropZero(bytes: Bytes, at: nat)
    requires at < |bytes| && bytes[at] == 0
    ensures Value(bytes[at..]) == Value(bytes[at + 1..])
  {
    assert bytes[at..] == [0] + bytes[at + 1..];
    LeadingZero(bytes[at + 1..]);
  }

  /** The mpint body of a number is the one canonical body with its value. */
  lemma MpintCanonical(n: nat, body: Bytes)
    ensures body == MpintBody(n) <==> Canonical(body) && Value(body) == n
  {
    var digits := Digits(n);
    ValueOfDigits(n);
    LeadingZero(digits);
    if Canonical(body) && Value(body) == n {
      if body != [] && body[0] == 0 {
        assert body == [0] + body[1..];
        LeadingZero(body[1..]);
        DigitsOfValue(body[1..]);
      } else {
        DigitsOfValue(body);
      }
    }
  }

  /** The lengths on the wire are big-endian too. */
  lemma LengthsBigEndian(b: Bytes)
    requires |b| == 4
    ensures FromU32(b) == Value(b)
  {
    assert b[..3][..2] == b[..2] && b[..2][..1] == b[..1] && b[..1][..0] == [];
    assert Value(b[..1]) == b[0] as nat;
    assert Value(b[..2]) == b[0] as nat * 0x100 + b[1] as nat;
  }

  /** `put_mpint`: drops leading zeros, then appends length, sign byte and digits. */
  method PutMpint(target: Bytes, value: Bytes) returns (result: Bytes)
    ensures result == target + Mpint(Value(value))
  {
    hide U32, Value, Digits;
    var first := 0;
    while first < |value| && value[first] == 0
      invariant first <= |value|
      invariant Value(value[first..]) == Value(value)
    {
      DropZero(value, first);
      first := first + 1;
    }
    var digits := value[first..];
    DigitsOfValue(digits);
    var needsZero := digits != [] && digits[0] >= 0x80;
    result := target + U32(|digits| + if needsZero then 1 else 0);
    if needsZero {
      result := result + [0];
    }
    result := result + digits;
  }

  // ----- reading DER

  function Tag(data: Bytes, at: nat, expected: byte): Option<nat> {
    if at < |data| && data[at] == expected then Some(at + 1) else None
  }

  /** A length and the position behind it: one byte below 128, or one or two bytes behind 0x81 or 0x82. */
  function Length(data: Bytes, at: nat): (r: Option<(nat, nat)>)
    ensures r.Some? ==> at < r.value.1 <= |data|
  {
    if at >= |data| then None
    else if data[at] < 0x80 then Some((data[at] as nat, at + 1))
    else
      var count := data[at] as nat - 0x80;
      if count == 0 || count > 2 || at + 1 + count > |data| then None
      else Some((Value(data[at + 1..at + 1 + count]), at + 1 + count))
  }

  /** The body of an INTEGER and the position behind it. */
  function Integer(data: Bytes, at: nat): (r: Option<(Bytes, nat)>)
    ensures r.Some? ==> at < r.value.1 <= |data|
  {
    var start := Tag(data, at, 0x02);
    if start.None? then None
    else
      var length := Length(data, start.value);
      if length.None? then None
      else
        var (n, body) := length.value;
        if body + n > |data| then None else Some((data[body..body + n], body + n))
  }

  /** The bodies of r and s. Nothing looks at what follows s inside the SEQUENCE. */
  function Parse(der: Bytes): Option<(Bytes, Bytes)> {
    var start := Tag(der, 0, 0x30);
    if start.None? then None
    else
      var length := Length(der, start.value);
      if length.None? then None
      else if length.value.1 + length.value.0 != |der| then None
      else
        var r := Integer(der, length.value.1);
        if r.None? then None
        else
          var s := Integer(der, r.value.1);
          if s.None? then None else Some((r.value.0, s.value.0))
  }

  /** `der_ecdsa_to_ssh`. */
  function Convert(der: Bytes): Option<Bytes> {
    var parsed := Parse(der);
    if parsed.None? then None
    else Some(Mpint(Value(parsed.value.0)) + Mpint(Value(parsed.value.1)))
  }

  method ExpectTag(data: Bytes, at: nat, expected: byte) returns (next: Option<nat>)
    ensures next == Tag(data, at, expected)
  {
    if at >= |data| || data[at] != expected { return None; }
    return Some(at + 1);
  }

  method ReadLength(data: Bytes, at: nat) returns (r: Option<(nat, nat)>)
    ensures r == Length(data, at)
  {
    if at >= |data| { return None; }
    var first := data[at];
    if first < 0x80 { return Some((first as nat, at + 1)); }
    var count := first as nat - 0x80;
    if count == 0 || count > 2 || at + 1 + count > |data| { return None; }
    var bytes := data[at + 1..at + 1 + count];
    var length, i := 0, 0;
    while i < count
      invariant 0 <= i <= count
      invariant length == Value(bytes[..i])
    {
      assert bytes[..i + 1][..i] == bytes[..i];
      length := length * 0x100 + bytes[i] as nat;
      i := i + 1;
    }
    assert bytes[..count] == bytes;
    return Some((length, at + 1 + count));
  }

  method ReadInteger(data: Bytes, at: nat) returns (r: Option<(Bytes, nat)>)
    ensures r == Integer(data, at)
  {
    hide Length;
    var start := ExpectTag(data, at, 0x02);
    if start.None? { return None; }
    var length := ReadLength(data, start.value);
    if length.None? { return None; }
    var (n, body) := length.value;
    if body + n > |data| { return None; }
    return Some((data[body..body + n], body + n));
  }

  method DerEcdsaToSsh(der: Bytes) returns (r: Option<Bytes>)
    ensures r == Convert(der)
  {
    hide Length, Integer, Mpint;
    var start := ExpectTag(der, 0, 0x30);
    if start.None? { return None; }
    var length := ReadLength(der, start.value);
    if length.None? { return None; }
    if length.value.1 + length.value.0 != |der| { return None; }
    var first := ReadInteger(der, length.value.1);
    if first.None? { return None; }
    var second := ReadInteger(der, first.value.1);
    if second.None? { return None; }
    var result := PutMpint([], first.value.0);
    assert result == Mpint(Value(first.value.0));
    result := PutMpint(result, second.value.0);
    return Some(result);
  }

  // ----- exactly which inputs are accepted

  /** The length forms the reader takes; the longer ones also for small lengths. */
  predicate IsLength(bytes: Bytes, n: nat) {
    || (|bytes| == 1 && bytes[0] < 0x80 && n == bytes[0] as nat)
    || (|bytes| == 2 && bytes[0] == 0x81 && n == bytes[1] as nat)
    || (|bytes| == 3 && bytes[0] == 0x82 && n == bytes[1] as nat * 0x100 + bytes[2] as nat)
  }

  /** A tag, a length and a body. */
  function Element(tag: byte, length: Bytes, body: Bytes): Bytes {
    [tag] + length + body
  }

  lemma ValueTwo(a: byte, b: byte)
    ensures Value([a]) == a as nat
    ensures Value([a, b]) == a as nat * 0x100 + b as nat
  {
    assert [a, b][..1] == [a];
    assert [a][..0] == [];
  }

  lemma LengthAt(data: Bytes, at: nat, length: Bytes, n: nat, after: Bytes)
    requires at <= |data| && data[at..] == length + after && IsLength(length, n)
    ensures Length(data, at) == Some((n, at + |length|))
    ensures at + |length| <= |data| && data[at + |length|..] == after
  {
    assert forall i | 0 <= i < |length| :: data[at + i] == data[at..][i];
    if |length| == 2 {
      assert data[at + 1..at + 2] == [length[1]];
      ValueTwo(length[1], 0);
    } else if |length| == 3 {
      assert data[at + 1..at + 3] == [length[1], length[2]];
      ValueTwo(length[1], length[2]);
    }
    assert data[at..][|length|..] == after;
  }

  lemma LengthRead(data: Bytes, at: nat)
    requires Length(data, at).Some?
    ensures var (n, next) := Length(data, at).value;
            IsLength(data[at..next], n) && data[at..] == data[at..next] + data[next..]
  {
    var (n, next) := Length(data, at).value;
    if next == at + 2 {
      assert data[at + 1..at + 2] == [data[at + 1]];
      ValueTwo(data[at + 1], 0);
    } else if next == at + 3 {
      assert data[at + 1..at + 3] == [data[at + 1], data[at + 2]];
      ValueTwo(data[at + 1], data[at + 2]);
    }
  }

  lemma IntegerAt(data: Bytes, at: nat, length: Bytes, body: Bytes, after: Bytes)
    requires at <= |data| && data[at..] == Element(0x02, length, body) + after && IsLength(length, |body|)
    ensures var next := at + 1 + |length| + |body|;
            next <= |data| && Integer(data, at) == Some((body, next)) && data[next..] == after
  {
    assert data[at..][1..] == length + (body + after);
    LengthAt(data, at + 1, length, |body|, body + after);
    hide Length, IsLength;
    assert data[at] == data[at..][0];
    var start := at + 1 + |length|;
    assert data[start..start + |body|] == data[start..][..|body|] == body;
    assert data[start..][|body|..] == after;
  }

  /** The bytes of the length of an INTEGER. */
  function IntegerLength(data: Bytes, at: nat): Bytes
    requires Integer(data, at).Some?
  {
    data[at + 1..Length(data, at + 1).value.1]
  }

  lemma IntegerRead(data: Bytes, at: nat)
    requires Integer(data, at).Some?
    ensures var (body, next) := Integer(data, at).value;
            && IsLength(IntegerLength(data, at), |body|)
            && data[at..] == Element(0x02, IntegerLength(data, at), body) + data[next..]
  {
    hide IsLength;
    LengthRead(data, at + 1);
    hide Length;
    var start := Length(data, at + 1).value.1;
    var (body, next) := Integer(data, at).value;
    assert data[at + 1..] == data[at + 1..start] + data[start..];
    assert data[start..] == body + data[next..];
    assert data[at..] == [data[at]] + data[at + 1..];
  }

  /** A SEQUENCE that spans the whole input and begins with two INTEGERs of these bodies. */
  predicate Shaped(der: Bytes, outer: Bytes, rLength: Bytes, r: Bytes, sLength: Bytes, s: Bytes, extra: Bytes) {
    var body := Element(0x02, rLength, r) + (Element(0x02, sLength, s) + extra);
    && der == Element(0x30, outer, body)
    && IsLength(outer, |body|) && IsLength(rLength, |r|) && IsLength(sLength, |s|)
  }

  lemma ShapedParses(der: Bytes, outer: Bytes, rLength: Bytes, r: Bytes, sLength: Bytes, s: Bytes, extra: Bytes)
    requires Shaped(der, outer, rLength, r, sLength, s, extra)
    ensures Parse(der) == Some((r, s))
  {
    hide IsLength, Length, Integer, Element;
    var second := Element(0x02, sLength, s) + extra;
    var body := Element(0x02, rLength, r) + second;
    ElementParts(0x30, outer, body);
    LengthAt(der, 1, outer, |body|, body);
    IntegerAt(der, 1 + |outer|, rLength, r, second);
    IntegerAt(der, 1 + |outer| + 1 + |rLength| + |r|, sLength, s, extra);
  }

  lemma ElementParts(tag: byte, length: Bytes, body: Bytes)
    ensures var e := Element(tag, length, body);
            |e| == 1 + |length| + |body| && e[0] == tag && e[1..] == length + body
  {
  }

  lemma ParsedShape(der: Bytes) returns (outer: Bytes, rLength: Bytes, sLength: Bytes, extra: Bytes)
    requires Parse(der).Some?
    ensures Shaped(der, outer, rLength, Parse(der).value.0, sLength, Parse(der).value.1, extra)
  {
    LengthRead(der, 1);
    hide IsLength, Length, Integer, IntegerLength, Element, Value;
    var (n, start) := Length(der, 1).value;
    IntegerRead(der, start);
    var (r, middle) := Integer(der, start).value;
    IntegerRead(der, middle);
    var (s, end) := Integer(der, middle).value;
    ElementWhole(der, start);
    outer, rLength, sLength, extra := der[1..start], IntegerLength(der, start), IntegerLength(der, middle), der[end..];
    assert |der[start..]| == n;
  }

  lemma ElementWhole(data: Bytes, start: nat)
    requires 1 <= start <= |data|
    ensures data == Element(data[0], data[1..start], data[start..])
  {
  }

  /**
   * The converter accepts exactly the inputs that are one SEQUENCE beginning with two INTEGERs, and answers
   * with the canonical mpints of their unsigned values, r first.
   */
  lemma ConvertExactly(der: Bytes, output: Bytes)
    ensures Convert(der) == Some(output)
       <==> exists outer, rLength, r, sLength, s, extra ::
              Shaped(der, outer, rLength, r, sLength, s, extra) && output == Mpint(Value(r)) + Mpint(Value(s))
  {
    hide Parse, Shaped, Mpint, Value;
    if Convert(der) == Some(output) {
      var outer, rLength, sLength, extra := ParsedShape(der);
    }
    if outer, rLength, r, sLength, s, extra :|
      Shaped(der, outer, rLength, r, sLength, s, extra) && output == Mpint(Value(r)) + Mpint(Value(s)) {
      ShapedParses(der, outer, rLength, r, sLength, s, extra);
    }
  }

  // ----- DER as X.690 asks for it

  /** The shortest length form. */
  function DerLength(n: nat): (r: Bytes)
    requires n < 0x1_0000
    ensures IsLength(r, n)
  {
    if n < 0x80 then [n as byte]
    else if n < 0x100 then [0x81, n as byte]
    else [0x82, (n / 0x100) as byte, (n % 0x100) as byte]
  }

  /** The body of the INTEGER of a natural number: its shortest two's complement, one zero byte for zero. */
  function IntegerBody(n: nat): Bytes {
    if n == 0 then [0] else MpintBody(n)
  }

  function EncodeInteger(n: nat): Bytes
    requires |IntegerBody(n)| < 0x1_0000
  {
    Element(0x02, DerLength(|IntegerBody(n)|), IntegerBody(n))
  }

  /** The numbers whose SEQUENCE body has a length of at most two bytes. */
  predicate Encodable(r: nat, s: nat) {
    && |IntegerBody(r)| < 0x1_0000 && |IntegerBody(s)| < 0x1_0000
    && |EncodeInteger(r) + EncodeInteger(s)| < 0x1_0000
  }

  function Encode(r: nat, s: nat): Bytes
    requires Encodable(r, s)
  {
    var body := EncodeInteger(r) + EncodeInteger(s);
    Element(0x30, DerLength(|body|), body)
  }

  lemma IntegerBodyValue(n: nat)
    ensures Value(IntegerBody(n)) == n
  {
    MpintCanonical(n, MpintBody(n));
    LeadingZero([]);
    assert [0] + [] == [0 as byte];
  }

  /** Every signature that can be encoded is converted to the mpints of its own r and s. */
  lemma EncodedConverts(r: nat, s: nat)
    requires Encodable(r, s)
    ensures Convert(Encode(r, s)) == Some(Mpint(r) + Mpint(s))
  {
    IntegerBodyValue(r);
    IntegerBodyValue(s);
    hide IsLength, DerLength, Element, IntegerBody, Mpint;
    var (br, bs) := (IntegerBody(r), IntegerBody(s));
    var body := EncodeInteger(r) + EncodeInteger(s);
    assert EncodeInteger(s) + [] == EncodeInteger(s);
    assert Shaped(Encode(r, s), DerLength(|body|), DerLength(|br|), br, DerLength(|bs|), bs, []);
    ShapedParses(Encode(r, s), DerLength(|body|), DerLength(|br|), br, DerLength(|bs|), bs, []);
  }

  /** Different numbers have different mpints, also one behind the other (up to the lengths a u32 can say). */
  lemma MpintsInjective(r1: nat, s1: nat, r2: nat, s2: nat)
    requires |MpintBody(r1)| < U32_LIMIT && |MpintBody(s1)| < U32_LIMIT
    requires |MpintBody(r2)| < U32_LIMIT && |MpintBody(s2)| < U32_LIMIT
    ensures Mpint(r1) + Mpint(s1) == Mpint(r2) + Mpint(s2) <==> r1 == r2 && s1 == s2
  {
    MpintCanonical(r1, MpintBody(r1));
    MpintCanonical(r2, MpintBody(r2));
    MpintCanonical(s1, MpintBody(s1));
    MpintCanonical(s2, MpintBody(s2));
    hide Str, MpintBody, Value;
    if Mpint(r1) + Mpint(s1) == Mpint(r2) + Mpint(s2) {
      StrUnique(MpintBody(r1), Mpint(s1), MpintBody(r2), Mpint(s2));
      assert Mpint(s1) + [] == Mpint(s1) && Mpint(s2) + [] == Mpint(s2);
      StrUnique(MpintBody(s1), [], MpintBody(s2), []);
    }
  }

  /** Bytes behind s inside the SEQUENCE are accepted and ignored, so the check of DER is not strict. */
  lemma ExtraIgnored(der: Bytes, outer: Bytes, other: Bytes, otherOuter: Bytes,
                     rLength: Bytes, r: Bytes, sLength: Bytes, s: Bytes, extra: Bytes, otherExtra: Bytes)
    requires Shaped(der, outer, rLength, r, sLength, s, extra)
    requires Shaped(other, otherOuter, rLength, r, sLength, s, otherExtra)
    ensures Convert(other) == Convert(der) && Convert(der).Some?
  {
    hide Shaped, Parse;
    ShapedParses(der, outer, rLength, r, sLength, s, extra);
    ShapedParses(other, otherOuter, rLength, r, sLength, s, otherExtra);
  }

  lemma ExtraAccepted()
    ensures Convert([0x30, 7, 2, 1, 1, 2, 1, 1, 9]) == Convert([0x30, 6, 2, 1, 1, 2, 1, 1])
    ensures Convert([0x30, 6, 2, 1, 1, 2, 1, 1]).Some?
  {
    ExtraIgnored([0x30, 6, 2, 1, 1, 2, 1, 1], [6], [0x30, 7, 2, 1, 1, 2, 1, 1, 9], [7], [1], [1], [1], [1], [], [9]);
  }
}
