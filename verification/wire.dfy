/** Bytes on the agent socket: big-endian integers, length-prefixed strings and the byte reader. */
module Wire {
  import opened Common
  import opened State

  const U32_LIMIT := 0x1_0000_0000

  /** `u32::to_be_bytes` of a value cast with `as u32`, which keeps the low 32 bits. */
  function U32(n: nat): (r: Bytes)
    ensures |r| == 4
  {
    var v := n % U32_LIMIT;
    var q1 := v / 0x100;
    var q2 := q1 / 0x100;
    [(q2 / 0x100) as byte, (q2 % 0x100) as byte, (q1 % 0x100) as byte, (v % 0x100) as byte]
  }

  /** `u32::from_be_bytes`. */
  function FromU32(b: Bytes): (n: nat)
    requires |b| == 4
    ensures n < U32_LIMIT
  {
    ((b[0] as nat * 0x100 + b[1] as nat) * 0x100 + b[2] as nat) * 0x100 + b[3] as nat
  }

  lemma U32RoundTrip(n: nat)
    requires n < U32_LIMIT
    ensures FromU32(U32(n)) == n
  {
  }

  lemma SplitByte(q: nat, r: nat)
    requires r < 0x100
    ensures (q * 0x100 + r) / 0x100 == q && (q * 0x100 + r) % 0x100 == r
  {
  }

  lemma Digits(a: nat, b: nat, c: nat, d: nat)
    requires a < 0x100 && b < 0x100 && c < 0x100 && d < 0x100
    ensures var n := ((a * 0x100 + b) * 0x100 + c) * 0x100 + d;
            n % 0x100 == d && n / 0x100 % 0x100 == c && n / 0x100 / 0x100 % 0x100 == b && n / 0x100 / 0x100 / 0x100 == a
  {
    var ab := a * 0x100 + b;
    var abc := ab * 0x100 + c;
    SplitByte(a, b);
    SplitByte(ab, c);
    SplitByte(abc, d);
  }

  lemma FromU32RoundTrip(b: Bytes)
    requires |b| == 4
    ensures U32(FromU32(b)) == b
  {
    Digits(b[0] as nat, b[1] as nat, b[2] as nat, b[3] as nat);
  }

  /** What `put_string` appends: the length, then the bytes. */
  function Str(value: Bytes): Bytes {
    U32(|value|) + value
  }

  lemma StrLength(value: Bytes)
    ensures |Str(value)| == 4 + |value|
  {
  }

  /** The first four bytes are the length, the others the value. */
  lemma StrShape(value: Bytes)
    requires |value| < U32_LIMIT
    ensures FromU32(Str(value)[..4]) == |value| && Str(value)[4..] == value
  {
    U32RoundTrip(|value|);
    hide U32, FromU32;
    assert Str(value)[..4] == U32(|value|);
  }

  // ----- reading at a position

  function ReadU32(data: Bytes, at: nat): Option<nat> {
    if at + 4 <= |data| then Some(FromU32(data[at..at + 4])) else None
  }

  function ReadStr(data: Bytes, at: nat): (r: Option<Bytes>)
    ensures r.Some? ==> at + 4 + |r.value| <= |data| && data[at + 4..at + 4 + |r.value|] == r.value
  {
    var length := ReadU32(data, at);
    if length.None? || at + 4 + length.value > |data| then None
    else Some(data[at + 4..at + 4 + length.value])
  }

  /** A string written anywhere in a message is read back from there, whatever surrounds it. */
  lemma StrRoundTrip(before: Bytes, value: Bytes, after: Bytes)
    requires |value| < U32_LIMIT
    ensures ReadStr(before + Str(value) + after, |before|) == Some(value)
  {
    U32RoundTrip(|value|);
    hide U32, FromU32;
    var data := before + Str(value) + after;
    var head := before + U32(|value|);
    assert data == head + (value + after);
    assert data[|before|..|before| + 4] == U32(|value|);
    assert data[|head|..|head| + |value|] == value;
  }

  lemma U32ReadBack(before: Bytes, n: nat, after: Bytes)
    requires n < U32_LIMIT
    ensures ReadU32(before + U32(n) + after, |before|) == Some(n)
  {
    U32RoundTrip(n);
    hide U32, FromU32;
    assert (before + U32(n) + after)[|before|..|before| + 4] == U32(n);
  }

  /** The same at a position of known data, with what is left behind the string. */
  lemma StrAt(data: Bytes, at: nat, value: Bytes, after: Bytes)
    requires |value| < U32_LIMIT && at <= |data| && data[at..] == Str(value) + after
    ensures ReadStr(data, at) == Some(value)
    ensures at + 4 + |value| <= |data| && data[at + 4 + |value|..] == after
  {
    StrRoundTrip(data[..at], value, after);
    StrLength(value);
    hide Str, ReadStr;
    assert data == data[..at] + Str(value) + after;
    assert data[at..][4 + |value|..] == after;
  }

  /** A string that was read stands in the data exactly as it is written. */
  lemma StrRead(data: Bytes, at: nat)
    requires ReadStr(data, at).Some?
    ensures var value := ReadStr(data, at).value;
            |value| < U32_LIMIT && data[at..] == Str(value) + data[at + 4 + |value|..]
  {
    FromU32RoundTrip(data[at..at + 4]);
    hide U32, FromU32;
    var value := ReadStr(data, at).value;
    assert data[at..] == data[at..at + 4] + value + data[at + 4 + |value|..];
  }

  lemma StrShorter(value: Bytes, after: Bytes)
    ensures |Str(value) + after| == 4 + |value| + |after|
  {
  }

  /** Two strings in front of the same position of equal data are equal, and so is what follows. */
  lemma StrUnique(a: Bytes, x: Bytes, b: Bytes, y: Bytes)
    requires |a| < U32_LIMIT && |b| < U32_LIMIT && Str(a) + x == Str(b) + y
    ensures a == b && x == y
  {
    hide Str, ReadStr;
    var data := Str(a) + x;
    assert data[0..] == data;
    StrAt(data, 0, a, x);
    StrAt(data, 0, b, y);
  }

  /** `Reader`: a cursor over the bytes of one message. */
  class Reader {
    const value: Bytes
    var at: nat

    ghost predicate Valid()
      reads this
    {
      at <= |value|
    }

    constructor (value: Bytes)
      ensures this.value == value && at == 0 && Valid()
    {
      this.value := value;
      at := 0;
    }

    method U32() returns (r: Option<nat>)
      requires Valid()
      modifies this
      ensures Valid()
      ensures r == ReadU32(value, old(at))
      ensures at == if r.Some? then old(at) + 4 else old(at)
    {
      if at + 4 > |value| { return None; }
      r := Some(FromU32(value[at..at + 4]));
      at := at + 4;
    }

    method Byte() returns (r: Option<byte>)
      requires Valid()
      modifies this
      ensures Valid()
      ensures r == if old(at) < |value| then Some(value[old(at)]) else None
      ensures at == if r.Some? then old(at) + 1 else old(at)
    {
      if at >= |value| { return None; }
      r := Some(value[at]);
      at := at + 1;
    }

    /** A string whose bytes are missing leaves the cursor behind its length. */
    method String() returns (r: Option<Bytes>)
      requires Valid()
      modifies this
      ensures Valid()
      ensures r == ReadStr(value, old(at))
      ensures r.Some? ==> at == old(at) + 4 + |r.value|
      ensures r.None? ==> at == if ReadU32(value, old(at)).Some? then old(at) + 4 else old(at)
    {
      var length := U32();
      if length.None? { return None; }
      if at + length.value > |value| { return None; }
      r := Some(value[at..at + length.value]);
      at := at + length.value;
    }

    method IsEmpty() returns (r: bool)
      ensures r <==> at == |value|
    {
      r := at == |value|;
    }
  }
}
