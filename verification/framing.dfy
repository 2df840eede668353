/** Messages on the agent socket: a four-byte length in front of each, 1 to 2^20 bytes long. */
module Framing {
  import opened Common
  import opened State
  import opened Wire

  const MAX_MESSAGE := 0x10_0000

  /** How the peer stops sending: a closed or reset connection, or another error such as a timeout. */
  datatype Ending = Closed | Failing

  datatype Incoming = Request(body: Bytes) | EndOfStream | Broken

  function Frame(message: Bytes): Bytes {
    U32(|message|) + message
  }

  function Frames(messages: seq<Bytes>): Bytes {
    if messages == [] then [] else Frames(messages[..|messages| - 1]) + Frame(messages[|messages| - 1])
  }

  /** A frame is laid out like any other string on the wire. */
  lemma FrameIsString(message: Bytes)
    ensures Frame(message) == Str(message)
  {
  }

  // ----- reading

  /** What `read_message` finds at a position of everything the peer sends. */
  function ReadAt(input: Bytes, at: nat, ending: Ending): Incoming
    requires at <= |input|
  {
    var length := ReadU32(input, at);
    if length.None? then if ending.Closed? then EndOfStream else Broken
    else if length.value == 0 || length.value > MAX_MESSAGE then Broken
    else if at + 4 + length.value > |input| then Broken
    else Request(input[at + 4..at + 4 + length.value])
  }

  /** All messages from a position on, and whether the connection then ends in order. */
  function Decode(input: Bytes, at: nat, ending: Ending): (seq<Bytes>, bool)
    requires at <= |input|
    decreases |input| - at
  {
    match ReadAt(input, at, ending)
    case EndOfStream => ([], true)
    case Broken => ([], false)
    case Request(body) =>
      var (rest, orderly) := Decode(input, at + 4 + |body|, ending);
      ([body] + rest, orderly)
  }

  /** The lengths `read_message` accepts. */
  predicate Framable(message: Bytes) {
    1 <= |message| <= MAX_MESSAGE
  }

  lemma FrameReadBack(input: Bytes, at: nat, ending: Ending, message: Bytes, after: Bytes)
    requires Framable(message) && at <= |input| && input[at..] == Frame(message) + after
    ensures ReadAt(input, at, ending) == Request(message)
    ensures at + 4 + |message| <= |input| && input[at + 4 + |message|..] == after
  {
    hide U32, FromU32;
    U32ReadBack(input[..at], |message|, message + after);
    assert input == input[..at] + U32(|message|) + (message + after);
    assert input[at..][4..4 + |message|] == message;
    assert input[at..][4 + |message|..] == after;
  }

  lemma {:induction false} FramesCons(message: Bytes, rest: seq<Bytes>)
    ensures Frames([message] + rest) == Frame(message) + Frames(rest)
    decreases |rest|
  {
    hide Frame;
    if rest == [] {
      assert [message] + rest == [message];
      assert Frames([message]) == Frames([]) + Frame(message);
    } else {
      var n := |rest| - 1;
      assert ([message] + rest)[..n + 1] == [message] + rest[..n];
      FramesCons(message, rest[..n]);
    }
  }

  /** A concatenation of frames is taken apart into exactly its messages; then comes what follows it. */
  lemma {:induction false} FramesRoundTrip(input: Bytes, at: nat, ending: Ending, messages: seq<Bytes>, tail: Bytes)
    requires forall m | m in messages :: Framable(m)
    requires at <= |input| && input[at..] == Frames(messages) + tail
    ensures |tail| <= |input|
    ensures Decode(input, at, ending)
         == (messages + Decode(input, |input| - |tail|, ending).0, Decode(input, |input| - |tail|, ending).1)
    decreases |messages|
  {
    hide Frame, Frames, ReadAt;
    if messages == [] {
      NoFrames();
      assert messages + Decode(input, at, ending).0 == Decode(input, at, ending).0;
    } else {
      var m, rest := messages[0], messages[1..];
      assert messages == [m] + rest;
      FramesCons(m, rest);
      assert input[at..] == Frame(m) + (Frames(rest) + tail);
      FrameReadBack(input, at, ending, m, Frames(rest) + tail);
      FramesRoundTrip(input, at + 4 + |m|, ending, rest, tail);
      var after := Decode(input, |input| - |tail|, ending).0;
      assert messages + after == [m] + (rest + after);
    }
  }

  lemma NoFrames()
    ensures Frames([]) == []
  {
  }

  /** Whatever was decoded are frames in front of the rest: nothing is invented and nothing skipped. */
  lemma {:induction false} DecodeIsPrefix(input: Bytes, at: nat, ending: Ending)
    requires at <= |input|
    ensures var messages := Decode(input, at, ending).0;
            && (forall m | m in messages :: Framable(m))
            && |Frames(messages)| <= |input| - at
            && input[at..at + |Frames(messages)|] == Frames(messages)
    decreases |input| - at
  {
    hide Frames, Frame;
    NoFrames();
    var incoming := ReadAt(input, at, ending);
    if incoming.Request? {
      var body := incoming.body;
      FrameAt(input, at, ending);
      DecodeIsPrefix(input, at + 4 + |body|, ending);
      var rest := Decode(input, at + 4 + |body|, ending).0;
      FramesCons(body, rest);
    }
  }

  /** What stands at the start of these bytes is no frame: no length, a bad one, or too few bytes for it. */
  predicate NoFrame(rest: Bytes) {
    |rest| < 4 || FromU32(rest[..4]) == 0 || FromU32(rest[..4]) > 1048576 || |rest| < 4 + FromU32(rest[..4])
  }

  /**
   * Decoding goes on as long as there is a frame. It ends in order exactly when the peer closed the
   * connection with less than a length behind the last one.
   */
  lemma {:induction false} DecodeStops(input: Bytes, at: nat, ending: Ending)
    requires at <= |input|
    ensures var (messages, orderly) := Decode(input, at, ending);
            && at + |Frames(messages)| <= |input|
            && NoFrame(input[at + |Frames(messages)|..])
            && (orderly <==> ending.Closed? && |input| - at - |Frames(messages)| < 4)
    decreases |input| - at
  {
    hide Frames, Frame, FromU32;
    NoFrames();
    DecodeIsPrefix(input, at, ending);
    var incoming := ReadAt(input, at, ending);
    if incoming.Request? {
      var body := incoming.body;
      FrameAt(input, at, ending);
      DecodeStops(input, at + 4 + |body|, ending);
      FramesCons(body, Decode(input, at + 4 + |body|, ending).0);
    } else {
      if at + 4 <= |input| { assert input[at..][..4] == input[at..at + 4]; }
    }
  }

  lemma FrameAt(input: Bytes, at: nat, ending: Ending)
    requires at <= |input| && ReadAt(input, at, ending).Request?
    ensures var body := ReadAt(input, at, ending).body;
            at + 4 + |body| <= |input| && input[at..at + 4 + |body|] == Frame(body) && |Frame(body)| == 4 + |body|
  {
    hide U32, FromU32;
    FromU32RoundTrip(input[at..at + 4]);
    var body := ReadAt(input, at, ending).body;
    assert input[at..at + 4 + |body|] == input[at..at + 4] + body;
  }

  // ----- the socket

  /** The socket of one connection. The peer takes `capacity` bytes before a write to it fails. */
  class Stream {
    const input: Bytes
    const ending: Ending
    const capacity: nat
    var at: nat
    var output: Bytes

    ghost predicate Valid()
      reads this
    {
      at <= |input| && |output| <= capacity
    }

    constructor (input: Bytes, ending: Ending, capacity: nat)
      ensures Valid() && this.input == input && this.ending == ending && this.capacity == capacity
      ensures at == 0 && output == []
    {
      this.input, this.ending, this.capacity := input, ending, capacity;
      at, output := 0, [];
    }

    /** `read_exact`: all the bytes asked for, or none. */
    method ReadExact(count: nat) returns (r: Option<Bytes>)
      requires Valid()
      modifies this`at
      ensures Valid()
      ensures r == if old(at) + count <= |input| then Some(input[old(at)..old(at) + count]) else None
      ensures r.Some? ==> at == old(at) + count
    {
      if at + count > |input| {
        at := |input|;
        return None;
      }
      r := Some(input[at..at + count]);
      at := at + count;
    }

    method ReadMessage() returns (r: Incoming)
      requires Valid()
      modifies this`at
      ensures Valid()
      ensures r == ReadAt(input, old(at), ending)
      ensures r.Request? ==> at == old(at) + 4 + |r.body|
    {
      hide FromU32;
      var header := ReadExact(4);
      if header.None? { return if ending.Closed? then EndOfStream else Broken; }
      var length := FromU32(header.value);
      if length == 0 || length > MAX_MESSAGE { return Broken; }
      var body := ReadExact(length);
      if body.None? { return Broken; }
      return Request(body.value);
    }

    /** `write_all`: a write that fails has sent what still fitted. */
    method WriteAll(bytes: Bytes) returns (ok: bool)
      requires Valid()
      modifies this`output
      ensures Valid()
      ensures ok <==> |old(output)| + |bytes| <= capacity
      ensures output == Clip(old(output) + bytes, capacity)
    {
      ok := |output| + |bytes| <= capacity;
      output := output + if ok then bytes else bytes[..capacity - |output|];
    }

    /** `write_message`: the length, then the message if the length could be written. */
    method WriteMessage(response: Bytes) returns (ok: bool)
      requires Valid()
      modifies this`output
      ensures Valid()
      ensures ok <==> |old(output)| + |Frame(response)| <= capacity
      ensures output == Clip(old(output) + Frame(response), capacity)
    {
      hide U32;
      ok := WriteAll(U32(|response|));
      if ok {
        ok := WriteAll(response);
        assert old(output) + U32(|response|) + response == old(output) + Frame(response);
      }
    }
  }

  function Clip(bytes: Bytes, capacity: nat): (r: Bytes)
    ensures r <= bytes
  {
    if |bytes| <= capacity then bytes else bytes[..capacity]
  }
}
