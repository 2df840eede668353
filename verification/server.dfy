/**
 * Serving one agent connection: requests are read, answered and written back until the peer stops.
 * Other threads change the shared state meanwhile, so every request meets its own `Moment` of it.
 */
module Server {
  import opened Common
  import opened State
  import opened Wire
  import opened Framing
  import opened Identities
  import opened Connection

  const SSH2_AGENTC_REQUEST_IDENTITIES: byte := 11
  const SSH2_AGENTC_SIGN_REQUEST: byte := 13
  const SSH2_AGENT_SIGN_RESPONSE: byte := 14
  const SSH_AGENTC_EXTENSION: byte := 27

  /** `provider::HardwareSignature`. */
  datatype HardwareSignature = HardwareSignature(signature: Bytes, providerFields: Bytes)

  /**
   * What one request sees of the shared state: the agent lock and the keys when it looks at them, the
   * preferred backend, and the answer of `provider::sign` for a key and the data to sign.
   */
  datatype Moment = Moment(
    locked: bool,
    preferred: nat,
    keys: seq<SshKey>,
    sign: (SshKey, Bytes) -> Option<HardwareSignature>)

  /** The parts of the world outside the connection. */
  datatype World = World(text: Text, verifies: Verifier, moment: nat -> Moment)

  // ----- sign requests

  datatype SignPayload = SignPayload(blob: Bytes, data: Bytes)

  /** Blob, data and four bytes of flags, which are ignored, and nothing after them. */
  function ParseSign(request: Bytes): Option<SignPayload> {
    var blob := ReadStr(request, 0);
    if blob.None? then None
    else
      var at1 := 4 + |blob.value|;
      var data := ReadStr(request, at1);
      if data.None? then None
      else
        var at2 := at1 + 4 + |data.value|;
        if ReadU32(request, at2).None? || at2 + 4 != |request| then None
        else Some(SignPayload(blob.value, data.value))
  }

  /** A sign request as a client writes it: the blob, the data, and four bytes of flags. */
  function SignBytes(blob: Bytes, data: Bytes, flags: Bytes): Bytes {
    Str(blob) + (Str(data) + flags)
  }

  /** The last four bytes. */
  function FlagsOf(request: Bytes): Bytes {
    if |request| < 4 then [] else request[|request| - 4..]
  }

  /** A request is read as this blob and this data exactly when it is them, written in this order. */
  lemma SignExactly(request: Bytes, blob: Bytes, data: Bytes)
    requires |request| < U32_LIMIT
    ensures ParseSign(request) == Some(SignPayload(blob, data))
       <==> |FlagsOf(request)| == 4 && request == SignBytes(blob, data, FlagsOf(request))
  {
    if ParseSign(request) == Some(SignPayload(blob, data)) {
      SignParsed(request);
    }
    if |FlagsOf(request)| == 4 && request == SignBytes(blob, data, FlagsOf(request)) {
      SignReadBack(blob, data, FlagsOf(request));
    }
  }

  lemma SignParsed(request: Bytes)
    requires ParseSign(request).Some?
    ensures |FlagsOf(request)| == 4
    ensures request == SignBytes(ParseSign(request).value.blob, ParseSign(request).value.data, FlagsOf(request))
  {
    hide ReadStr, Str, FromU32;
    var first := ReadStr(request, 0).value;
    var at1 := 4 + |first|;
    var second := ReadStr(request, at1).value;
    StrRead(request, 0);
    StrRead(request, at1);
    assert request == request[0..];
    assert request[at1 + 4 + |second|..] == FlagsOf(request);
    WhichIsWhich(request);
  }

  /** The first string is the blob, the second the data. */
  lemma WhichIsWhich(request: Bytes)
    requires ParseSign(request).Some?
    ensures ReadStr(request, 0) == Some(ParseSign(request).value.blob)
    ensures ReadStr(request, 4 + |ParseSign(request).value.blob|) == Some(ParseSign(request).value.data)
  {
    hide ReadStr, FromU32;
  }

  lemma SignReadBack(blob: Bytes, data: Bytes, flags: Bytes)
    requires |flags| == 4 && |SignBytes(blob, data, flags)| < U32_LIMIT
    ensures ParseSign(SignBytes(blob, data, flags)) == Some(SignPayload(blob, data))
  {
    StrShorter(blob, Str(data) + flags);
    StrShorter(data, flags);
    hide ReadStr, Str, FromU32;
    var request := SignBytes(blob, data, flags);
    assert request[0..] == request;
    StrAt(request, 0, blob, Str(data) + flags);
    StrAt(request, 4 + |blob|, data, flags);
  }

  function SignatureBlob(t: Text, key: SshKey, s: HardwareSignature): Bytes {
    Str(t.utf8(key.algorithm)) + Str(s.signature) + s.providerFields
  }

  /** `signature_response`. */
  function SignatureResponse(t: Text, key: SshKey, s: HardwareSignature): Bytes {
    [SSH2_AGENT_SIGN_RESPONSE] + Str(SignatureBlob(t, key, s))
  }

  /** The key a sign request may use at this moment; a FIDO2 key has to know its device. */
  function UsableKey(m: Moment, blob: Bytes): Option<SshKey> {
    var key := Find(m.keys, EnabledBlob(blob));
    if key.Some? && key.value.backend == Fido2 && key.value.devicePath.None? then None else key
  }

  /** The key and signature of a granted sign request. */
  function Granted(m: Moment, c: Context, request: Bytes): Option<(SshKey, HardwareSignature)> {
    var p := ParseSign(request);
    if m.locked || p.None? || !GateOpen(c) then None
    else
      var key := UsableKey(m, p.value.blob);
      if key.None? then None
      else
        var signature := m.sign(key.value, p.value.data);
        if signature.None? then None else Some((key.value, signature.value))
  }

  /** Every refusal ends in the failure message that `serve` sends for an error. */
  function SignReply(t: Text, m: Moment, c: Context, request: Bytes): Bytes {
    match Granted(m, c, request)
    case None => [SSH_AGENT_FAILURE]
    case Some((key, signature)) => SignatureResponse(t, key, signature)
  }

  method ReadSign(request: Bytes) returns (p: Option<SignPayload>)
    ensures p == ParseSign(request)
  {
    hide ReadStr, ReadU32;
    var reader := new Reader(request);
    var blob := reader.String();
    if blob.None? { return None; }
    var data := reader.String();
    if data.None? { return None; }
    var flags := reader.U32();
    if flags.None? { return None; }
    var done := reader.IsEmpty();
    if !done { return None; }
    return Some(SignPayload(blob.value, data.value));
  }

  /** `sign_request`, apart from its effects on the shared state, which the session machine models. */
  method SignRequest(t: Text, m: Moment, context: ConnectionContext, request: Bytes) returns (reply: Option<Bytes>)
    ensures (if reply.Some? then reply.value else [SSH_AGENT_FAILURE]) == SignReply(t, m, context.View(), request)
  {
    if m.locked { return None; }
    var p := ReadSign(request);
    hide ParseSign, SignatureBlob, Find;
    if p.None? { return None; }
    if context.bindingFailed || context.forwarded { return None; }
    var key := FindKey(m.keys, p.value.blob);
    if key.None? { return None; }
    if key.value.backend == Fido2 && key.value.devicePath.None? { return None; }
    var signature := m.sign(key.value, p.value.data);
    if signature.None? { return None; }
    var response := WriteSignature(t, key.value, signature.value);
    return Some(response);
  }

  method WriteSignature(t: Text, key: SshKey, s: HardwareSignature) returns (response: Bytes)
    ensures response == SignatureResponse(t, key, s)
  {
    hide Str;
    var blob: Bytes := [];
    blob := blob + Str(t.utf8(key.algorithm));
    blob := blob + Str(s.signature);
    blob := blob + s.providerFields;
    response := [SSH2_AGENT_SIGN_RESPONSE];
    response := response + Str(blob);
    assert blob == SignatureBlob(t, key, s);
  }

  // ----- one request

  /** `request.first()`. */
  function Kind(request: Bytes): Option<byte> {
    if request == [] then None else Some(request[0])
  }

  /** Any other type, and an empty request, is answered with the failure message. */
  function ReplyTo(w: World, m: Moment, c: Context, request: Bytes): Bytes {
    if Kind(request) == Some(SSH2_AGENTC_REQUEST_IDENTITIES) then
      Reply(if m.locked then [] else Listing(w.text, Offered(w.text, m.preferred, m.keys)))
    else if Kind(request) == Some(SSH2_AGENTC_SIGN_REQUEST) then SignReply(w.text, m, c, request[1..])
    else if Kind(request) == Some(SSH_AGENTC_EXTENSION) then
      (match Extension(w.verifies, c, request[1..]).1 case Ok(answer) => answer case Err(_) => [SSH_AGENT_FAILURE])
    else [SSH_AGENT_FAILURE]
  }

  function ContextAfter(w: World, c: Context, request: Bytes): Context {
    if Kind(request) == Some(SSH_AGENTC_EXTENSION) then Extension(w.verifies, c, request[1..]).0 else c
  }

  method Handle(w: World, m: Moment, context: ConnectionContext, request: Bytes) returns (reply: Bytes)
    requires context.verifies == w.verifies
    modifies context
    ensures reply == ReplyTo(w, m, old(context.View()), request)
    ensures context.View() == ContextAfter(w, old(context.View()), request)
  {
    hide SignReply, Extension, Reply, Listing, Offered;
    reply := [SSH_AGENT_FAILURE];
    var kind := Kind(request);
    if kind == Some(SSH2_AGENTC_REQUEST_IDENTITIES) {
      reply := AnswerIdentities(w.text, m.locked, m.preferred, m.keys);
    } else if kind == Some(SSH2_AGENTC_SIGN_REQUEST) {
      var signed := SignRequest(w.text, m, context, request[1..]);
      if signed.Some? { reply := signed.value; }
    } else if kind == Some(SSH_AGENTC_EXTENSION) {
      var answer := context.HandleExtension(request[1..]);
      if answer.Ok? { reply := answer.value; }
    }
  }

  // ----- the loop

  /** The connection context after these requests, starting fresh. */
  function ContextAt(w: World, requests: seq<Bytes>): Context {
    if requests == [] then FRESH
    else ContextAfter(w, ContextAt(w, requests[..|requests| - 1]), requests[|requests| - 1])
  }

  /** One reply per request, in order; the n-th request meets the n-th moment. */
  function Replies(w: World, requests: seq<Bytes>): (r: seq<Bytes>)
    ensures |r| == |requests|
  {
    if requests == [] then []
    else
      var n := |requests| - 1;
      Replies(w, requests[..n]) + [ReplyTo(w, w.moment(n), ContextAt(w, requests[..n]), requests[n])]
  }

  lemma RepliesStep(w: World, requests: seq<Bytes>, request: Bytes)
    ensures Replies(w, requests + [request])
         == Replies(w, requests) + [ReplyTo(w, w.moment(|requests|), ContextAt(w, requests), request)]
    ensures ContextAt(w, requests + [request]) == ContextAfter(w, ContextAt(w, requests), request)
  {
    assert (requests + [request])[..|requests|] == requests;
  }

  lemma FramesStep(messages: seq<Bytes>, message: Bytes)
    ensures Frames(messages + [message]) == Frames(messages) + Frame(message)
  {
    assert (messages + [message])[..|messages|] == messages;
  }

  /** What earlier requests were answered does not depend on later ones. */
  lemma {:induction false} RepliesPrefix(w: World, requests: seq<Bytes>, more: seq<Bytes>)
    ensures Replies(w, requests) <= Replies(w, requests + more)
    decreases |more|
  {
    hide ReplyTo, ContextAt;
    if more == [] {
      assert requests + more == requests;
    } else {
      var n := |more| - 1;
      RepliesPrefix(w, requests, more[..n]);
      assert (requests + more)[..|requests| + n] == requests + more[..n];
    }
  }

  lemma {:induction false} FramesPrefix(messages: seq<Bytes>, all: seq<Bytes>)
    requires messages <= all
    ensures Frames(messages) <= Frames(all)
    decreases |all|
  {
    hide Frame;
    if messages == all {
      assert messages == all;
    } else {
      FramesPrefix(messages, all[..|all| - 1]);
    }
  }

  /** Everything the connection would write to a peer that takes it all. */
  function AllReplies(w: World, input: Bytes, ending: Ending): Bytes {
    Frames(Replies(w, Decode(input, 0, ending).0))
  }

  /** These requests have been answered, and what the rest of the input holds comes after them. */
  ghost predicate Answered(w: World, stream: Stream, context: ConnectionContext, requests: seq<Bytes>)
    requires stream.Valid()
    reads stream, context
  {
    && Remaining(stream.input, stream.ending, stream.at, requests)
    && stream.output == Frames(Replies(w, requests))
    && context.View() == ContextAt(w, requests)
  }

  ghost predicate Remaining(input: Bytes, ending: Ending, at: nat, requests: seq<Bytes>)
    requires at <= |input|
  {
    var rest := Decode(input, at, ending);
    Decode(input, 0, ending) == (requests + rest.0, rest.1)
  }

  lemma RemainingStep(input: Bytes, ending: Ending, at: nat, requests: seq<Bytes>)
    requires at <= |input| && Remaining(input, ending, at, requests) && ReadAt(input, at, ending).Request?
    ensures var request := ReadAt(input, at, ending).body;
            at + 4 + |request| <= |input|
            && Remaining(input, ending, at + 4 + |request|, requests + [request])
  {
    var request := ReadAt(input, at, ending).body;
    FrameAt(input, at, ending);
    var rest := Decode(input, at + 4 + |request|, ending).0;
    assert requests + ([request] + rest) == requests + [request] + rest;
  }

  lemma RemainingEnd(w: World, input: Bytes, ending: Ending, at: nat, requests: seq<Bytes>)
    requires at <= |input| && Remaining(input, ending, at, requests)
    requires !ReadAt(input, at, ending).Request?
    ensures AllReplies(w, input, ending) == Frames(Replies(w, requests))
    ensures Decode(input, 0, ending).1 <==> ReadAt(input, at, ending).EndOfStream?
  {
    hide Frames, Replies, ReadAt;
    assert requests + [] == requests;
  }

  lemma RemainingCut(w: World, input: Bytes, ending: Ending, at: nat, requests: seq<Bytes>)
    requires at <= |input| && Remaining(input, ending, at, requests)
    ensures Frames(Replies(w, requests)) <= AllReplies(w, input, ending)
  {
    hide Frames, Replies, ReadAt;
    var rest := Decode(input, at, ending).0;
    RepliesPrefix(w, requests, rest);
    FramesPrefix(Replies(w, requests), Replies(w, requests + rest));
  }

  /**
   * `serve`: what reaches the peer is the stream of all replies, cut off only where a write fails;
   * the connection ends in order exactly when nothing failed and the peer stopped between two requests.
   */
  method Serve(w: World, stream: Stream) returns (orderly: bool)
    requires stream.Valid() && stream.at == 0 && stream.output == []
    modifies stream
    ensures stream.output == Clip(AllReplies(w, stream.input, stream.ending), stream.capacity)
    ensures orderly <==> Decode(stream.input, 0, stream.ending).1
                         && |AllReplies(w, stream.input, stream.ending)| <= stream.capacity
  {
    hide Frames, Frame, ReadAt, ReplyTo, ContextAfter, AllReplies, Remaining, Replies, ContextAt;
    var context := new ConnectionContext(w.verifies);
    ghost var requests: seq<Bytes> := [];
    var served := 0;
    NothingServed(w, stream.input, stream.ending);
    while true
      invariant stream.Valid() && context.verifies == w.verifies && fresh(context) && served == |requests|
      invariant Answered(w, stream, context, requests)
      decreases |stream.input| - stream.at
    {
      ghost var start := stream.at;
      var incoming := stream.ReadMessage();
      if !incoming.Request? {
        RemainingEnd(w, stream.input, stream.ending, start, requests);
        return incoming.EndOfStream?;
      }
      RemainingStep(stream.input, stream.ending, start, requests);
      var reply := Handle(w, w.moment(served), context, incoming.body);
      RepliesStep(w, requests, incoming.body);
      FramesStep(Replies(w, requests), reply);
      requests, served := requests + [incoming.body], served + 1;
      RemainingCut(w, stream.input, stream.ending, stream.at, requests);
      var ok := stream.WriteMessage(reply);
      if !ok { return false; }
    }
  }

  lemma NothingServed(w: World, input: Bytes, ending: Ending)
    ensures Remaining(input, ending, 0, [])
    ensures Frames(Replies(w, [])) == [] && ContextAt(w, []) == FRESH
  {
    assert [] + Decode(input, 0, ending).0 == Decode(input, 0, ending).0;
  }
}
