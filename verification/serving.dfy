/** What a peer can rely on over a whole connection. */
module Serving {
  import opened Common
  import opened State
  import opened Wire
  import opened Framing
  import opened Identities
  import opened Connection
  import opened Server

  lemma {:induction false} ReplyAt(w: World, requests: seq<Bytes>, i: nat)
    requires i < |requests|
    ensures Replies(w, requests)[i] == ReplyTo(w, w.moment(i), ContextAt(w, requests[..i]), requests[i])
    decreases |requests|
  {
    hide ReplyTo, ContextAt;
    var n := |requests| - 1;
    if i < n {
      var shorter := requests[..n];
      ReplyAt(w, shorter, i);
      assert shorter[..i] == requests[..i];
    }
  }

  /** The first byte a reply to this type of request may have. */
  predicate AnswersType(kind: Option<byte>, first: byte) {
    if kind == Some(SSH2_AGENTC_REQUEST_IDENTITIES) then first == SSH2_AGENT_IDENTITIES_ANSWER
    else if kind == Some(SSH2_AGENTC_SIGN_REQUEST) then first == SSH_AGENT_FAILURE || first == SSH2_AGENT_SIGN_RESPONSE
    else if kind == Some(SSH_AGENTC_EXTENSION) then first == SSH_AGENT_FAILURE || first == SSH_AGENT_SUCCESS
    else first == SSH_AGENT_FAILURE
  }

  /** Every request is answered by one non-empty reply whose first byte fits the request's type. */
  lemma RepliesFit(w: World, requests: seq<Bytes>, i: nat)
    requires i < |requests|
    ensures Replies(w, requests)[i] != []
    ensures AnswersType(Kind(requests[i]), Replies(w, requests)[i][0])
  {
    ReplyAt(w, requests, i);
    hide Replies, ContextAt, Granted, ParsePayload, Record, SignatureBlob, Listing, Offered, EntriesBytes;
  }

  /**
   * Framed requests in, framed replies out: the loop takes a concatenation of frames apart into its
   * messages, and what it writes is one frame per reply, in order, which a client can take apart again.
   */
  lemma OneReplyPerRequest(w: World, requests: seq<Bytes>, ending: Ending)
    requires forall m | m in requests :: Framable(m)
    ensures AllReplies(w, Frames(requests), ending) == Frames(Replies(w, requests))
    ensures Decode(Frames(requests), 0, ending).1 == ending.Closed?
    ensures (forall m | m in Replies(w, requests) :: Framable(m)) ==>
              Decode(AllReplies(w, Frames(requests), ending), 0, Closed) == (Replies(w, requests), true)
  {
    hide Replies, Frames, Frame;
    DecodeFrames(requests, ending);
    if forall m | m in Replies(w, requests) :: Framable(m) {
      DecodeFrames(Replies(w, requests), Closed);
    }
  }

  lemma DecodeFrames(messages: seq<Bytes>, ending: Ending)
    requires forall m | m in messages :: Framable(m)
    ensures Decode(Frames(messages), 0, ending) == (messages, ending.Closed?)
  {
    hide Frames, Frame;
    var input := Frames(messages);
    assert input[0..] == input + [];
    FramesRoundTrip(input, 0, ending, messages, []);
    assert messages + [] == messages;
  }

  /** The extension requests among these, without their type byte. */
  function Extensions(requests: seq<Bytes>): seq<Bytes>
    decreases |requests|
  {
    if requests == [] then []
    else
      var n := |requests| - 1;
      Extensions(requests[..n])
      + if Kind(requests[n]) == Some(SSH_AGENTC_EXTENSION) then [requests[n][1..]] else []
  }

  /** The context of a connection depends on its extension requests alone. */
  lemma {:induction false} ContextFollowsExtensions(w: World, requests: seq<Bytes>)
    ensures ContextAt(w, requests) == After(w.verifies, Extensions(requests))
    decreases |requests|
  {
    hide Extension;
    if requests != [] {
      var n := |requests| - 1;
      ContextFollowsExtensions(w, requests[..n]);
      var before := Extensions(requests[..n]);
      if Kind(requests[n]) == Some(SSH_AGENTC_EXTENSION) {
        AfterStep(w.verifies, before, requests[n][1..]);
      } else {
        assert Extensions(requests) == before;
      }
    }
  }

  /** No binding was attempted, or the last attempt recorded the only binding, verified and not forwarding. */
  ghost predicate BindingAllows(verifies: Verifier, history: seq<Bytes>) {
    || (forall i | 0 <= i < |history| :: !IsAttempt(history[i]))
    || (exists i: nat :: IsLastAttempt(history, i) && BoundAt(verifies, history, i))
  }

  /** The hardware signs the requested data with the enabled key that has the requested blob. */
  predicate HardwareGrants(m: Moment, request: Bytes) {
    var p := ParseSign(request);
    && p.Some?
    && UsableKey(m, p.value.blob).Some?
    && m.sign(UsableKey(m, p.value.blob).value, p.value.data).Some?
  }

  /** A signature leaves the connection exactly when all of this holds for its request. */
  lemma SignedExactly(w: World, requests: seq<Bytes>, i: nat)
    requires i < |requests|
    ensures Replies(w, requests)[i] != []
    ensures Replies(w, requests)[i][0] == SSH2_AGENT_SIGN_RESPONSE
       <==> Kind(requests[i]) == Some(SSH2_AGENTC_SIGN_REQUEST)
            && !w.moment(i).locked
            && BindingAllows(w.verifies, Extensions(requests[..i]))
            && HardwareGrants(w.moment(i), requests[i][1..])
  {
    RepliesFit(w, requests, i);
    ReplyAt(w, requests, i);
    ContextFollowsExtensions(w, requests[..i]);
    GateExactly(w.verifies, Extensions(requests[..i]));
    hide Replies, ContextAt, Extensions, After, IsAttempt, IsLastAttempt, BoundAt, ParseSign, UsableKey,
         SignatureBlob, Listing, Offered, EntriesBytes, Extension;
  }

  /** The entry at `j` is the first enabled one with the blob. */
  predicate FirstEnabled(keys: seq<SshKey>, blob: Bytes, j: nat) {
    && j < |keys| && keys[j].enabled && keys[j].publicBlob == blob
    && forall k | 0 <= k < j :: !(keys[k].enabled && keys[k].publicBlob == blob)
  }

  lemma {:induction false} FirstEnabledFound(keys: seq<SshKey>, blob: Bytes, j: nat)
    requires FirstEnabled(keys, blob, j)
    ensures Find(keys, EnabledBlob(blob)) == Some(keys[j])
  {
    if j > 0 {
      assert !EnabledBlob(blob)(keys[0]);
      FirstEnabledFound(keys[1..], blob, j - 1);
    }
  }

  /** The signature that `provider::sign` makes with the key at `j` over the data, where that key can be used. */
  function SignatureOver(m: Moment, j: nat, data: Bytes): Option<HardwareSignature>
    requires j < |m.keys|
  {
    if m.keys[j].backend == Fido2 && m.keys[j].devicePath.None? then None else m.sign(m.keys[j], data)
  }

  lemma EnabledBlobAt(keys: seq<SshKey>, blob: Bytes, j: nat)
    requires FirstEnabled(keys, blob, j)
    ensures j < |keys| && keys[j].publicBlob == blob
  {
  }

  lemma GateAllows(verifies: Verifier, history: seq<Bytes>)
    ensures GateOpen(After(verifies, history)) <==> BindingAllows(verifies, history)
  {
    GateExactly(verifies, history);
    hide After, IsAttempt, IsLastAttempt, BoundAt;
  }

  lemma UsableSigns(t: Text, m: Moment, c: Context, request: Bytes, data: Bytes, j: nat)
    requires j < |m.keys| && ParseSign(request) == Some(SignPayload(m.keys[j].publicBlob, data))
    requires FirstEnabled(m.keys, m.keys[j].publicBlob, j)
    ensures var signature := SignatureOver(m, j, data);
            SignReply(t, m, c, request)
            == if !m.locked && GateOpen(c) && signature.Some?
               then SignatureResponse(t, m.keys[j], signature.value) else [SSH_AGENT_FAILURE]
  {
    hide ParseSign, Find, SignatureResponse, FirstEnabled;
    FirstEnabledFound(m.keys, m.keys[j].publicBlob, j);
  }

  /**
   * What a client gets for a written sign request with this blob and this data, when the first enabled entry
   * of the blob is at `j`: the hardware's signature over just this data with just that key, if the agent is
   * unlocked, the bindings allow it and the hardware signs; the failure message otherwise.
   */
  lemma WrittenRequestAnswered(w: World, requests: seq<Bytes>, i: nat, blob: Bytes, data: Bytes, flags: Bytes, j: nat)
    requires i < |requests| && |flags| == 4 && |SignBytes(blob, data, flags)| < U32_LIMIT
    requires requests[i] == [SSH2_AGENTC_SIGN_REQUEST] + SignBytes(blob, data, flags)
    requires FirstEnabled(w.moment(i).keys, blob, j)
    ensures var m := w.moment(i);
            var signature := SignatureOver(m, j, data);
            Replies(w, requests)[i]
            == if !m.locked && BindingAllows(w.verifies, Extensions(requests[..i])) && signature.Some?
               then SignatureResponse(w.text, m.keys[j], signature.value) else [SSH_AGENT_FAILURE]
  {
    hide Replies, ReplyTo, SignReply, ContextAt, Extensions, After, BindingAllows, ParseSign, SignBytes, FirstEnabled;
    var c := ContextAt(w, requests[..i]);
    ReplyAt(w, requests, i);
    SignReplyOf(w, w.moment(i), c, requests[i]);
    ContextFollowsExtensions(w, requests[..i]);
    GateAllows(w.verifies, Extensions(requests[..i]));
    SignReadBack(blob, data, flags);
    assert requests[i][1..] == SignBytes(blob, data, flags);
    EnabledBlobAt(w.moment(i).keys, blob, j);
    UsableSigns(w.text, w.moment(i), c, SignBytes(blob, data, flags), data, j);
  }

  /** Read back by the client: the algorithm of that key, that signature, and the provider's fields. */
  lemma WrittenRequestReadBack(w: World, requests: seq<Bytes>, i: nat, blob: Bytes, data: Bytes, flags: Bytes, j: nat)
    requires i < |requests| && |flags| == 4 && |SignBytes(blob, data, flags)| < U32_LIMIT
    requires requests[i] == [SSH2_AGENTC_SIGN_REQUEST] + SignBytes(blob, data, flags)
    requires FirstEnabled(w.moment(i).keys, blob, j)
    requires !w.moment(i).locked && BindingAllows(w.verifies, Extensions(requests[..i]))
    requires SignatureOver(w.moment(i), j, data).Some?
    requires |SignatureBlob(w.text, w.moment(i).keys[j], SignatureOver(w.moment(i), j, data).value)| < U32_LIMIT
    ensures var signature := SignatureOver(w.moment(i), j, data).value;
            ParseSignature(Replies(w, requests)[i])
            == Some((w.text.utf8(w.moment(i).keys[j].algorithm), signature.signature, signature.providerFields))
  {
    hide BindingAllows, Extensions, SignBytes, SignatureBlob, SignatureResponse, ParseSignature, Replies;
    WrittenRequestAnswered(w, requests, i, blob, data, flags, j);
    SignatureReadBack(w.text, w.moment(i).keys[j], SignatureOver(w.moment(i), j, data).value);
  }

  lemma SignReplyOf(w: World, m: Moment, c: Context, request: Bytes)
    requires Kind(request) == Some(SSH2_AGENTC_SIGN_REQUEST)
    ensures ReplyTo(w, m, c, request) == SignReply(w.text, m, c, request[1..])
  {
    hide SignReply;
  }

  lemma UnusableFails(t: Text, m: Moment, c: Context, request: Bytes)
    requires ParseSign(request).Some? ==>
               forall key | key in m.keys && key.enabled :: key.publicBlob != ParseSign(request).value.blob
    ensures SignReply(t, m, c, request) == [SSH_AGENT_FAILURE]
  {
    hide ParseSign, Find, SignatureResponse;
    if ParseSign(request).Some? { FoundIsEnabled(m.keys, ParseSign(request).value.blob); }
  }

  lemma FoundIsEnabled(keys: seq<SshKey>, blob: Bytes)
    ensures var found := Find(keys, EnabledBlob(blob));
            found.Some? ==> found.value in keys && found.value.enabled && found.value.publicBlob == blob
  {
  }

  /** Any other request of the type, and one for a blob that no enabled key has, fails. */
  lemma OtherSignRequestsFail(w: World, requests: seq<Bytes>, i: nat)
    requires i < |requests| && |requests[i]| < U32_LIMIT
    requires Kind(requests[i]) == Some(SSH2_AGENTC_SIGN_REQUEST)
    requires forall blob, data, flags, key |
               |flags| == 4 && requests[i] == [SSH2_AGENTC_SIGN_REQUEST] + SignBytes(blob, data, flags)
               && key in w.moment(i).keys && key.enabled :: key.publicBlob != blob
    ensures Replies(w, requests)[i] == [SSH_AGENT_FAILURE]
  {
    hide Replies, ReplyTo, SignReply, ContextAt, SignBytes;
    var request := requests[i][1..];
    ReplyAt(w, requests, i);
    SignReplyOf(w, w.moment(i), ContextAt(w, requests[..i]), requests[i]);
    if ParseSign(request).Some? {
      SignParsed(request);
      var p := ParseSign(request).value;
      assert requests[i] == [SSH2_AGENTC_SIGN_REQUEST] + SignBytes(p.blob, p.data, FlagsOf(request));
    }
    UnusableFails(w.text, w.moment(i), ContextAt(w, requests[..i]), request);
  }

  /** An unlocked agent answers an identity request with the enabled keys in their only stable order. */
  lemma IdentitiesAnswered(w: World, requests: seq<Bytes>, i: nat, sorted: seq<SshKey>)
    requires i < |requests| && Kind(requests[i]) == Some(SSH2_AGENTC_REQUEST_IDENTITIES) && !w.moment(i).locked
    requires StableSortOf(w.text, w.moment(i).preferred, Filter(w.moment(i).keys, IsEnabled()), sorted)
    requires |sorted| < U32_LIMIT && forall e | e in Listing(w.text, sorted) :: Fits(e)
    ensures ParseReply(Replies(w, requests)[i]) == Some(Listing(w.text, sorted))
  {
    ReplyAt(w, requests, i);
    AnswerMeaning(w.text, w.moment(i).preferred, w.moment(i).keys, sorted);
    hide Replies, ContextAt, ParseReply, Reply, Listing, Offered, StableSortOf;
  }

  /** A session-bind request succeeds exactly when it proves its session and repeats or adds a binding. */
  lemma BindAnswered(w: World, requests: seq<Bytes>, i: nat)
    requires i < |requests| && Kind(requests[i]) == Some(SSH_AGENTC_EXTENSION) && IsAttempt(requests[i][1..])
    ensures var c, p := ContextAt(w, requests[..i]), ParsePayload(requests[i][1..]);
            Replies(w, requests)[i]
            == if Proves(w.verifies, p) && (Repeats(c.bindings, p) || Adds(c.bindings, p)) then [6] else [5]
  {
    hide Replies, ReplyTo, ContextAt, Extensions, ParsePayload, Extension, WellBound, Proves, Repeats, Adds, IsAttempt,
      After;
    var c, data := ContextAt(w, requests[..i]), requests[i][1..];
    ReplyAt(w, requests, i);
    ExtensionReply(w, w.moment(i), c, requests[i]);
    ContextFollowsExtensions(w, requests[..i]);
    ShapeAlways(w.verifies, Extensions(requests[..i]));
    BindSucceedsExactly(w.verifies, c, data);
    ProvesBind(w.verifies, ParsePayload(data));
  }

  lemma ExtensionReply(w: World, m: Moment, c: Context, request: Bytes)
    requires Kind(request) == Some(SSH_AGENTC_EXTENSION)
    ensures ReplyTo(w, m, c, request)
         == match Extension(w.verifies, c, request[1..]).1
            case Ok(answer) => answer
            case Err(_) => [SSH_AGENT_FAILURE]
  {
    hide Extension;
  }

  lemma ProvesBind(verifies: Verifier, p: Payload)
    ensures Proves(verifies, p) ==> p.Bind?
  {
  }

  /** A locked agent lists nothing and signs nothing, whatever the request. */
  lemma LockedAnswers(w: World, requests: seq<Bytes>, i: nat)
    requires i < |requests| && w.moment(i).locked
    ensures Kind(requests[i]) == Some(SSH2_AGENTC_REQUEST_IDENTITIES)
         ==> ParseReply(Replies(w, requests)[i]) == Some([])
    ensures Kind(requests[i]) == Some(SSH2_AGENTC_SIGN_REQUEST) ==> Replies(w, requests)[i] == [SSH_AGENT_FAILURE]
  {
    ReplyAt(w, requests, i);
    ReplyRoundTrip([]);
    hide Replies, ContextAt, ParseReply, Reply;
  }

  /** What a client reads from a sign response: algorithm name, signature, and the provider's fields. */
  function ParseSignature(data: Bytes): Option<(Bytes, Bytes, Bytes)> {
    if data == [] || data[0] != SSH2_AGENT_SIGN_RESPONSE then None
    else
      var blob := ReadStr(data, 1);
      if blob.None? || 5 + |blob.value| != |data| then None
      else
        var algorithm := ReadStr(blob.value, 0);
        if algorithm.None? then None
        else
          var signature := ReadStr(blob.value, 4 + |algorithm.value|);
          if signature.None? then None
          else Some((algorithm.value, signature.value, blob.value[8 + |algorithm.value| + |signature.value|..]))
  }

  lemma SignatureReadBack(t: Text, key: SshKey, s: HardwareSignature)
    requires |SignatureBlob(t, key, s)| < U32_LIMIT
    ensures ParseSignature(SignatureResponse(t, key, s))
         == Some((t.utf8(key.algorithm), s.signature, s.providerFields))
  {
    var algorithm := t.utf8(key.algorithm);
    StrLength(algorithm);
    StrLength(s.signature);
    var blob := SignatureBlob(t, key, s);
    StrLength(blob);
    hide Str, ReadStr;
    var data := SignatureResponse(t, key, s);
    assert data[1..] == Str(blob) + [];
    StrAt(data, 1, blob, []);
    assert blob[0..] == Str(algorithm) + (Str(s.signature) + s.providerFields);
    StrAt(blob, 0, algorithm, Str(s.signature) + s.providerFields);
    StrAt(blob, 4 + |algorithm|, s.signature, s.providerFields);
  }
}
