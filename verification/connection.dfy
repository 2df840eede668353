/**
 * The `session-bind@openssh.com` state of one agent connection.
 * Parsing of keys and checking of signatures are the parameter `verifies`.
 */
module Connection {
  import opened Common
  import opened State
  import opened Wire

  /** Whether the host key blob is valid and the signature of the session id verifies under it. */
  type Verifier = (Bytes, Bytes, Bytes) -> bool

  const SSH_AGENT_FAILURE: byte := 5
  const SSH_AGENT_SUCCESS: byte := 6
  const MAX_SESSION_BINDINGS := 16
  const MAX_SESSION_ID := 128

  /** The bytes of "session-bind@openssh.com". */
  const SESSION_BIND_EXTENSION: Bytes :=
    [115, 101, 115, 115, 105, 111, 110, 45, 98, 105, 110, 100, 64, 111, 112, 101, 110, 115, 115, 104, 46, 99, 111, 109]

  datatype Binding = Binding(hostKey: Bytes, sessionId: Bytes, forwarding: bool)

  datatype Context = Context(bindings: seq<Binding>, bindingFailed: bool, forwarded: bool)

  const FRESH := Context([], false, false)

  datatype BindError = Truncated | Trailing | BadSessionId | Unverified | AlreadyBound | OtherHostKey | TooMany

  /** An extension payload as far as `extension` reads it. */
  datatype Payload =
    | Unreadable
    | OtherExtension
    | Malformed(error: BindError)
    | Bind(hostKey: Bytes, sessionId: Bytes, signature: Bytes, forwarding: byte)

  function ParsePayload(data: Bytes): Payload {
    var name := ReadStr(data, 0);
    if name.None? then Unreadable
    else if name.value != SESSION_BIND_EXTENSION then OtherExtension
    else ParseBind(data, 4 + |name.value|)
  }

  /** Host key, session id, signature and flag byte, and nothing after them. */
  function ParseBind(data: Bytes, at: nat): Payload {
    var hostKey := ReadStr(data, at);
    if hostKey.None? then Malformed(Truncated)
    else
      var at1 := at + 4 + |hostKey.value|;
      var sessionId := ReadStr(data, at1);
      if sessionId.None? then Malformed(Truncated)
      else
        var at2 := at1 + 4 + |sessionId.value|;
        var signature := ReadStr(data, at2);
        if signature.None? then Malformed(Truncated)
        else
          var at3 := at2 + 4 + |signature.value|;
          if at3 >= |data| then Malformed(Truncated)
          else if at3 + 1 != |data| then Malformed(Trailing)
          else Bind(hostKey.value, sessionId.value, signature.value, data[at3])
  }

  /** What the bindings already recorded say about a verified request. */
  datatype Verdict = Fresh | Repeated | Conflict(error: BindError)

  function Judge(bindings: seq<Binding>, hostKey: Bytes, sessionId: Bytes): Verdict {
    if bindings == [] then Fresh
    else if !bindings[0].forwarding then Conflict(AlreadyBound)
    else if bindings[0].sessionId == sessionId then
      if bindings[0].hostKey == hostKey then Repeated else Conflict(OtherHostKey)
    else Judge(bindings[1..], hostKey, sessionId)
  }

  /** The bindings after a bind request, or why it is refused. */
  function Record(verifies: Verifier, bindings: seq<Binding>, p: Payload): Result<seq<Binding>, BindError>
    requires p.Bind?
  {
    if |p.sessionId| == 0 || |p.sessionId| > MAX_SESSION_ID then Err(BadSessionId)
    else if !verifies(p.hostKey, p.sessionId, p.signature) then Err(Unverified)
    else
      match Judge(bindings, p.hostKey, p.sessionId)
      case Conflict(error) => Err(error)
      case Repeated => Ok(bindings)
      case Fresh =>
        if |bindings| >= MAX_SESSION_BINDINGS then Err(TooMany)
        else Ok(bindings + [Binding(p.hostKey, p.sessionId, p.forwarding != 0)])
  }

  /** One `extension` request: the context it leaves and its answer. */
  function Extension(verifies: Verifier, c: Context, data: Bytes): (Context, Result<Bytes, BindError>) {
    match ParsePayload(data)
    case Unreadable => (c, Err(Truncated))
    case OtherExtension => (c, Ok([SSH_AGENT_FAILURE]))
    case Malformed(error) => (c.(bindingFailed := true), Err(error))
    case Bind(hostKey, sessionId, signature, forwarding) =>
      match Record(verifies, c.bindings, ParsePayload(data))
      case Err(error) => (c.(bindingFailed := true), Err(error))
      case Ok(bindings) =>
        (Context(bindings, false, c.forwarded || (|bindings| > |c.bindings| && forwarding != 0)),
         Ok([SSH_AGENT_SUCCESS]))
  }

  /** The mutable context of one connection. */
  class ConnectionContext {
    const verifies: Verifier
    var bindings: seq<Binding>
    var bindingFailed: bool
    var forwarded: bool

    function View(): Context
      reads this
    {
      Context(bindings, bindingFailed, forwarded)
    }

    constructor (verifies: Verifier)
      ensures View() == FRESH && this.verifies == verifies
    {
      this.verifies := verifies;
      bindings, bindingFailed, forwarded := [], false, false;
    }

    method HandleExtension(request: Bytes) returns (answer: Result<Bytes, BindError>)
      modifies this
      ensures (View(), answer) == Extension(verifies, old(View()), request)
    {
      var p := ReadPayload(request);
      hide ParsePayload;
      if p.Unreadable? { return Err(Truncated); }
      if p.OtherExtension? { return Ok([SSH_AGENT_FAILURE]); }
      // From here on only a complete, verified and consistent binding clears the failure again.
      bindingFailed := true;
      if p.Malformed? { return Err(p.error); }
      if |p.sessionId| == 0 || |p.sessionId| > MAX_SESSION_ID { return Err(BadSessionId); }
      if !verifies(p.hostKey, p.sessionId, p.signature) { return Err(Unverified); }
      var verdict := Consult(p.hostKey, p.sessionId);
      match verdict
      case Conflict(error) => return Err(error);
      case Repeated =>
        bindingFailed := false;
        return Ok([SSH_AGENT_SUCCESS]);
      case Fresh =>
        if |bindings| >= MAX_SESSION_BINDINGS { return Err(TooMany); }
        var forwarding := p.forwarding != 0;
        bindings := bindings + [Binding(p.hostKey, p.sessionId, forwarding)];
        forwarded := forwarded || forwarding;
        bindingFailed := false;
        return Ok([SSH_AGENT_SUCCESS]);
    }

    /** The loop over the recorded bindings. */
    method Consult(hostKey: Bytes, sessionId: Bytes) returns (verdict: Verdict)
      ensures verdict == Judge(bindings, hostKey, sessionId)
    {
      var i := 0;
      while i < |bindings|
        invariant 0 <= i <= |bindings|
        invariant Judge(bindings, hostKey, sessionId) == Judge(bindings[i..], hostKey, sessionId)
      {
        if !bindings[i].forwarding { return Conflict(AlreadyBound); }
        if bindings[i].sessionId == sessionId {
          return if bindings[i].hostKey == hostKey then Repeated else Conflict(OtherHostKey);
        }
        i := i + 1;
      }
      return Fresh;
    }
  }

  /** Reads an extension payload with the cursor. */
  method ReadPayload(request: Bytes) returns (p: Payload)
    ensures p == ParsePayload(request)
  {
    hide SESSION_BIND_EXTENSION, ParseBind;
    var reader := new Reader(request);
    var name := reader.String();
    if name.None? { return Unreadable; }
    if name.value != SESSION_BIND_EXTENSION { return OtherExtension; }
    p := ReadBind(reader);
  }

  method ReadBind(reader: Reader) returns (p: Payload)
    requires reader.Valid()
    modifies reader
    ensures p == ParseBind(reader.value, old(reader.at))
  {
    hide ReadStr, ReadU32;
    var hostKey := reader.String();
    if hostKey.None? { return Malformed(Truncated); }
    var sessionId := reader.String();
    if sessionId.None? { return Malformed(Truncated); }
    var signature := reader.String();
    if signature.None? { return Malformed(Truncated); }
    var flag := reader.Byte();
    if flag.None? { return Malformed(Truncated); }
    var done := reader.IsEmpty();
    if !done { return Malformed(Trailing); }
    return Bind(hostKey.value, sessionId.value, signature.value, flag.value);
  }

  /** The payload of a session-bind request, as a client writes it. */
  function BindRequest(hostKey: Bytes, sessionId: Bytes, signature: Bytes, forwarding: byte): Bytes {
    Str(SESSION_BIND_EXTENSION) + (Str(hostKey) + (Str(sessionId) + (Str(signature) + [forwarding])))
  }

  /** A payload is read as a bind request exactly when it is that request, byte for byte. */
  lemma BindExactly(data: Bytes, hostKey: Bytes, sessionId: Bytes, signature: Bytes, forwarding: byte)
    requires |data| < U32_LIMIT
    ensures ParsePayload(data) == Bind(hostKey, sessionId, signature, forwarding)
       <==> data == BindRequest(hostKey, sessionId, signature, forwarding)
  {
    if ParsePayload(data) == Bind(hostKey, sessionId, signature, forwarding) {
      BindParsed(data);
    }
    if data == BindRequest(hostKey, sessionId, signature, forwarding) {
      BindReadBack(hostKey, sessionId, signature, forwarding);
    }
  }

  lemma BindParsed(data: Bytes)
    requires ParsePayload(data).Bind?
    ensures var p := ParsePayload(data); data == BindRequest(p.hostKey, p.sessionId, p.signature, p.forwarding)
  {
    hide SESSION_BIND_EXTENSION, ReadStr, Str;
    var p := ParsePayload(data);
    var at1 := 4 + |SESSION_BIND_EXTENSION|;
    var at2 := at1 + 4 + |p.hostKey|;
    var at3 := at2 + 4 + |p.sessionId|;
    StrRead(data, 0);
    StrRead(data, at1);
    StrRead(data, at2);
    StrRead(data, at3);
    assert data == data[0..];
    assert data[at3 + 4 + |p.signature|..] == [p.forwarding];
  }

  lemma BindReadBack(hostKey: Bytes, sessionId: Bytes, signature: Bytes, forwarding: byte)
    requires |BindRequest(hostKey, sessionId, signature, forwarding)| < U32_LIMIT
    ensures ParsePayload(BindRequest(hostKey, sessionId, signature, forwarding))
         == Bind(hostKey, sessionId, signature, forwarding)
  {
    var name := SESSION_BIND_EXTENSION;
    StrLength(name);
    StrLength(hostKey);
    StrLength(sessionId);
    StrLength(signature);
    hide SESSION_BIND_EXTENSION, ReadStr, Str;
    var data := BindRequest(hostKey, sessionId, signature, forwarding);
    var at1 := 4 + |name|;
    var at2 := at1 + 4 + |hostKey|;
    var at3 := at2 + 4 + |sessionId|;
    assert data[0..] == data;
    StrAt(data, 0, name, Str(hostKey) + (Str(sessionId) + (Str(signature) + [forwarding])));
    StrAt(data, at1, hostKey, Str(sessionId) + (Str(signature) + [forwarding]));
    StrAt(data, at2, sessionId, Str(signature) + [forwarding]);
    StrAt(data, at3, signature, [forwarding]);
  }

  // ----- the shape of the bindings

  predicate Verified(verifies: Verifier, b: Binding, signature: Bytes) {
    verifies(b.hostKey, b.sessionId, signature)
  }

  ghost predicate HasSignature(verifies: Verifier, b: Binding) {
    exists signature :: Verified(verifies, b, signature)
  }

  predicate Forwards(b: Binding) {
    b.forwarding
  }

  /** At most 16 bindings, distinct verified session ids of 1 to 128 bytes, all but the last forwarding. */
  ghost predicate WellShaped(verifies: Verifier, bindings: seq<Binding>) {
    && |bindings| <= MAX_SESSION_BINDINGS
    && (forall b | b in bindings :: 1 <= |b.sessionId| <= MAX_SESSION_ID && HasSignature(verifies, b))
    && (forall i, j | 0 <= i < j < |bindings| :: bindings[i].sessionId != bindings[j].sessionId)
    && (forall i | 0 <= i < |bindings| - 1 :: Forwards(bindings[i]))
  }

  predicate AnyForwards(bindings: seq<Binding>) {
    exists b | b in bindings :: Forwards(b)
  }

  ghost predicate WellBound(verifies: Verifier, c: Context) {
    WellShaped(verifies, c.bindings) && (c.forwarded <==> AnyForwards(c.bindings))
  }

  /** A request is new exactly when every binding forwards and none has its session id. */
  lemma {:induction false} JudgeFresh(bindings: seq<Binding>, hostKey: Bytes, sessionId: Bytes)
    ensures Judge(bindings, hostKey, sessionId).Fresh?
       <==> forall b | b in bindings :: b.forwarding && b.sessionId != sessionId
  {
    if bindings != [] {
      JudgeFresh(bindings[1..], hostKey, sessionId);
      assert forall b :: b in bindings <==> b == bindings[0] || b in bindings[1..];
    }
  }

  lemma AppendKeepsShape(verifies: Verifier, bindings: seq<Binding>, added: Binding, signature: Bytes)
    requires WellShaped(verifies, bindings) && |bindings| < MAX_SESSION_BINDINGS
    requires 1 <= |added.sessionId| <= MAX_SESSION_ID && Verified(verifies, added, signature)
    requires forall b | b in bindings :: b.forwarding && b.sessionId != added.sessionId
    ensures WellShaped(verifies, bindings + [added])
    ensures AnyForwards(bindings + [added]) <==> AnyForwards(bindings) || added.forwarding
  {
    var all := bindings + [added];
    assert forall b :: b in all <==> b in bindings || b == added;
    assert HasSignature(verifies, added);
    assert forall i | 0 <= i < |bindings| :: all[i] in bindings;
    assert AnyForwards(bindings) || added.forwarding ==> AnyForwards(all);
  }

  lemma ExtensionKeepsShape(verifies: Verifier, c: Context, data: Bytes)
    requires WellBound(verifies, c)
    ensures WellBound(verifies, Extension(verifies, c, data).0)
  {
    hide ParsePayload, Judge, WellShaped, AnyForwards;
    var next := Extension(verifies, c, data).0;
    var p := ParsePayload(data);
    if |next.bindings| > |c.bindings| {
      var added := Binding(p.hostKey, p.sessionId, p.forwarding != 0);
      JudgeFresh(c.bindings, p.hostKey, p.sessionId);
      AppendKeepsShape(verifies, c.bindings, added, p.signature);
    }
  }

  /** A binding that forwards is recorded for this session id and host key. */
  predicate Repeats(bindings: seq<Binding>, p: Payload)
    requires p.Bind?
  {
    exists b | b in bindings :: b.forwarding && b.sessionId == p.sessionId && b.hostKey == p.hostKey
  }

  /** All bindings forward, none has this session id, and there is room for one more. */
  predicate Adds(bindings: seq<Binding>, p: Payload)
    requires p.Bind?
  {
    |bindings| < 16 && forall b | b in bindings :: b.forwarding && b.sessionId != p.sessionId
  }

  lemma {:induction false} JudgeRepeats(bindings: seq<Binding>, p: Payload)
    requires p.Bind?
    requires forall i, j | 0 <= i < j < |bindings| :: bindings[i].sessionId != bindings[j].sessionId
    requires forall i | 0 <= i < |bindings| - 1 :: bindings[i].forwarding
    ensures Judge(bindings, p.hostKey, p.sessionId).Repeated? <==> Repeats(bindings, p)
  {
    if bindings != [] {
      var rest := bindings[1..];
      assert forall b :: b in bindings <==> b == bindings[0] || b in rest;
      JudgeRepeats(rest, p);
      forall b | b in rest ensures b.sessionId != bindings[0].sessionId {
        var i :| 0 <= i < |rest| && rest[i] == b;
        assert bindings[i + 1] == b;
      }
      if !bindings[0].forwarding { assert rest == []; }
    }
  }

  /** A complete payload with a session id of 1 to 128 bytes and a valid signature. */
  predicate Proves(verifies: Verifier, p: Payload) {
    p.Bind? && 1 <= |p.sessionId| <= 128 && verifies(p.hostKey, p.sessionId, p.signature)
  }

  /**
   * A session-bind request succeeds exactly when it proves its session and either repeats a forwarding
   * binding or adds one. It adds the binding it names; every other attempt leaves the list and fails.
   */
  lemma BindSucceedsExactly(verifies: Verifier, c: Context, data: Bytes)
    requires WellBound(verifies, c) && IsAttempt(data)
    ensures var p := ParsePayload(data);
            var (next, answer) := Extension(verifies, c, data);
            && (answer == Ok([6]) <==> Proves(verifies, p) && (Repeats(c.bindings, p) || Adds(c.bindings, p)))
            && (next.bindingFailed <==> answer != Ok([6])) && (answer != Ok([6]) ==> answer.Err?)
            && next.bindings == (if Proves(verifies, p) && Adds(c.bindings, p)
                                 then c.bindings + [Binding(p.hostKey, p.sessionId, p.forwarding != 0)]
                                 else c.bindings)
  {
    hide ParsePayload, Judge, HasSignature, AnyForwards, Repeats;
    var p := ParsePayload(data);
    if p.Bind? {
      JudgeFresh(c.bindings, p.hostKey, p.sessionId);
      JudgeRepeats(c.bindings, p);
    }
  }

  // ----- over a whole connection

  /** The context after these extension requests, in order. */
  function After(verifies: Verifier, history: seq<Bytes>): Context
    decreases |history|
  {
    if history == [] then FRESH
    else Extension(verifies, After(verifies, history[..|history| - 1]), history[|history| - 1]).0
  }

  /** A request that names the session-bind extension. */
  predicate IsAttempt(data: Bytes) {
    var p := ParsePayload(data);
    p.Malformed? || p.Bind?
  }

  predicate Succeeded(verifies: Verifier, history: seq<Bytes>, i: nat)
    requires i < |history|
  {
    Extension(verifies, After(verifies, history[..i]), history[i]).1 == Ok([SSH_AGENT_SUCCESS])
  }

  predicate IsLastAttempt(history: seq<Bytes>, i: nat) {
    i < |history| && IsAttempt(history[i]) && forall j | i < j < |history| :: !IsAttempt(history[j])
  }

  lemma {:induction false} ShapeAlways(verifies: Verifier, history: seq<Bytes>)
    ensures WellBound(verifies, After(verifies, history))
    decreases |history|
  {
    hide Extension, WellBound;
    if history == [] {
      FreshShape(verifies);
    } else {
      ShapeAlways(verifies, history[..|history| - 1]);
      ExtensionKeepsShape(verifies, After(verifies, history[..|history| - 1]), history[|history| - 1]);
    }
  }

  lemma FreshShape(verifies: Verifier)
    ensures WellBound(verifies, FRESH)
  {
  }

  lemma ExtensionAppends(verifies: Verifier, c: Context, data: Bytes)
    ensures c.bindings <= Extension(verifies, c, data).0.bindings
    ensures (exists b | b in c.bindings :: !b.forwarding) ==> Extension(verifies, c, data).0.bindings == c.bindings
  {
    hide ParsePayload, Judge;
    var p := ParsePayload(data);
    if p.Bind? { JudgeFresh(c.bindings, p.hostKey, p.sessionId); }
  }

  /** The list of bindings only grows, and is final once a binding does not forward. */
  lemma {:induction false} BindingsGrow(verifies: Verifier, history: seq<Bytes>, k: nat)
    requires k <= |history|
    ensures var earlier := After(verifies, history[..k]).bindings;
            && earlier <= After(verifies, history).bindings
            && ((exists b | b in earlier :: !b.forwarding) ==> After(verifies, history).bindings == earlier)
    decreases |history| - k
  {
    hide Extension, After;
    if k == |history| {
      assert history[..k] == history;
    } else {
      assert history[..k + 1][..k] == history[..k];
      AfterStep(verifies, history[..k], history[k]);
      assert history[..k] + [history[k]] == history[..k + 1];
      ExtensionAppends(verifies, After(verifies, history[..k]), history[k]);
      BindingsGrow(verifies, history, k + 1);
    }
  }

  lemma AfterStep(verifies: Verifier, history: seq<Bytes>, data: Bytes)
    ensures After(verifies, history + [data]) == Extension(verifies, After(verifies, history), data).0
  {
    assert (history + [data])[..|history|] == history;
  }

  /** What one request does to the failure flag. */
  lemma ExtensionFlag(verifies: Verifier, c: Context, data: Bytes)
    ensures var (next, answer) := Extension(verifies, c, data);
            && (IsAttempt(data) ==> (next.bindingFailed <==> answer != Ok([SSH_AGENT_SUCCESS])))
            && (!IsAttempt(data) ==> next == c && answer != Ok([SSH_AGENT_SUCCESS]))
  {
    hide ParsePayload, Record;
  }

  /** The flag says exactly that the most recent session-bind attempt of the connection failed. */
  lemma {:induction false} FlagMeansLastAttemptFailed(verifies: Verifier, history: seq<Bytes>)
    ensures After(verifies, history).bindingFailed
       <==> exists i: nat :: IsLastAttempt(history, i) && !Succeeded(verifies, history, i)
    decreases |history|
  {
    hide Extension, IsAttempt;
    if history != [] {
      var n := |history| - 1;
      var before := history[..n];
      ExtensionFlag(verifies, After(verifies, before), history[n]);
      if IsAttempt(history[n]) {
        assert IsLastAttempt(history, n);
        assert Succeeded(verifies, history, n) <==> !After(verifies, history).bindingFailed;
        assert forall i: nat :: IsLastAttempt(history, i) ==> i == n;
      } else {
        FlagMeansLastAttemptFailed(verifies, before);
        forall i: nat
          ensures IsLastAttempt(history, i) <==> IsLastAttempt(before, i)
          ensures IsLastAttempt(before, i) ==> Succeeded(verifies, history, i) == Succeeded(verifies, before, i)
        {
          if i < n { assert before[..i] == history[..i]; }
        }
      }
    }
  }

  /** The condition under which `sign_request` lets a connection sign. */
  predicate GateOpen(c: Context) {
    !c.bindingFailed && !c.forwarded
  }

  /** The request at `i` recorded the first binding of the connection, and that one does not forward. */
  predicate BoundAt(verifies: Verifier, history: seq<Bytes>, i: nat)
    requires i < |history|
  {
    var p := ParsePayload(history[i]);
    && After(verifies, history[..i]).bindings == []
    && p.Bind? && p.forwarding == 0 && verifies(p.hostKey, p.sessionId, p.signature)
    && 1 <= |p.sessionId| <= MAX_SESSION_ID
  }

  lemma BoundAtBinds(verifies: Verifier, c: Context, data: Bytes)
    requires WellBound(verifies, c)
    ensures var p := ParsePayload(data);
            var (next, answer) := Extension(verifies, c, data);
            (c.bindings == [] && p.Bind? && p.forwarding == 0 && verifies(p.hostKey, p.sessionId, p.signature)
             && 1 <= |p.sessionId| <= MAX_SESSION_ID)
            <==> (IsAttempt(data) && answer == Ok([SSH_AGENT_SUCCESS]) && !next.forwarded)
  {
    hide ParsePayload;
    var p := ParsePayload(data);
    var (next, answer) := Extension(verifies, c, data);
    if p.Bind? && c.bindings != [] && !c.forwarded {
      assert !Forwards(c.bindings[0]);
      assert Judge(c.bindings, p.hostKey, p.sessionId) == Conflict(AlreadyBound);
    }
  }

  /**
   * A connection may sign exactly when it never attempted a session binding, or when its last attempt is
   * the one that recorded its only binding, verified and not forwarding.
   */
  lemma GateExactly(verifies: Verifier, history: seq<Bytes>)
    ensures GateOpen(After(verifies, history))
       <==> (forall i | 0 <= i < |history| :: !IsAttempt(history[i]))
            || (exists i: nat :: IsLastAttempt(history, i) && BoundAt(verifies, history, i))
  {
    hide Extension, IsAttempt, WellBound;
    LastAttemptExists(history);
    FlagMeansLastAttemptFailed(verifies, history);
    if forall i | 0 <= i < |history| :: !IsAttempt(history[i]) {
      NoAttempts(verifies, history);
    } else {
      var i: nat :| IsLastAttempt(history, i);
      assert forall j: nat :: IsLastAttempt(history, j) ==> j == i;
      QuietAfter(verifies, history, i);
      ShapeAlways(verifies, history[..i]);
      BoundAtBinds(verifies, After(verifies, history[..i]), history[i]);
    }
  }

  lemma {:induction false} LastAttemptExists(history: seq<Bytes>)
    ensures (exists i: nat :: IsLastAttempt(history, i)) || forall i | 0 <= i < |history| :: !IsAttempt(history[i])
    decreases |history|
  {
    hide IsAttempt;
    if history != [] {
      var n := |history| - 1;
      if IsAttempt(history[n]) {
        assert IsLastAttempt(history, n);
      } else {
        LastAttemptExists(history[..n]);
        if i: nat :| IsLastAttempt(history[..n], i) {
          assert IsLastAttempt(history, i);
        }
      }
    }
  }

  lemma {:induction false} NoAttempts(verifies: Verifier, history: seq<Bytes>)
    requires forall i | 0 <= i < |history| :: !IsAttempt(history[i])
    ensures After(verifies, history) == FRESH
    decreases |history|
  {
    hide Extension, IsAttempt;
    if history != [] {
      NoAttempts(verifies, history[..|history| - 1]);
      ExtensionFlag(verifies, FRESH, history[|history| - 1]);
    }
  }

  /** Nothing changes after the last attempt. */
  lemma {:induction false} QuietAfter(verifies: Verifier, history: seq<Bytes>, i: nat)
    requires IsLastAttempt(history, i)
    ensures After(verifies, history) == Extension(verifies, After(verifies, history[..i]), history[i]).0
    decreases |history|
  {
    hide Extension, IsAttempt;
    var n := |history| - 1;
    if i < n {
      assert history[..n][..i] == history[..i];
      assert IsLastAttempt(history[..n], i);
      QuietAfter(verifies, history[..n], i);
      ExtensionFlag(verifies, After(verifies, history[..n]), history[n]);
    }
  }

  /** A bound connection that may sign refuses every further binding, and then may not sign any more. */
  lemma SecondAttemptCloses(verifies: Verifier, c: Context, data: Bytes)
    requires WellBound(verifies, c) && GateOpen(c) && c.bindings != [] && IsAttempt(data)
    ensures var (next, answer) := Extension(verifies, c, data);
            answer.Err? && next.bindingFailed && next.bindings == c.bindings && !GateOpen(next)
  {
    hide ParsePayload;
    var p := ParsePayload(data);
    assert !Forwards(c.bindings[0]);
    assert p.Bind? ==> Judge(c.bindings, p.hostKey, p.sessionId) == Conflict(AlreadyBound);
  }
}
