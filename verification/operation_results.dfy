/** What a FIDO2 operation takes along when it begins, and what its end, good or bad, leaves pending. */
module OperationResults {
  import opened Common
  import opened State
  import opened Session
  import opened SessionInvariants
  import opened Machine
  import opened MachineInvariant

  // ----- begin

  /** The first entry of the list that is on a FIDO2 device and has the fingerprint. */
  predicate FirstFido(keys: seq<SshKey>, fingerprint: string, key: SshKey) {
    exists i | 0 <= i < |keys| ::
      && keys[i] == key && key.backend == Fido2 && key.fingerprint == fingerprint
      && forall j | 0 <= j < i :: !(keys[j].backend == Fido2 && keys[j].fingerprint == fingerprint)
  }

  predicate HasFido(keys: seq<SshKey>, fingerprint: string) {
    exists key | key in keys :: key.backend == Fido2 && key.fingerprint == fingerprint
  }

  lemma {:induction false} FindsFirst(keys: seq<SshKey>, fingerprint: string)
    ensures var found := Find(keys, FidoFingerprint(fingerprint));
            && (found.Some? <==> HasFido(keys, fingerprint))
            && (found.Some? ==> FirstFido(keys, fingerprint, found.value))
  {
    if keys != [] && !FidoFingerprint(fingerprint)(keys[0]) {
      var rest := keys[1..];
      FindsFirst(rest, fingerprint);
      assert forall key :: key in keys <==> key == keys[0] || key in rest;
      var found := Find(rest, FidoFingerprint(fingerprint));
      if found.Some? { FirstLater(keys, fingerprint, found.value); }
    } else if keys != [] {
      assert keys[0] in keys;
    }
  }

  lemma FirstLater(keys: seq<SshKey>, fingerprint: string, key: SshKey)
    requires keys != [] && !(keys[0].backend == Fido2 && keys[0].fingerprint == fingerprint)
    requires FirstFido(keys[1..], fingerprint, key)
    ensures FirstFido(keys, fingerprint, key)
  {
    var rest := keys[1..];
    var i :| 0 <= i < |rest| && rest[i] == key && key.backend == Fido2 && key.fingerprint == fingerprint
             && forall j | 0 <= j < i :: !(rest[j].backend == Fido2 && rest[j].fingerprint == fingerprint);
    assert keys[i + 1] == key;
    assert forall j | 0 < j < i + 1 :: keys[j] == rest[j - 1];
  }

  /** The operation is the pending request itself: its device, name, algorithm, and the listed key it is about. */
  predicate TakesAlong(a: App, pin: Pin, op: Operation) {
    && a.device.Some? && op.path == a.device.value.path && op.pin == pin
    && op.creating == a.pendingCreation
    && (a.pendingAlgorithm.Some? ==> op.algorithm == a.pendingAlgorithm.value)
    && (a.pendingAlgorithm.None? ==> op.algorithm == Ed25519Sk)
    && (op.deleting.Some? <==> a.pendingDeletion.Some?)
    && (op.deleting.Some? ==> FirstFido(a.keys, a.pendingDeletion.value, op.deleting.value))
    && (op.renaming.Some? <==> a.pendingRename.Some?)
    && (op.renaming.Some? ==> FirstFido(a.keys, a.pendingRename.value.fingerprint, op.renaming.value.0)
                              && op.renaming.value.1 == a.pendingRename.value.name)
  }

  /** A target device, and the key of a pending deletion or rename still listed. */
  predicate Beginnable(a: App) {
    && a.device.Some?
    && (a.pendingDeletion.Some? ==> HasFido(a.keys, a.pendingDeletion.value))
    && (a.pendingRename.Some? ==> HasFido(a.keys, a.pendingRename.value.fingerprint))
  }

  lemma BeginTakesAlong(s: Shared, pin: Pin)
    ensures BeginOperation(s, pin).Begun? <==> Beginnable(s.app)
    ensures Beginnable(s.app) ==>
              var b := BeginOperation(s, pin);
              && TakesAlong(s.app, pin, b.op)
              && b.state == s.(app := s.app.(phase := b.state.app.phase, error := None))
              && b.state.app.phase == (if s.app.pendingCreation.Some? || s.app.pendingDeletion.Some?
                                       then WaitingForTouch else Loading)
  {
    hide Find, FirstFido, HasFido;
    if s.app.pendingDeletion.Some? { FindsFirst(s.app.keys, s.app.pendingDeletion.value); }
    if s.app.pendingRename.Some? { FindsFirst(s.app.keys, s.app.pendingRename.value.fingerprint); }
  }

  // ----- a failed end

  predicate SamePendings(a: App, b: App) {
    && b.pendingCreation == a.pendingCreation && b.pendingAlgorithm == a.pendingAlgorithm
    && b.pendingDeletion == a.pendingDeletion && b.pendingRename == a.pendingRename
  }

  /** The session of the device at `path` is over: its PIN and its place among the unlocked paths, nothing else. */
  ghost predicate EndsSession(before: Shared, after: Shared, path: Path) {
    && (forall p :: p in after.pins <==> p in before.pins && p != path)
    && (forall p | p in after.pins :: after.pins[p] == before.pins[p])
    && after.app.unlockedPaths == Filter(before.app.unlockedPaths, OtherPath(path))
    && (forall p :: p in after.app.unlockedPaths <==> p in before.app.unlockedPaths && p != path)
    && !after.app.flags.fidoSessionUnlocked
  }

  /** What a failed operation leaves, by error. */
  predicate FailureLeaves(a: App, b: App, op: Operation, failure: Failure) {
    if failure == InvalidPin then SamePendings(a, b) && b.phase == NeedsPin
    else
      && b.phase == Error
      && b.pendingCreation == None && b.pendingAlgorithm == None
      && b.pendingDeletion == (if op.deleting.Some? then a.pendingDeletion else None)
      && b.pendingRename == (if op.renaming.Some? then a.pendingRename else None)
  }

  predicate IsEnding(s: Sys, l: Label, op: Operation, outcome: Result<seq<SshKey>, Failure>) {
    && l.action == Operate(OpEnd)
    && l.tid in s.tasks && s.tasks[l.tid] == Operating(op, Answered(outcome))
  }

  lemma EndEffect(s: Sys, l: Label, op: Operation, outcome: Result<seq<SshKey>, Failure>)
    requires IsEnding(s, l, op, outcome)
    ensures After(s, l).shared == FinishOperation(s.shared, op, outcome)
  {
    hide FinishOperation;
  }

  lemma FinishFailedLeaves(s: Shared, op: Operation, failure: Failure)
    ensures var after := FinishOperation(s, op, Err(failure));
            && FailureLeaves(s.app, after.app, op, failure)
            && EndsSession(s, after, op.path)
            && after.app.error == Some(failure) && after.app.device == s.app.device
            && after.app.keys == s.app.keys && after.app.devices == s.app.devices
            && after.app.securityNotice == s.app.securityNotice
            && after.app.flags == s.app.flags.(fidoSessionUnlocked := false)
  {
    hide Filter;
  }

  /**
   * The end of a failed operation: a wrong PIN leaves every request, the target and the prompt as they are;
   * any other error drops a creation with its algorithm, and a deletion or rename that it was not about.
   */
  lemma FailedEnd(s: Sys, l: Label, op: Operation, failure: Failure)
    requires Enabled(s, l) && IsEnding(s, l, op, Err(failure))
    ensures var before, after := s.shared, After(s, l).shared;
            && FailureLeaves(before.app, after.app, op, failure)
            && EndsSession(before, after, op.path)
            && after.app.error == Some(failure) && after.app.device == before.app.device
            && after.app.keys == before.app.keys && after.app.devices == before.app.devices
  {
    hide Enabled, After, FailureLeaves, EndsSession, FinishOperation;
    EndEffect(s, l, op, Err(failure));
    FinishFailedLeaves(s.shared, op, failure);
  }

  /** The same target, keys and requests. */
  predicate SameWork(a: App, b: App) {
    DevicePath(a.device) == DevicePath(b.device) && a.keys == b.keys && SamePendings(a, b)
  }

  lemma SameWorkBegins(a: Shared, b: Shared, pin: Pin, other: Pin)
    requires SameWork(a.app, b.app) && BeginOperation(a, pin).Begun?
    ensures BeginOperation(b, other).Begun?
    ensures BeginOperation(b, other).op == BeginOperation(a, pin).op.(pin := other)
  {
    hide Find;
  }

  /**
   * The retry: an operation that began in state `a` fails on its PIN in state `b`. As long as target, keys
   * and requests stay the same, before and after, the next PIN begins the very same operation.
   */
  lemma WrongPinRetries(a: Shared, pin: Pin, b: Shared, c: Shared, retry: Pin)
    requires BeginOperation(a, pin).Begun? && SameWork(a.app, b.app)
    requires SameWork(FinishOperation(b, BeginOperation(a, pin).op, Err(InvalidPin)).app, c.app)
    ensures BeginOperation(c, retry).Begun?
    ensures BeginOperation(c, retry).op == BeginOperation(a, pin).op.(pin := retry)
  {
    hide BeginOperation, FinishOperation, EndsSession;
    FinishFailedLeaves(b, BeginOperation(a, pin).op, InvalidPin);
    SameWorkBegins(a, c, pin, retry);
  }

  // ----- a good end

  /** A connected FIDO2 device whose path is not among these. */
  predicate SomeLocked(devices: seq<DeviceInfo>, unlocked: seq<Path>) {
    exists d | d in devices :: d.fido2 && d.path !in unlocked
  }

  /** What a successful operation leaves apart from the keys. */
  ghost predicate SuccessLeaves(before: Shared, after: Shared, op: Operation) {
    var a, b := before.app, after.app;
    var goesOn := op.NormalUnlock() && a.flags.unlockSequence && SomeLocked(a.devices, b.unlockedPaths);
    && after.pins == before.pins[op.path := op.pin]
    && (forall p :: p in b.unlockedPaths <==> p in a.unlockedPaths || p == op.path)
    && b.pendingCreation == None && b.pendingAlgorithm == None && b.pendingDeletion == None && b.pendingRename == None
    && b.error == None && b.securityNotice == None && b.devices == a.devices
    && b.phase == (if goesOn then NeedsPin else Ready)
    && (b.flags.unlockSequence <==> goesOn)
    && (b.flags.fidoSessionUnlocked <==> !SomeLocked(a.devices, b.unlockedPaths))
    && b.flags.agentRunning && b.flags.agentLocked == a.flags.agentLocked
    && (if goesOn then b.device.Some? && b.device.value in a.devices && b.device.value.fido2
                       && b.device.value.path !in b.unlockedPaths
        else if op.path in Paths(a.devices) then b.device.Some? && b.device.value in a.devices
                                                 && b.device.value.path == op.path
        else b.device == None)
  }

  lemma FinishSucceededLeaves(s: Shared, op: Operation, loaded: seq<SshKey>)
    ensures SuccessLeaves(s, FinishSucceeded(s, op, loaded), op)
  {
    hide Filter, Find, Paths;
    var after := FinishSucceeded(s, op, loaded).app;
    assert forall p :: p in after.unlockedPaths <==> p in s.app.unlockedPaths || p == op.path;
    LockedFound(s.app.devices, after.unlockedPaths);
    PathAmong(s.app.devices, op.path);
    assert AllUnlocked(s.app.devices, after.unlockedPaths) <==> !SomeLocked(s.app.devices, after.unlockedPaths);
  }

  lemma LockedFound(devices: seq<DeviceInfo>, unlocked: seq<Path>)
    ensures var found := Find(devices, StillLocked(unlocked));
            && (found.Some? <==> SomeLocked(devices, unlocked))
            && (found.Some? ==> found.value in devices && found.value.fido2 && found.value.path !in unlocked)
  {
    hide Find;
    var found := Find(devices, StillLocked(unlocked));
    assert found.None? ==> forall d | d in devices :: !StillLocked(unlocked)(d);
  }

  lemma PathAmong(devices: seq<DeviceInfo>, path: Path)
    ensures var found := Find(devices, AtPath(path));
            && (found.Some? <==> path in Paths(devices))
            && (found.Some? ==> found.value in devices && found.value.path == path)
  {
    hide Find, Paths;
    var found := Find(devices, AtPath(path));
    assert found.None? ==> forall d | d in devices :: !AtPath(path)(d);
  }

  /** The end of a successful operation; which keys it replaces is a theorem of its own. */
  lemma SucceededEnd(s: Sys, l: Label, op: Operation, loaded: seq<SshKey>)
    requires Enabled(s, l) && IsEnding(s, l, op, Ok(loaded))
    ensures SuccessLeaves(s.shared, After(s, l).shared, op)
  {
    hide Enabled, After, SuccessLeaves, FinishSucceeded;
    EndEffect(s, l, op, Ok(loaded));
    FinishSucceededLeaves(s.shared, op, loaded);
  }
}
