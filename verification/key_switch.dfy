/** A key that is switched off signs again only after one of the steps that can switch it on. */
module KeySwitch {
  import opened Common
  import opened State
  import opened Session
  import opened SessionInvariants
  import opened Machine
  import opened MachineInvariant
  import opened SigningSafety

  /** An enabled entry that `authorize` takes for this key. */
  predicate IsCopy(entry: SshKey, key: SshKey) {
    entry.enabled && entry.fingerprint == key.fingerprint && entry.publicBlob == key.publicBlob
    && entry.backend == key.backend
  }

  predicate HasCopy(keys: seq<SshKey>, key: SshKey) {
    exists entry | entry in keys :: IsCopy(entry, key)
  }

  lemma AuthorizesMeans(a: App, key: SshKey)
    ensures Authorizes(a, key) <==> !a.flags.agentLocked && HasCopy(a.keys, key)
  {
    if entry :| entry in a.keys && IsCopy(entry, key) {
      assert entry.enabled && entry.fingerprint == key.fingerprint;
    }
    if k :| k in a.keys && k.enabled && k.fingerprint == key.fingerprint
            && k.publicBlob == key.publicBlob && k.backend == key.backend {
      assert IsCopy(k, key);
    }
  }

  // ----- switching off

  /** The keys behind the first one with the fingerprint. */
  function Behind(keys: seq<SshKey>, fingerprint: string): seq<SshKey> {
    if keys == [] then []
    else if keys[0].fingerprint == fingerprint then keys[1..]
    else Behind(keys[1..], fingerprint)
  }

  lemma {:induction false} ReplacedCopies(keys: seq<SshKey>, key: SshKey, updated: SshKey)
    requires Find(keys, HasFingerprint(key.fingerprint)).Some? && !IsCopy(updated, key)
    ensures HasCopy(ReplaceFirst(keys, key.fingerprint, updated), key) <==> HasCopy(Behind(keys, key.fingerprint), key)
  {
    if keys[0].fingerprint == key.fingerprint {
      assert forall e :: e in [updated] + keys[1..] <==> e == updated || e in keys[1..];
    } else {
      ReplacedCopies(keys[1..], key, updated);
      var rest := ReplaceFirst(keys[1..], key.fingerprint, updated);
      assert forall e :: e in [keys[0]] + rest <==> e == keys[0] || e in rest;
    }
  }

  /**
   * After `set_key_enabled` has switched off a listed fingerprint, the key can sign exactly if the list
   * holds another enabled entry of it behind the first: only the first is switched.
   */
  lemma SwitchOffExactly(s: Shared, key: SshKey)
    requires SetKeyEnabled(s, key.fingerprint, false).accepted
    ensures HasCopy(SetKeyEnabled(s, key.fingerprint, false).state.app.keys, key)
       <==> HasCopy(Behind(s.app.keys, key.fingerprint), key)
  {
    var found := Find(s.app.keys, HasFingerprint(key.fingerprint)).value;
    ReplacedCopies(s.app.keys, key, found.(enabled := false));
  }

  // ----- steps that bring no new entry

  /** Every listed entry was listed before. */
  predicate NoNewKeys(before: Shared, after: Shared) {
    forall entry | entry in after.app.keys :: entry in before.app.keys
  }

  lemma UnloadBringsNone(s: Shared, path: Path)
    ensures NoNewKeys(s, Unload(s, path))
  {
  }

  lemma DismissBringsNone(s: Shared)
    ensures NoNewKeys(s, DismissAuth(s))
  {
    hide Filter, Unload;
    var s1 := s.(generation := if s.app.phase == WaitingForTouch then s.generation + 1 else s.generation,
                 app := ClearPendings(s.app).(flags := s.app.flags.(unlockSequence := false)));
    if s.app.device.Some? { UnloadBringsNone(s1, s.app.device.value.path); }
  }

  lemma CreationBringsNone(s: Shared, name: string, algorithm: Algorithm, devicePath: Option<Path>)
    ensures NoNewKeys(s, RequestCreation(s, name, algorithm, devicePath).state)
  {
    hide Find, Unload, ChosenDevice;
    var target := ChosenDevice(s.app, devicePath);
    if target.Some? { UnloadBringsNone(AskCreation(s, target.value, name, algorithm, false), target.value.path); }
  }

  lemma DeviceUnlockBringsNone(s: Shared, path: Path)
    ensures NoNewKeys(s, RequestDeviceUnlock(s, path).state)
  {
    hide Find, Unload;
    UnloadBringsNone(s, path);
  }

  lemma UnlockBringsNone(s: Shared)
    ensures NoNewKeys(s, RequestUnlock(s).state)
  {
    hide Find, AllUnlocked;
  }

  lemma LabelBringsNone(s: Shared, path: Path, name: Option<string>, saved: bool)
    ensures NoNewKeys(s, SetSecurityKeyLabel(s, path, name, saved).state)
  {
  }

  lemma HandleBringsNone(s: Shared, request: Request)
    ensures NoNewKeys(s, HandleShared(s, request))
  {
    hide Find, RequestUnlock, RequestDeviceUnlock, DismissAuth, RequestCreation, RequestDeletion, SetSecurityKeyLabel;
    match request
    case Unlock => UnlockBringsNone(s);
    case DeviceUnlock(path) => DeviceUnlockBringsNone(s, path);
    case SetLabel(path, name, saved) => LabelBringsNone(s, path, name, saved);
    case Dismiss => DismissBringsNone(s);
    case Create(name, algorithm, devicePath) => CreationBringsNone(s, name, algorithm, devicePath);
    case Delete(fingerprint) => RequestDeletionKeeps(s, fingerprint);
    case Reload =>
  }

  lemma ScanBringsNone(s: Shared, task: Option<Task>, a: ScanAction)
    ensures NoNewKeys(s, ScanShared(s, task, a))
  {
    hide ScanFound;
    match (task, a)
    case (Some(Scanning(earlier, initial, Detected(Ok(devices)))), ScanEnd) =>
      FoundBringsNone(s, earlier, initial, devices);
    case _ =>
  }

  lemma FoundBringsNone(s: Shared, earlier: seq<Path>, initial: bool, devices: seq<DeviceInfo>)
    ensures NoNewKeys(s, ScanFound(s, earlier, initial, devices))
  {
    hide Find, Paths, ActiveDevice, SettledPhase, PromptAllowed, OperationInProgress, AllUnlocked;
    assert ScanFound(s, earlier, initial, devices).app.keys == Pruned(s, Paths(devices)).app.keys;
  }

  lemma SignBringsNone(s: Shared, task: Option<Task>, a: SignAction)
    ensures NoNewKeys(s, SignShared(s, task, a))
  {
    hide Find;
  }

  // ----- steps that may switch a key on

  /**
   * The key is switched on by its fingerprint, or an enabled entry of it is put into the list by the end of
   * an operation, of a rename or of a creation.
   */
  predicate SwitchesOn(s: Sys, l: Label, key: SshKey) {
    match (TaskOf(s, l.tid), l.action)
    case (Some(Toggling(fingerprint, enabled)), Lock(ToggleEnd(saved))) =>
      enabled && saved && fingerprint == key.fingerprint
    case (Some(Operating(_, Answered(outcome))), Operate(OpEnd)) => outcome.Ok? && HasCopy(outcome.value, key)
    case (Some(RenameAnswered(_, _, updated)), Rename(RenameEnd)) => updated.Ok? && IsCopy(updated.value, key)
    case (Some(EnclaveAnswered(CreateKey(created))), EnclaveStep(EnclaveEnd)) => IsCopy(created, key)
    case _ => false
  }

  lemma SwitchBrings(s: Shared, fingerprint: string, enabled: bool, key: SshKey)
    requires HasCopy(SetKeyEnabled(s, fingerprint, enabled).state.app.keys, key) && !HasCopy(s.app.keys, key)
    ensures enabled && fingerprint == key.fingerprint
  {
    hide ReplaceFirst;
    var found := Find(s.app.keys, HasFingerprint(fingerprint));
    if found.Some? { ReplaceFirstMembers(s.app.keys, fingerprint, found.value.(enabled := enabled)); }
  }

  lemma LockBrings(s: Shared, task: Option<Task>, a: LockAction, key: SshKey)
    requires LockFits(s, task, a) && HasCopy(LockShared(s, task, a).app.keys, key) && !HasCopy(s.app.keys, key)
    ensures a == ToggleEnd(true) && task.value.enabled && task.value.fingerprint == key.fingerprint
  {
    hide Find, SetKeyEnabled, HasCopy;
    match (task, a)
    case (Some(Toggling(fingerprint, enabled)), ToggleEnd(true)) => SwitchBrings(s, fingerprint, enabled, key);
    case _ => LockBringsNone(s, task, a, key);
  }

  lemma LockBringsNone(s: Shared, task: Option<Task>, a: LockAction, key: SshKey)
    requires LockFits(s, task, a) && a != ToggleEnd(true) && !HasCopy(s.app.keys, key)
    ensures !HasCopy(LockShared(s, task, a).app.keys, key)
  {
    hide Find;
  }

  lemma OperationBrings(s: Shared, task: Option<Task>, a: OperationAction, key: SshKey)
    requires OperationFits(s, task, a)
    requires HasCopy(OperationShared(s, task, a).app.keys, key) && !HasCopy(s.app.keys, key)
    ensures a.OpEnd? && task.value.opStep.outcome.Ok? && HasCopy(task.value.opStep.outcome.value, key)
  {
    hide Find, AllUnlocked, BeginOperation, FinishFailed;
    match (task, a)
    case (_, OpBegin(pin)) => BeginKeeps(s, pin);
    case (Some(Operating(op, Answered(Ok(loaded)))), OpEnd) =>
      assert forall entry | entry in FinishSucceeded(s, op, loaded).app.keys :: entry in s.app.keys || entry in loaded;
    case (Some(Operating(op, Answered(Err(failure)))), OpEnd) => FinishFailedKeeps(s, op, failure);
    case _ =>
  }

  lemma RenameBrings(s: Shared, task: Option<Task>, a: RenameAction, key: SshKey)
    requires RenameFits(s, task, a)
    requires HasCopy(RenameShared(s, task, a).app.keys, key) && !HasCopy(s.app.keys, key)
    ensures a.RenameEnd? && task.value.updated.Ok? && IsCopy(task.value.updated.value, key)
  {
    hide Find, RenamePrompt, ReplaceFirst;
    match (task, a)
    case (Some(RenameChecked(found, name, _)), RenameAsk) =>
      RenamePromptKeeps(s, found.devicePath.value, found.fingerprint, name);
    case (Some(RenameAnswered(found, _, updated)), RenameEnd) =>
      if updated.Ok? { ReplaceFirstMembers(s.app.keys, found.fingerprint, updated.value); }
    case _ =>
  }

  lemma EnclaveBrings(s: Shared, task: Option<Task>, a: EnclaveAction, key: SshKey)
    requires EnclaveFits(task, a)
    requires HasCopy(EnclaveShared(s, task, a).app.keys, key) && !HasCopy(s.app.keys, key)
    ensures a.EnclaveEnd? && task.value.work.CreateKey? && IsCopy(task.value.work.key, key)
  {
    assert forall entry | entry in EnclaveShared(s, task, a).app.keys ::
        entry in s.app.keys || (a.EnclaveEnd? && task.value.work.CreateKey? && entry == task.value.work.key);
  }

  /** No other step lets a key sign that could not. */
  lemma OnlyTheseSwitchOn(s: Sys, l: Label, key: SshKey)
    requires Enabled(s, l) && !HasCopy(s.shared.app.keys, key) && HasCopy(After(s, l).shared.app.keys, key)
    ensures SwitchesOn(s, l, key)
  {
    hide LockShared, OperationShared, ScanShared, HandleShared, SignShared, RenameShared, EnclaveShared, Needs,
      NextTask, IsCopy;
    var task := TaskOf(s, l.tid);
    match l.action
    case Lock(a) => LockBrings(s.shared, task, a, key);
    case Operate(a) => OperationBrings(s.shared, task, a, key);
    case Scan(a) => ScanBringsNone(s.shared, task, a);
    case Handle(request) => HandleBringsNone(s.shared, request);
    case Sign(a) => SignBringsNone(s.shared, task, a);
    case Rename(a) => RenameBrings(s.shared, task, a, key);
    case EnclaveStep(a) => EnclaveBrings(s.shared, task, a, key);
    case SetPolicy(_) =>
  }

  lemma {:induction false} OffUntilSwitchedOn(r: Run, a: nat, b: nat, key: SshKey)
    requires ValidRun(r) && a <= b < |r.states| && !HasCopy(r.states[a].shared.app.keys, key)
    requires forall c | a <= c < b :: !SwitchesOn(r.states[c], r.labels[c], key)
    ensures !HasCopy(r.states[b].shared.app.keys, key)
    decreases b - a
  {
    hide Enabled, After, Initial, HasCopy, SwitchesOn;
    if a < b {
      OffUntilSwitchedOn(r, a, b - 1, key);
      var s, l := r.states[b - 1], r.labels[b - 1];
      assert Enabled(s, l) && r.states[b] == After(s, l);
      if HasCopy(After(s, l).shared.app.keys, key) { OnlyTheseSwitchOn(s, l, key); }
    }
  }

  /** In every run, a key without an enabled entry signs only after a step that switched it on. */
  lemma NoSignatureWhileOff(r: Run, a: nat, b: nat, t: Tid, key: SshKey, credential: Option<Pin>)
    requires ValidRun(r) && a <= b < |r.states| && !HasCopy(r.states[a].shared.app.keys, key)
    requires InHardware(r.states[b], t, key, credential)
    ensures exists c: nat :: a <= c < b && SwitchesOn(r.states[c], r.labels[c], key)
  {
    hide ValidRun, InHardware, HasCopy, SwitchesOn, Authorizes;
    assert |r.states| == |r.labels| + 1 by { RunLength(r); }
    SignatureAuthorized(r, b, t, key, credential);
    AuthorizesMeans(r.states[b].shared.app, key);
    if forall c: nat | a <= c < b :: !SwitchesOn(r.states[c], r.labels[c], key) {
      OffUntilSwitchedOn(r, a, b, key);
    }
  }
}
