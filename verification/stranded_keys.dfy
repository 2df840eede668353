/**
 * "A loaded FIDO2 key means an unlocked device." It does not hold always: three requests and two endings
 * take a device out of the unlocked ones and leave its keys listed. Here is exactly when that happens.
 */
module StrandedKeys {
  import opened Common
  import opened State
  import opened Session
  import opened SessionInvariants
  import opened Machine
  import opened MachineInvariant

  /** The key, if it is on a FIDO2 device, is on an unlocked one. */
  predicate OnUnlocked(key: SshKey, unlocked: seq<Path>) {
    key.backend == Fido2 ==> key.devicePath.Some? && key.devicePath.value in unlocked
  }

  predicate KeysUnlocked(s: Shared) {
    forall key | key in s.app.keys :: OnUnlocked(key, s.app.unlockedPaths)
  }

  predicate KeepsKeysUnlocked(before: Shared, after: Shared) {
    KeysUnlocked(before) ==> KeysUnlocked(after)
  }

  /** A FIDO2 key of the device at `path` is listed. */
  predicate Listed(s: Shared, path: Path) {
    exists key | key in s.app.keys :: key.backend == Fido2 && key.devicePath == Some(path)
  }

  // ----- sections that drop a device and keep its keys

  lemma DropSessionKeys(s: Shared, path: Path)
    requires KeysUnlocked(s)
    ensures KeysUnlocked(DropSession(s, path)) <==> !Listed(s, path)
  {
    var after := DropSession(s, path);
    assert forall p :: p in after.app.unlockedPaths <==> p in s.app.unlockedPaths && OtherPath(path)(p);
    if key :| key in s.app.keys && key.backend == Fido2 && key.devicePath == Some(path) {
      assert !OnUnlocked(key, after.app.unlockedPaths);
    }
  }

  /** The deletion is accepted and the cached session is not used for it. */
  predicate DeletionDrops(s: Shared, fingerprint: string) {
    var key := Find(s.app.keys, FidoFingerprint(fingerprint));
    && RequestDeletion(s, fingerprint).accepted
    && key.Some? && key.value.devicePath.Some?
    && (s.policy.requireForDelete || key.value.devicePath.value !in s.pins)
  }

  lemma DeletionKeys(s: Shared, fingerprint: string)
    requires KeysUnlocked(s)
    ensures KeysUnlocked(RequestDeletion(s, fingerprint).state) <==> !DeletionDrops(s, fingerprint)
  {
    hide Find, DropSession;
    var found := Find(s.app.keys, FidoFingerprint(fingerprint));
    if found.Some? && found.value.devicePath.Some? {
      var path := found.value.devicePath.value;
      var device := Find(s.app.devices, AtPath(path));
      if device.Some? {
        var asked := AskDeletion(s, device.value, fingerprint, false);
        assert found.value in asked.app.keys;
        assert Listed(asked, path);
        DropSessionKeys(asked, path);
      }
    }
  }

  lemma RenamePromptKeys(s: Shared, path: Path, fingerprint: string, name: string)
    requires KeysUnlocked(s)
    ensures KeysUnlocked(RenamePrompt(s, path, fingerprint, name).state)
       <==> !(RenamePrompt(s, path, fingerprint, name).accepted && Listed(s, path))
  {
    hide Find, DropSession;
    var device := Find(s.app.devices, AtPath(path));
    if device.Some? {
      var asked := AskRename(s, device.value, fingerprint, name);
      assert Listed(asked, path) <==> Listed(s, path);
      DropSessionKeys(asked, path);
    }
  }

  lemma FinishFailedKeys(s: Shared, op: Operation, failure: Failure)
    requires KeysUnlocked(s)
    ensures KeysUnlocked(FinishFailed(s, op, failure)) <==> !Listed(s, op.path)
  {
    DropSessionKeys(s, op.path);
    assert FinishFailed(s, op, failure).app.unlockedPaths == DropSession(s, op.path).app.unlockedPaths;
    assert FinishFailed(s, op, failure).app.keys == s.app.keys;
  }

  // ----- a rename puts its key back

  /** The rename succeeded, its key is still listed, and the key's device is not unlocked. */
  predicate RenameStrands(s: Shared, fingerprint: string, updated: Result<SshKey, Failure>) {
    && updated.Ok?
    && Find(s.app.keys, HasFingerprint(fingerprint)).Some?
    && !OnUnlocked(updated.value, s.app.unlockedPaths)
  }

  lemma {:induction false} ReplacedKeys(keys: seq<SshKey>, fingerprint: string, updated: SshKey, unlocked: seq<Path>)
    requires forall key | key in keys :: OnUnlocked(key, unlocked)
    ensures (forall key | key in ReplaceFirst(keys, fingerprint, updated) :: OnUnlocked(key, unlocked))
       <==> !(Find(keys, HasFingerprint(fingerprint)).Some? && !OnUnlocked(updated, unlocked))
  {
    if keys != [] && keys[0].fingerprint != fingerprint {
      assert forall key | key in keys[1..] :: key in keys;
      ReplacedKeys(keys[1..], fingerprint, updated, unlocked);
      var rest := ReplaceFirst(keys[1..], fingerprint, updated);
      assert forall key :: key in [keys[0]] + rest <==> key == keys[0] || key in rest;
      assert keys[0] in keys;
    } else if keys != [] {
      assert forall key :: key in [updated] + keys[1..] <==> key == updated || key in keys[1..];
      assert forall key | key in keys[1..] :: key in keys;
    }
  }

  lemma RenameFinishKeys(s: Shared, fingerprint: string, updated: Result<SshKey, Failure>)
    requires KeysUnlocked(s)
    ensures KeysUnlocked(RenameFinish(s, fingerprint, updated).state) <==> !RenameStrands(s, fingerprint, updated)
  {
    hide Find, ReplaceFirst, OnUnlocked;
    if updated.Ok? { ReplacedKeys(s.app.keys, fingerprint, updated.value, s.app.unlockedPaths); }
  }

  // ----- sections that leave no key behind

  lemma UnloadKeys(s: Shared, path: Path)
    ensures KeepsKeysUnlocked(s, Unload(s, path))
  {
    var after := Unload(s, path);
    assert forall p :: p in after.app.unlockedPaths <==> p in s.app.unlockedPaths && OtherPath(path)(p);
    assert forall key :: key in after.app.keys <==> key in s.app.keys && OffPath(path)(key);
  }

  lemma DismissKeys(s: Shared)
    ensures KeepsKeysUnlocked(s, DismissAuth(s))
  {
    hide Filter, Unload;
    var s1 := s.(generation := if s.app.phase == WaitingForTouch then s.generation + 1 else s.generation,
                 app := ClearPendings(s.app).(flags := s.app.flags.(unlockSequence := false)));
    if s.app.device.Some? { UnloadKeys(s1, s.app.device.value.path); }
  }

  lemma RequestUnlockKeys(s: Shared)
    ensures KeepsKeysUnlocked(s, RequestUnlock(s).state)
  {
    hide Find, AllUnlocked;
    assert forall key | key in Filter(s.app.keys, NotFido()) :: NotFido()(key);
  }

  lemma DeviceUnlockKeys(s: Shared, path: Path)
    ensures KeepsKeysUnlocked(s, RequestDeviceUnlock(s, path).state)
  {
    hide Find, Unload;
    UnloadKeys(s, path);
  }

  lemma CreationKeys(s: Shared, name: string, algorithm: Algorithm, devicePath: Option<Path>)
    ensures KeepsKeysUnlocked(s, RequestCreation(s, name, algorithm, devicePath).state)
  {
    hide Find, Unload, ChosenDevice;
    var target := ChosenDevice(s.app, devicePath);
    if target.Some? { UnloadKeys(AskCreation(s, target.value, name, algorithm, false), target.value.path); }
  }

  lemma LabelKeys(s: Shared, path: Path, name: Option<string>, saved: bool)
    ensures KeepsKeysUnlocked(s, SetSecurityKeyLabel(s, path, name, saved).state)
  {
  }

  lemma ReloadKeys(s: Shared)
    ensures KeepsKeysUnlocked(s, TrayReload(s))
  {
  }

  lemma FinishSucceededKeys(s: Shared, op: Operation, loaded: seq<SshKey>)
    requires LoadedFrom(op.path, loaded)
    ensures KeepsKeysUnlocked(s, FinishSucceeded(s, op, loaded))
  {
    hide Find, AllUnlocked;
    var after := FinishSucceeded(s, op, loaded);
    assert forall key | key in after.app.keys :: key in s.app.keys || key in loaded;
    assert forall p :: p in after.app.unlockedPaths <==> p in s.app.unlockedPaths || p == op.path;
  }

  lemma ScanKeys(s: Shared, earlier: seq<Path>, initial: bool, result: Result<seq<DeviceInfo>, Failure>)
    ensures KeepsKeysUnlocked(s, ScanApply(s, earlier, initial, result))
  {
    hide Find, Paths, ActiveDevice, SettledPhase, PromptAllowed, OperationInProgress, AllUnlocked;
    if result.Ok? {
      var paths := Paths(result.value);
      var after, pruned := ScanFound(s, earlier, initial, result.value), Pruned(s, paths);
      assert after.app.keys == pruned.app.keys && after.app.unlockedPaths == pruned.app.unlockedPaths;
      assert forall key | key in pruned.app.keys :: key in s.app.keys && StillConnected(paths)(key);
      assert forall p :: p in pruned.app.unlockedPaths <==> p in s.app.unlockedPaths && Among(paths)(p);
    }
  }

  lemma SwitchKeys(s: Shared, fingerprint: string, enabled: bool)
    ensures KeepsKeysUnlocked(s, SetKeyEnabled(s, fingerprint, enabled).state)
  {
    hide ReplaceFirst;
    var found := Find(s.app.keys, HasFingerprint(fingerprint));
    if found.Some? { ReplaceFirstMembers(s.app.keys, fingerprint, found.value.(enabled := enabled)); }
  }

  lemma LockAppKeys(s: Shared, reason: LockReason, wasUnlocked: bool)
    ensures KeepsKeysUnlocked(s, LockApp(s, reason, wasUnlocked))
  {
    assert forall key | key in Filter(s.app.keys, NotFido()) :: NotFido()(key);
  }

  lemma RecoveredKeys(s: Shared)
    ensures KeepsKeysUnlocked(s, Recovered(s))
  {
    hide Find;
  }

  // ----- the steps

  /** The step takes a device out of the unlocked ones, or puts back a key of such a device. */
  predicate Strands(s: Sys, l: Label) {
    match (TaskOf(s, l.tid), l.action)
    case (_, Handle(Delete(fingerprint))) => DeletionDrops(s.shared, fingerprint)
    case (Some(RenameChecked(key, name, _)), Rename(RenameAsk)) =>
      && key.devicePath.Some? && Listed(s.shared, key.devicePath.value)
      && RenamePrompt(s.shared, key.devicePath.value, key.fingerprint, name).accepted
    case (Some(RenameAnswered(key, _, updated)), Rename(RenameEnd)) => RenameStrands(s.shared, key.fingerprint, updated)
    case (Some(Operating(op, Answered(outcome))), Operate(OpEnd)) => outcome.Err? && Listed(s.shared, op.path)
    case _ => false
  }

  lemma HandleKeys(s: Shared, request: Request)
    requires KeysUnlocked(s)
    ensures KeysUnlocked(HandleShared(s, request))
       <==> !(request.Delete? && DeletionDrops(s, request.fingerprint))
  {
    hide Find, KeysUnlocked, DeletionDrops, RequestUnlock, RequestDeviceUnlock, DismissAuth, RequestCreation,
      RequestDeletion, SetSecurityKeyLabel, TrayReload;
    match request
    case Unlock => RequestUnlockKeys(s);
    case DeviceUnlock(path) => DeviceUnlockKeys(s, path);
    case SetLabel(path, name, saved) => LabelKeys(s, path, name, saved);
    case Dismiss => DismissKeys(s);
    case Create(name, algorithm, devicePath) => CreationKeys(s, name, algorithm, devicePath);
    case Delete(fingerprint) => DeletionKeys(s, fingerprint);
    case Reload => ReloadKeys(s);
  }

  lemma OperationKeys(s: Shared, task: Option<Task>, a: OperationAction)
    requires OperationFits(s, task, a) && KeysUnlocked(s) && (task.Some? ==> TaskOk(s, task.value))
    ensures KeysUnlocked(OperationShared(s, task, a))
       <==> !(a.OpEnd? && task.value.opStep.outcome.Err? && Listed(s, task.value.op.path))
  {
    hide FinishSucceeded, FinishFailed, KeysUnlocked, Listed, Find;
    match (task, a)
    case (_, OpBegin(pin)) => BeginKeysStay(s, pin);
    case (Some(Operating(op, Answered(Ok(loaded)))), OpEnd) => FinishSucceededKeys(s, op, loaded);
    case (Some(Operating(op, Answered(Err(failure)))), OpEnd) => FinishFailedKeys(s, op, failure);
    case _ =>
  }

  lemma BeginKeysStay(s: Shared, pin: Pin)
    requires BeginOperation(s, pin).Begun?
    ensures KeepsKeysUnlocked(s, BeginOperation(s, pin).state)
  {
    hide Find;
  }

  lemma RenameKeys(s: Shared, task: Option<Task>, a: RenameAction)
    requires RenameFits(s, task, a) && KeysUnlocked(s)
    ensures KeysUnlocked(RenameShared(s, task, a))
       <==> !(match (task, a)
              case (Some(RenameChecked(key, name, _)), RenameAsk) =>
                && Listed(s, key.devicePath.value)
                && RenamePrompt(s, key.devicePath.value, key.fingerprint, name).accepted
              case (Some(RenameAnswered(key, _, updated)), RenameEnd) => RenameStrands(s, key.fingerprint, updated)
              case _ => false)
  {
    hide Find, RenamePrompt, RenameFinish, Listed, RenameStrands;
    match (task, a)
    case (Some(RenameChecked(key, name, _)), RenameAsk) =>
      RenamePromptKeys(s, key.devicePath.value, key.fingerprint, name);
    case (Some(RenameAnswered(key, _, updated)), RenameEnd) => RenameFinishKeys(s, key.fingerprint, updated);
    case _ =>
  }

  lemma LockKeys(s: Shared, task: Option<Task>, a: LockAction)
    requires LockFits(s, task, a)
    ensures KeepsKeysUnlocked(s, LockShared(s, task, a))
  {
    hide Find, Filter, LockApp, Recovered, SetKeyEnabled;
    match (task, a)
    case (Some(AgentLocking(_, PinsGone(wasUnlocked))), AgentLockSession) => LockAppKeys(s, Manual, wasUnlocked);
    case (Some(SessionLocking(reason, wasUnlocked)), SessionLockApp) => LockAppKeys(s, reason, wasUnlocked);
    case (_, Recovery(None)) => RecoveredKeys(s);
    case (Some(Toggling(fingerprint, enabled)), ToggleEnd(_)) => SwitchKeys(s, fingerprint, enabled);
    case _ =>
  }

  lemma EnclaveKeys(s: Shared, task: Option<Task>, a: EnclaveAction)
    requires EnclaveFits(task, a) && (task.Some? ==> TaskOk(s, task.value))
    ensures KeepsKeysUnlocked(s, EnclaveShared(s, task, a))
  {
    if task.Some? && task.value.EnclaveAnswered? && task.value.work.DeleteKey? && a.EnclaveEnd? {
      assert forall key | key in EnclaveDeleted(s, task.value.work.fingerprint).app.keys :: key in s.app.keys;
    }
  }

  lemma ScanStepKeys(s: Shared, task: Option<Task>, a: ScanAction)
    ensures KeepsKeysUnlocked(s, ScanShared(s, task, a))
  {
    hide ScanApply;
    match (task, a)
    case (Some(Scanning(earlier, initial, Detected(result))), ScanEnd) => ScanKeys(s, earlier, initial, result);
    case _ =>
  }

  lemma SignStepKeys(s: Shared, task: Option<Task>, a: SignAction)
    ensures KeepsKeysUnlocked(s, SignShared(s, task, a))
  {
    hide Find;
  }

  /**
   * A step leaves a listed FIDO2 key behind on a device that is not unlocked exactly when it is an accepted
   * deletion request that does not use the session, an accepted rename prompt or a failed operation on a
   * device with listed keys, or the end of a rename whose device was locked meanwhile.
   */
  lemma KeysUnlockedExactly(s: Sys, l: Label)
    requires Enabled(s, l) && Invariant(s) && KeysUnlocked(s.shared)
    ensures KeysUnlocked(After(s, l).shared) <==> !Strands(s, l)
  {
    hide KeysUnlocked, LockShared, OperationShared, ScanShared, HandleShared, SignShared, RenameShared, EnclaveShared,
      Shape, Exclusive, OneScanner, Cached, LockInProgress, Listed, DeletionDrops, RenameStrands, RenamePrompt,
      Needs, NextTask, TaskOk;
    var task := TaskOf(s, l.tid);
    match l.action
    case Lock(a) => LockKeys(s.shared, task, a);
    case Operate(a) => OperationKeys(s.shared, task, a);
    case Scan(a) => ScanStepKeys(s.shared, task, a);
    case Handle(request) => HandleKeys(s.shared, request);
    case Sign(a) => SignStepKeys(s.shared, task, a);
    case Rename(a) => RenameKeys(s.shared, task, a);
    case EnclaveStep(a) => EnclaveKeys(s.shared, task, a);
    case SetPolicy(_) => PolicyKeys(s.shared, l.action);
  }

  lemma PolicyKeys(s: Shared, a: Action)
    requires a.SetPolicy?
    ensures KeepsKeysUnlocked(s, NextShared(s, None, a))
  {
  }

  predicate StrandsAt(r: Run, i: nat)
    requires |r.states| == |r.labels| + 1
  {
    i < |r.labels| && Strands(r.states[i], r.labels[i])
  }

  /** Up to the first such step of a run, every loaded FIDO2 key is on an unlocked device; that step ends it. */
  lemma {:induction false} LoadedMeansUnlocked(r: Run, i: nat)
    requires ValidRun(r) && i < |r.states| && forall j: nat | j < i :: !StrandsAt(r, j)
    ensures KeysUnlocked(r.states[i].shared)
    ensures i < |r.labels| ==> (KeysUnlocked(r.states[i + 1].shared) <==> !StrandsAt(r, i))
  {
    hide Enabled, After, Strands, Invariant, KeysUnlocked;
    InvariantAlways(r, i);
    if i > 0 {
      LoadedMeansUnlocked(r, i - 1);
      assert !StrandsAt(r, i - 1);
    } else {
      NoFidoAtFirst(r.states[0]);
    }
    if i < |r.labels| { KeysUnlockedExactly(r.states[i], r.labels[i]); }
  }

  lemma NoFidoAtFirst(s: Sys)
    requires Initial(s)
    ensures KeysUnlocked(s.shared)
  {
  }
}
