/** What every critical section keeps, section by section. */
module SessionInvariants {
  import opened Common
  import opened State
  import opened Session

  predicate PendingsExclusive(a: App) {
    && (a.pendingAlgorithm.Some? <==> a.pendingCreation.Some?)
    && !(a.pendingCreation.Some? && a.pendingDeletion.Some?)
    && !(a.pendingCreation.Some? && a.pendingRename.Some?)
    && !(a.pendingDeletion.Some? && a.pendingRename.Some?)
  }

  predicate FidoKeysHavePaths(keys: seq<SshKey>) {
    forall k | k in keys && k.backend == Fido2 :: k.devicePath.Some?
  }

  /** The consistency of the application state, whatever the PIN cache holds. */
  ghost predicate Shape(a: App) {
    && NoDup(a.unlockedPaths)
    && (a.flags.fidoSessionUnlocked ==> AllUnlocked(a.devices, a.unlockedPaths))
    && (a.device.Some? ==> a.device.value in a.devices)
    && FidoKeysHavePaths(a.keys)
    && (a.flags.yubikeyConnected <==> a.devices != [])
    && PendingsExclusive(a)
  }

  /** Every unlocked path has its PIN cached. */
  predicate Cached(s: Shared) {
    forall p | p in s.app.unlockedPaths :: p in s.pins
  }

  /** A section that keeps the shape, and keeps the cache complete if it was. */
  ghost predicate Keeps(before: Shared, after: Shared) {
    && (Shape(before.app) ==> Shape(after.app))
    && (Cached(before) ==> Cached(after))
  }

  /** The keys that do not live on a FIDO2 device. */
  function NonFido(a: App): seq<SshKey> {
    Filter(a.keys, NotFido())
  }

  // ----- filtering FIDO2 keys leaves the other keys alone

  lemma LockFrame(a: App)
    ensures Filter(Filter(a.keys, NotFido()), NotFido()) == NonFido(a)
  {
    FilterAbsorb(a.keys, NotFido(), NotFido());
  }

  lemma PathFrame(a: App, path: Path)
    ensures Filter(Filter(a.keys, OffPath(path)), NotFido()) == NonFido(a)
  {
    FilterAbsorb(a.keys, OffPath(path), NotFido());
  }

  lemma ScanFrame(a: App, paths: seq<Path>)
    ensures Filter(Filter(a.keys, StillConnected(paths)), NotFido()) == NonFido(a)
  {
    FilterAbsorb(a.keys, StillConnected(paths), NotFido());
  }

  // ----- the sections

  lemma LockAppKeeps(s: Shared, reason: LockReason, wasUnlocked: bool)
    ensures Keeps(s, LockApp(s, reason, wasUnlocked))
    ensures Cached(LockApp(s, reason, wasUnlocked))
    ensures NonFido(LockApp(s, reason, wasUnlocked).app) == NonFido(s.app)
  {
    LockFrame(s.app);
  }

  lemma RecoveredKeeps(s: Shared)
    ensures Keeps(s, Recovered(s))
    ensures Recovered(s).app.keys == s.app.keys
  {
    hide Find;
  }

  lemma {:induction false} ReplaceFirstMembers(keys: seq<SshKey>, fingerprint: string, updated: SshKey)
    ensures forall k | k in ReplaceFirst(keys, fingerprint, updated) :: k in keys || k == updated
  {
    if keys != [] && keys[0].fingerprint != fingerprint {
      ReplaceFirstMembers(keys[1..], fingerprint, updated);
    }
  }

  lemma SetKeyEnabledKeeps(s: Shared, fingerprint: string, enabled: bool)
    ensures Keeps(s, SetKeyEnabled(s, fingerprint, enabled).state)
  {
    var found := Find(s.app.keys, HasFingerprint(fingerprint));
    if found.Some? {
      ReplaceFirstMembers(s.app.keys, fingerprint, found.value.(enabled := enabled));
    }
  }

  lemma RequestUnlockKeeps(s: Shared)
    ensures Keeps(s, RequestUnlock(s).state)
    ensures NonFido(RequestUnlock(s).state.app) == NonFido(s.app)
  {
    hide Find, Filter;
    LockFrame(s.app);
  }

  lemma DropSessionKeeps(s: Shared, path: Path)
    ensures Keeps(s, DropSession(s, path))
  {
    if NoDup(s.app.unlockedPaths) { FilterNoDup(s.app.unlockedPaths, OtherPath(path)); }
  }

  lemma UnloadKeeps(s: Shared, path: Path)
    ensures Keeps(s, Unload(s, path))
    ensures NonFido(Unload(s, path).app) == NonFido(s.app)
  {
    DropSessionKeeps(s, path);
    PathFrame(s.app, path);
  }

  lemma RequestDeviceUnlockKeeps(s: Shared, path: Path)
    ensures Keeps(s, RequestDeviceUnlock(s, path).state)
    ensures NonFido(RequestDeviceUnlock(s, path).state.app) == NonFido(s.app)
  {
    UnloadKeeps(s, path);
  }

  lemma SetSecurityKeyLabelKeeps(s: Shared, path: Path, name: Option<string>, saved: bool)
    ensures Keeps(s, SetSecurityKeyLabel(s, path, name, saved).state)
    ensures SetSecurityKeyLabel(s, path, name, saved).state.app.keys == s.app.keys
    ensures Paths(SetSecurityKeyLabel(s, path, name, saved).state.app.devices) == Paths(s.app.devices)
  {
    var r := SetSecurityKeyLabel(s, path, name, saved).state.app;
    if r != s.app {
      RelabelPaths(s.app.devices, path, name);
      RelabelUnlocked(s.app.devices, path, name, s.app.unlockedPaths);
      if s.app.device.Some? { RelabelMember(s.app.devices, path, name, s.app.device.value); }
      assert r.devices == Relabel(s.app.devices, path, name) && r.unlockedPaths == s.app.unlockedPaths;
    }
  }

  lemma RelabelMember(devices: seq<DeviceInfo>, path: Path, name: Option<string>, d: DeviceInfo)
    ensures d in devices ==>
              (if d.path == path then d.(deviceLabel := name) else d) in Relabel(devices, path, name)
  {
    if d in devices {
      var i :| 0 <= i < |devices| && devices[i] == d;
      assert Relabel(devices, path, name)[i] in Relabel(devices, path, name);
    }
  }

  lemma RelabelUnlocked(devices: seq<DeviceInfo>, path: Path, name: Option<string>, unlocked: seq<Path>)
    ensures AllUnlocked(devices, unlocked) ==> AllUnlocked(Relabel(devices, path, name), unlocked)
  {
  }

  lemma {:induction false} RelabelPaths(devices: seq<DeviceInfo>, path: Path, name: Option<string>)
    ensures Paths(Relabel(devices, path, name)) == Paths(devices)
  {
    if devices != [] { RelabelPaths(devices[1..], path, name); }
  }

  lemma DismissReleaseKeeps(s: Shared)
    ensures Keeps(s, DismissRelease(s))
    ensures NonFido(DismissRelease(s).app) == NonFido(s.app)
  {
    hide Find, Filter, Unload;
    var s1 := s.(generation := if s.app.phase == WaitingForTouch then s.generation + 1 else s.generation,
                 app := ClearPendings(s.app).(flags := s.app.flags.(unlockSequence := false)));
    assert Keeps(s, s1) && NonFido(s1.app) == NonFido(s.app);
    if s.app.pendingDeletion.Some? || s.app.pendingRename.Some? {
      if s.app.device.Some? { UnloadKeeps(s1, s.app.device.value.path); }
    } else {
      assert DismissRelease(s) == s1;
    }
  }

  lemma DismissKeeps(s: Shared)
    ensures Keeps(s, DismissAuth(s))
    ensures NonFido(DismissAuth(s).app) == NonFido(s.app)
  {
    DismissReleaseKeeps(s);
  }

  lemma AskCreationKeeps(s: Shared, target: DeviceInfo, name: string, algorithm: Algorithm, reuse: bool)
    requires target in s.app.devices
    ensures Keeps(s, AskCreation(s, target, name, algorithm, reuse))
  {
  }

  lemma SelectKeeps(s: Shared, target: DeviceInfo)
    requires target in s.app.devices
    ensures Keeps(s, Select(s, target))
  {
  }

  lemma RequestCreationKeeps(s: Shared, name: string, algorithm: Algorithm, devicePath: Option<Path>)
    ensures Keeps(s, RequestCreation(s, name, algorithm, devicePath).state)
    ensures NonFido(RequestCreation(s, name, algorithm, devicePath).state.app) == NonFido(s.app)
  {
    hide Find, Filter;
    var r := RequestCreation(s, name, algorithm, devicePath).state;
    if r != s {
      var target := ChosenDevice(s.app, devicePath).value;
      if target in s.app.devices {
        var reuse := !s.policy.requireForCreate && target.path in s.pins;
        AskCreationKeeps(s, target, name, algorithm, reuse);
        SelectKeeps(s, target);
      }
      UnloadKeeps(AskCreation(s, target, name, algorithm, false), target.path);
    }
  }

  lemma AskDeletionKeeps(s: Shared, device: DeviceInfo, fingerprint: string, reuse: bool)
    requires device in s.app.devices
    ensures Keeps(s, AskDeletion(s, device, fingerprint, reuse))
  {
  }

  lemma RequestDeletionKeeps(s: Shared, fingerprint: string)
    ensures Keeps(s, RequestDeletion(s, fingerprint).state)
    ensures RequestDeletion(s, fingerprint).state.app.keys == s.app.keys
  {
    hide Find, Filter;
    var r := RequestDeletion(s, fingerprint).state;
    var found := Find(s.app.keys, FidoFingerprint(fingerprint));
    if s.app.flags.yubikeyConnected && found.Some? && found.value.devicePath.Some? {
      var path := found.value.devicePath.value;
      var device := Find(s.app.devices, AtPath(path));
      if device.Some? {
        var reuse := !s.policy.requireForDelete && path in s.pins;
        var asked := AskDeletion(s, device.value, fingerprint, reuse);
        AskDeletionKeeps(s, device.value, fingerprint, reuse);
        DropSessionKeeps(asked, path);
        assert r == if reuse then asked else DropSession(asked, path);
      } else {
        assert r == s.(app := s.app.(device := None));
      }
    } else {
      assert r == s;
    }
  }

  lemma RenamePromptKeeps(s: Shared, path: Path, fingerprint: string, name: string)
    ensures Keeps(s, RenamePrompt(s, path, fingerprint, name).state)
    ensures RenamePrompt(s, path, fingerprint, name).state.app.keys == s.app.keys
  {
    var device := Find(s.app.devices, AtPath(path));
    if device.Some? { DropSessionKeeps(AskRename(s, device.value, fingerprint, name), path); }
  }

  lemma RenameFinishKeeps(s: Shared, fingerprint: string, updated: Result<SshKey, Failure>)
    requires updated.Ok? && updated.value.backend == Fido2 ==> updated.value.devicePath.Some?
    ensures Keeps(s, RenameFinish(s, fingerprint, updated).state)
  {
    if updated.Ok? { ReplaceFirstMembers(s.app.keys, fingerprint, updated.value); }
  }

  lemma BeginKeeps(s: Shared, pin: Pin)
    requires BeginOperation(s, pin).Begun?
    ensures Keeps(s, BeginOperation(s, pin).state)
    ensures BeginOperation(s, pin).state.app.keys == s.app.keys
    ensures BeginOperation(s, pin).op.pin == pin
  {
  }

  lemma ReloadKeeps(s: Shared)
    ensures Keeps(s, TrayReload(s))
  {
  }

  predicate LoadedFrom(path: Path, loaded: seq<SshKey>) {
    forall k | k in loaded :: k.backend == Fido2 && k.devicePath == Some(path)
  }

  /** A successful operation replaces exactly the keys of its device. */
  lemma FinishReplacesDeviceKeys(s: Shared, op: Operation, loaded: seq<SshKey>)
    requires LoadedFrom(op.path, loaded)
    ensures var after := FinishSucceeded(s, op, loaded).app;
            && NonFido(after) == NonFido(s.app)
            && Filter(after.keys, OffPath(op.path)) == Filter(s.app.keys, OffPath(op.path))
            && Filter(after.keys, OnPath(op.path)) == loaded
  {
    hide Find, Filter;
    var kept := Filter(s.app.keys, OffPath(op.path));
    PathFrame(s.app, op.path);
    FilterConcat(kept, loaded, NotFido());
    FilterNone(loaded, NotFido());
    FilterConcat(kept, loaded, OffPath(op.path));
    FilterNone(loaded, OffPath(op.path));
    FilterAll(kept, OffPath(op.path));
    FilterConcat(kept, loaded, OnPath(op.path));
    FilterNone(kept, OnPath(op.path));
    FilterAll(loaded, OnPath(op.path));
  }

  lemma FinishSucceededKeeps(s: Shared, op: Operation, loaded: seq<SshKey>)
    requires LoadedFrom(op.path, loaded)
    ensures Keeps(s, FinishSucceeded(s, op, loaded))
  {
    hide Find, Filter;
    var after := FinishSucceeded(s, op, loaded).app;
    if NoDup(s.app.unlockedPaths) && op.path !in s.app.unlockedPaths { NoDupAppend(s.app.unlockedPaths, op.path); }
    assert forall k | k in after.keys :: k in s.app.keys || k in loaded;
  }

  lemma FinishFailedKeeps(s: Shared, op: Operation, failure: Failure)
    ensures Keeps(s, FinishFailed(s, op, failure))
    ensures FinishFailed(s, op, failure).app.keys == s.app.keys
  {
    if NoDup(s.app.unlockedPaths) { FilterNoDup(s.app.unlockedPaths, OtherPath(op.path)); }
  }

  lemma ActiveIsConnected(a: App, earlier: seq<Path>, devices: seq<DeviceInfo>, unlocked: seq<Path>)
    ensures var active := ActiveDevice(a, earlier, devices, unlocked); active.Some? ==> active.value in devices
  {
    hide Find, Paths, OperationInProgress;
  }

  lemma AdoptedShape(s: Shared, devices: seq<DeviceInfo>, active: Option<DeviceInfo>)
    requires active.Some? ==> active.value in devices
    ensures Shape(s.app) ==> Shape(Adopted(Pruned(s, Paths(devices)), devices, active).app)
  {
    hide Filter, Paths;
    if NoDup(s.app.unlockedPaths) { FilterNoDup(s.app.unlockedPaths, Among(Paths(devices))); }
  }

  lemma PrunedCached(s: Shared, devices: seq<DeviceInfo>, active: Option<DeviceInfo>)
    ensures Cached(s) ==> Cached(Adopted(Pruned(s, Paths(devices)), devices, active))
    ensures NonFido(Adopted(Pruned(s, Paths(devices)), devices, active).app) == NonFido(s.app)
  {
    hide Filter, Paths;
    ScanFrame(s.app, Paths(devices));
  }

  lemma AnnouncedKeeps(s: Shared, changed: bool, newcomer: bool, initial: bool)
    ensures Keeps(s, Announced(s, changed, newcomer, initial))
    ensures Announced(s, changed, newcomer, initial).app.keys == s.app.keys
  {
    hide PromptAllowed, SettledPhase, OperationInProgress, NoDup, AllUnlocked, FidoKeysHavePaths;
  }

  lemma ScanKeeps(s: Shared, earlier: seq<Path>, initial: bool, result: Result<seq<DeviceInfo>, Failure>)
    ensures Keeps(s, ScanApply(s, earlier, initial, result))
    ensures NonFido(ScanApply(s, earlier, initial, result).app) == NonFido(s.app)
  {
    hide Find, Filter, Paths, Pruned, Adopted, Announced, ActiveDevice;
    if result.Ok? {
      var devices := result.value;
      var pruned := Pruned(s, Paths(devices));
      var active := ActiveDevice(pruned.app, earlier, devices, pruned.app.unlockedPaths);
      ActiveIsConnected(pruned.app, earlier, devices, pruned.app.unlockedPaths);
      AdoptedShape(s, devices, active);
      PrunedCached(s, devices, active);
      var changed := s.app.devices != devices || DevicePath(s.app.device) != DevicePath(active);
      AnnouncedKeeps(Adopted(pruned, devices, active), changed, Find(devices, NewFido(earlier)).Some?, initial);
    }
  }

  lemma SignTargetKeeps(s: Shared, path: Path)
    ensures Keeps(s, SignTarget(s, path))
    ensures SignTarget(s, path).app.keys == s.app.keys
  {
  }

  lemma EnclaveCreatedKeeps(s: Shared, key: SshKey)
    requires key.backend == SecureEnclave
    ensures Keeps(s, EnclaveCreated(s, key))
  {
  }
}
