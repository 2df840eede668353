/**
 * The shared state as an object whose fields the handlers assign one by one, under the `app` mutex
 * and, nested in it, `pins`. Every method leaves exactly the state its section function gives.
 */
module Runtime {
  import opened Common
  import opened State
  import opened Session
  import opened SessionInvariants
  import opened Machine

  class RuntimeState {
    /** What the `app` mutex protects. */
    var app: App
    // the PIN cache and the atomics
    var pins: map<Path, Pin>
    var outstanding: set<Condition>
    var generation: nat
    var scanCompleted: bool
    var policy: Policy

    function View(): Shared
      reads this
    {
      Shared(app, pins, outstanding, generation, scanCompleted, policy)
    }

    /** `RuntimeState::default`, with the stored Secure Enclave keys added at start-up. */
    constructor (enclaveKeys: seq<SshKey>, storedPolicy: Policy)
      ensures View() == Shared(
        DEFAULT_APP.(keys := enclaveKeys, phase := if enclaveKeys != [] then Ready else WaitingForDevice),
        map[], {}, 0, false, storedPolicy)
    {
      app := DEFAULT_APP.(keys := enclaveKeys, phase := if enclaveKeys != [] then Ready else WaitingForDevice);
      pins, outstanding, generation, scanCompleted, policy := map[], {}, 0, false, storedPolicy;
    }

    // ----- settings.rs

    /** First critical section of `lock_fido_session`. */
    method LockSessionPins() returns (wasUnlocked: bool)
      modifies this`pins
      ensures View() == LockPins(old(View()))
      ensures wasUnlocked <==> old(pins) != map[]
    {
      wasUnlocked := pins != map[];
      pins := map[];
    }

    /** Second critical section of `lock_fido_session`. */
    method LockSessionApp(reason: LockReason, wasUnlocked: bool)
      modifies this`app
      ensures View() == LockApp(old(View()), reason, wasUnlocked)
    {
      var current := app;
      var hadFidoKeys := exists k | k in current.keys :: k.backend == Fido2;
      current := current.(flags := current.flags.(fidoSessionUnlocked := false));
      current := current.(unlockedPaths := []);
      current := current.(flags := current.flags.(unlockSequence := false));
      current := current.(keys := Filter(current.keys, NotFido()));
      if wasUnlocked || hadFidoKeys {
        var notice := SystemLockNotice(reason);
        if notice.Some? { current := current.(securityNotice := notice); }
      }
      if current.flags.yubikeyConnected { current := current.(phase := NeedsPin); }
      app := current;
    }

    method CommitAgentLock(locked: bool)
      modifies this`app
      ensures View() == SetAgentLocked(old(View()), locked)
    {
      if app.flags.agentLocked == locked { return; }
      app := app.(flags := app.flags.(agentLocked := locked));
    }

    // ----- lifecycle.rs

    method ClearRequests()
      modifies this`app
      ensures View() == DeactivateClear(old(View()))
    {
      app := ClearPendings(app);
      app := app.(error := None);
    }

    method Recover()
      modifies this`app
      ensures View() == Recovered(old(View()))
    {
      var current := app;
      current := current.(flags := current.flags.(agentRunning := true));
      current := current.(error := None);
      if current.flags.yubikeyConnected && !current.flags.fidoSessionUnlocked {
        current := current.(device := Find(current.devices, IsFidoDevice()));
        current := current.(phase := NeedsPin);
        if policy.promptAfterMacUnlock { current := current.(flags := current.flags.(unlockSequence := true)); }
      } else if current.keys != [] {
        current := current.(phase := Ready);
      }
      app := current;
    }

    // ----- ipc/commands.rs

    /** Looks the key up by position and switches it in place. */
    method SwitchKey(fingerprint: string, enabled: bool) returns (ok: bool)
      modifies this`app
      ensures Outcome(View(), ok) == SetKeyEnabled(old(View()), fingerprint, enabled)
    {
      hide Find;
      var keys := app.keys;
      var i := 0;
      while i < |keys| && keys[i].fingerprint != fingerprint
        invariant 0 <= i <= |keys| && app == old(app)
        invariant forall j | 0 <= j < i :: keys[j].fingerprint != fingerprint
      {
        i := i + 1;
      }
      FirstMatch(keys, fingerprint, i);
      if i == |keys| { return false; }
      ReplaceFirstAt(keys, fingerprint, i, keys[i].(enabled := enabled));
      app := app.(keys := keys[i := keys[i].(enabled := enabled)]);
      return true;
    }

    method StartUnlock() returns (ok: bool)
      modifies this`app, this`pins
      ensures Outcome(View(), ok) == RequestUnlock(old(View()))
    {
      var current := app;
      if !current.flags.yubikeyConnected { return false; }
      if AllUnlocked(current.devices, current.unlockedPaths) {
        current := current.(unlockedPaths := []);
        current := current.(keys := Filter(current.keys, NotFido()));
        pins := map[];
      }
      var target := Find(current.devices, StillLocked(current.unlockedPaths));
      if target.None? { app := current; return false; }
      current := current.(device := target);
      current := current.(flags := current.flags.(unlockSequence := true));
      current := current.(phase := NeedsPin);
      current := current.(error := None);
      current := ClearPendings(current);
      current := current.(flags := current.flags.(fidoSessionUnlocked := false));
      app := current;
      return true;
    }

    method StartDeviceUnlock(path: Path) returns (ok: bool)
      modifies this`app, this`pins
      ensures Outcome(View(), ok) == RequestDeviceUnlock(old(View()), path)
    {
      var current := app;
      var target := Find(current.devices, FidoAt(path));
      if target.None? { return false; }
      current := current.(keys := Filter(current.keys, OffPath(path)));
      current := current.(unlockedPaths := Filter(current.unlockedPaths, OtherPath(path)));
      pins := pins - {path};
      current := current.(device := target);
      current := current.(flags := current.flags.(unlockSequence := false));
      current := current.(flags := current.flags.(fidoSessionUnlocked := false));
      current := current.(phase := NeedsPin);
      current := current.(error := None);
      current := ClearPendings(current);
      app := current;
      return true;
    }

    method LabelDevice(path: Path, name: Option<string>, saved: bool) returns (ok: bool)
      modifies this`app
      ensures Outcome(View(), ok) == SetSecurityKeyLabel(old(View()), path, name, saved)
    {
      hide Find;
      var current := app;
      if Find(current.devices, AtPath(path)).None? || !saved { return false; }
      var devices := current.devices;
      var i := 0;
      while i < |devices|
        invariant 0 <= i <= |devices| == |old(app.devices)|
        invariant forall j | 0 <= j < i :: devices[j] ==
                    if old(app.devices)[j].path == path
                    then old(app.devices)[j].(deviceLabel := name) else old(app.devices)[j]
        invariant forall j | i <= j < |devices| :: devices[j] == old(app.devices)[j]
      {
        if devices[i].path == path {
          devices := devices[i := devices[i].(deviceLabel := name)];
        }
        i := i + 1;
      }
      assert devices == Relabel(old(app.devices), path, name);
      current := current.(devices := devices);
      if current.device.Some? && current.device.value.path == path {
        current := current.(device := Some(current.device.value.(deviceLabel := name)));
      }
      app := current;
      return true;
    }

    method DismissPrompt()
      modifies this`app, this`pins, this`generation
      ensures View() == DismissAuth(old(View()))
    {
      hide Filter;
      var current := app;
      var wasCreating := current.pendingCreation.Some?;
      var wasDeleting := current.pendingDeletion.Some?;
      var wasRenaming := current.pendingRename.Some?;
      var wasPinPrompt := current.phase == NeedsPin;
      ForgetRequest();
      hide DismissRelease;
      current := app;
      if current.phase == Error || wasPinPrompt || wasCreating || wasDeleting || wasRenaming {
        var next :=
          if current.keys != [] then Ready
          else if current.flags.yubikeyConnected then Ready
          else WaitingForDevice;
        current := current.(phase := next);
        current := current.(error := None);
      }
      app := current;
    }

    /** The first half of `dismiss_auth`, up to the unloading of a device whose request is discarded. */
    method ForgetRequest()
      modifies this`app, this`pins, this`generation
      ensures View() == DismissRelease(old(View()))
    {
      hide Filter;
      var current := app;
      if current.phase == WaitingForTouch { generation := generation + 1; }
      var discards := current.pendingDeletion.Some? || current.pendingRename.Some?;
      current := ClearPendings(current);
      current := current.(flags := current.flags.(unlockSequence := false));
      if discards && current.device.Some? {
        var path := current.device.value.path;
        current := current.(keys := Filter(current.keys, OffPath(path)));
        current := current.(unlockedPaths := Filter(current.unlockedPaths, OtherPath(path)));
        pins := pins - {path};
      }
      if discards { current := current.(flags := current.flags.(fidoSessionUnlocked := false)); }
      app := current;
    }

    method StartCreation(name: string, algorithm: Algorithm, devicePath: Option<Path>) returns (ok: bool)
      modifies this`app, this`pins
      ensures Outcome(View(), ok) == RequestCreation(old(View()), name, algorithm, devicePath)
    {
      hide Find, Filter;
      var current := app;
      if algorithm.Other? || !current.flags.yubikeyConnected { return false; }
      var chosen := ChosenDevice(current, devicePath);
      if chosen.None? { return false; }
      var target := chosen.value;
      current := current.(device := Some(target));
      if target.algorithms != [] && algorithm !in target.algorithms { app := current; return false; }
      if Find(current.keys, FidoNamed(name)).Some? { app := current; return false; }
      current := current.(pendingCreation := Some(name), pendingAlgorithm := Some(algorithm));
      current := current.(pendingDeletion := None, pendingRename := None);
      var reuseSession := !policy.requireForCreate && target.path in pins;
      current := current.(phase := if reuseSession then WaitingForTouch else NeedsPin);
      current := current.(error := None);
      if !reuseSession {
        current := current.(flags := current.flags.(fidoSessionUnlocked := false));
        current := current.(unlockedPaths := Filter(current.unlockedPaths, OtherPath(target.path)));
        current := current.(keys := Filter(current.keys, OffPath(target.path)));
        pins := pins - {target.path};
      }
      app := current;
      return true;
    }

    method StartDeletion(fingerprint: string) returns (ok: bool)
      modifies this`app, this`pins
      ensures Outcome(View(), ok) == RequestDeletion(old(View()), fingerprint)
    {
      hide Find, Filter;
      var current := app;
      if !current.flags.yubikeyConnected { return false; }
      var key := Find(current.keys, FidoFingerprint(fingerprint));
      if key.None? || key.value.devicePath.None? { return false; }
      var path := key.value.devicePath.value;
      current := current.(device := Find(current.devices, AtPath(path)));
      if current.device.None? { app := current; return false; }
      current := current.(pendingCreation := None, pendingAlgorithm := None);
      current := current.(pendingDeletion := Some(fingerprint), pendingRename := None);
      var reuseSession := !policy.requireForDelete && path in pins;
      current := current.(phase := if reuseSession then WaitingForTouch else NeedsPin);
      current := current.(error := None);
      if !reuseSession {
        current := current.(flags := current.flags.(fidoSessionUnlocked := false));
        current := current.(unlockedPaths := Filter(current.unlockedPaths, OtherPath(path)));
        pins := pins - {path};
      }
      app := current;
      return true;
    }

    method AskRenamePin(path: Path, fingerprint: string, name: string) returns (ok: bool)
      modifies this`app, this`pins
      ensures Outcome(View(), ok) == RenamePrompt(old(View()), path, fingerprint, name)
    {
      hide Find, Filter;
      var current := app;
      current := current.(device := Find(current.devices, AtPath(path)));
      if current.device.None? { app := current; return false; }
      current := current.(pendingCreation := None, pendingAlgorithm := None, pendingDeletion := None);
      current := current.(pendingRename := Some(PendingRename(fingerprint, name)));
      current := current.(phase := NeedsPin);
      current := current.(error := None);
      current := current.(flags := current.flags.(fidoSessionUnlocked := false));
      current := current.(unlockedPaths := Filter(current.unlockedPaths, OtherPath(path)));
      pins := pins - {path};
      app := current;
      return true;
    }

    /** The opening section of `perform_fido_operation`. */
    method BeginFido(pin: Pin) returns (begun: Begun)
      modifies this`app
      ensures begun == BeginOperation(old(View()), pin)
      ensures View() == if begun.Begun? then begun.state else old(View())
    {
      hide Find, DeletionTarget, RenameTarget, FidoFingerprint;
      var current := app;
      if current.device.None? { return Refused; }
      var deleting := DeletionTarget(current);
      if current.pendingDeletion.Some? && deleting.None? { return Refused; }
      var renaming := RenameTarget(current);
      if current.pendingRename.Some? && renaming.None? { return Refused; }
      var algorithm := if current.pendingAlgorithm.Some? then current.pendingAlgorithm.value else Ed25519Sk;
      var op := Operation(current.device.value.path, pin, current.pendingCreation, algorithm, deleting, renaming);
      var next := if current.pendingCreation.Some? || deleting.Some? then WaitingForTouch else Loading;
      current := current.(phase := next);
      current := current.(error := None);
      app := current;
      return Begun(View(), op);
    }

    /** The closing section of `perform_fido_operation` after success. */
    method FinishFido(op: Operation, loaded: seq<SshKey>)
      modifies this`app, this`pins
      ensures View() == FinishOperation(old(View()), op, Ok(loaded))
    {
      hide Find, Filter, AllUnlocked;
      var current := app;
      pins := pins[op.path := op.pin];
      current := current.(keys := Filter(current.keys, OffPath(op.path)));
      current := current.(keys := current.keys + loaded);
      var unlocked := if op.path in current.unlockedPaths then current.unlockedPaths
        else current.unlockedPaths + [op.path];
      current := current.(unlockedPaths := unlocked);
      var nextLocked :=
        if op.NormalUnlock() && current.flags.unlockSequence
        then Find(current.devices, StillLocked(unlocked)) else None;
      current := current.(device := OrElse(nextLocked, Find(current.devices, AtPath(op.path))));
      var next := if nextLocked.Some? then NeedsPin else Ready;
      current := current.(phase := next);
      var flags := current.flags.(agentRunning := true, fidoSessionUnlocked := AllUnlocked(current.devices, unlocked));
      if nextLocked.None? { flags := flags.(unlockSequence := false); }
      current := current.(flags := flags);
      current := current.(error := None);
      current := ClearPendings(current);
      current := current.(securityNotice := None);
      app := current;
    }

    /** The closing section of `perform_fido_operation` after a failure. */
    method FailFido(op: Operation, failure: Failure)
      modifies this`app, this`pins
      ensures View() == FinishOperation(old(View()), op, Err(failure))
    {
      hide Filter;
      var current := app;
      current := current.(phase := if failure == InvalidPin then NeedsPin else Error);
      current := current.(error := Some(failure));
      current := current.(unlockedPaths := Filter(current.unlockedPaths, OtherPath(op.path)));
      current := current.(flags := current.flags.(fidoSessionUnlocked := false));
      pins := pins - {op.path};
      if failure != InvalidPin {
        current := current.(pendingCreation := None, pendingAlgorithm := None);
        if op.renaming.None? { current := current.(pendingRename := None); }
        if op.deleting.None? { current := current.(pendingDeletion := None); }
      }
      app := current;
    }

    // ----- device/watcher.rs

    /** Forgets everything of the devices that are gone. */
    method Prune(connected: seq<Path>)
      modifies this`app, this`pins
      ensures View() == Pruned(old(View()), connected)
    {
      hide Filter, RetainPins;
      app := app.(unlockedPaths := Filter(app.unlockedPaths, Among(connected)));
      pins := RetainPins(pins, connected);
      app := app.(keys := Filter(app.keys, StillConnected(connected)));
    }

    /** Records the connected devices. */
    method Adopt(found: seq<DeviceInfo>, active: Option<DeviceInfo>)
      modifies this`app
      ensures View() == Adopted(old(View()), found, active)
    {
      hide AllUnlocked;
      app := app.(devices := found);
      app := app.(device := active);
      app := app.(flags := app.flags.(yubikeyConnected := app.devices != []));
      var complete := app.devices != [] && AllUnlocked(app.devices, app.unlockedPaths);
      app := app.(flags := app.flags.(fidoSessionUnlocked := complete));
    }

    /** Settles the phase and decides whether a new device prompts at once. */
    method Announce(changed: bool, newcomer: bool, initial: bool)
      modifies this`app
      ensures View() == Announced(old(View()), changed, newcomer, initial)
    {
      hide OperationInProgress, PromptAllowed;
      var wasWaitingForPin := app.phase == NeedsPin;
      if !OperationInProgress(app) {
        var next :=
          if newcomer then NeedsPin
          else if app.devices != [] || app.keys != [] then Ready
          else WaitingForDevice;
        app := app.(phase := next, error := None);
      }
      if changed && app.phase == NeedsPin && !wasWaitingForPin {
        if PromptAllowed(outstanding, policy, initial, newcomer) {
          app := app.(flags := app.flags.(unlockSequence := true));
        } else {
          app := app.(phase := Ready);
        }
      }
    }

    /** The body of the scan loop once the hardware has listed the devices. */
    method ApplyScan(earlier: seq<Path>, initial: bool, found: seq<DeviceInfo>)
      modifies this`app, this`pins
      ensures View() == ScanApply(old(View()), earlier, initial, Ok(found))
    {
      hide Adopted, Announced, Find, Paths, ActiveDevice, Filter;
      var previousDevices, previousPath := app.devices, DevicePath(app.device);
      Prune(Paths(found));
      var active := ActiveDevice(app, earlier, found, app.unlockedPaths);
      Adopt(found, active);
      var changed := previousDevices != found || previousPath != DevicePath(active);
      Announce(changed, Find(found, NewFido(earlier)).Some?, initial);
    }

    // ----- agent/server.rs and provider/mod.rs

    method Authorize(requested: SshKey) returns (ok: bool)
      ensures ok <==> Authorizes(app, requested)
    {
      if app.flags.agentLocked { return false; }
      var keys := app.keys;
      var i := 0;
      while i < |keys|
        invariant 0 <= i <= |keys|
        invariant forall j | 0 <= j < i :: !(keys[j].enabled && keys[j].fingerprint == requested.fingerprint
                    && keys[j].publicBlob == requested.publicBlob && keys[j].backend == requested.backend)
      {
        if keys[i].enabled && keys[i].fingerprint == requested.fingerprint
           && keys[i].publicBlob == requested.publicBlob && keys[i].backend == requested.backend
        {
          return true;
        }
        i := i + 1;
      }
      return false;
    }

    method TargetDevice(path: Path)
      modifies this`app
      ensures View() == SignTarget(old(View()), path)
    {
      app := app.(device := Find(app.devices, AtPath(path)));
      app := app.(phase := if path in pins then WaitingForTouch else NeedsPin);
      app := app.(error := None);
    }

    method EndSignature(backend: KeyBackend, dismissed: bool, failure: Option<Failure>)
      modifies this`app
      ensures View() == SignFinish(old(View()), backend, dismissed, failure)
    {
      var current := app;
      if backend != Fido2 {
        if failure.Some? {
          current := current.(phase := Error);
          current := current.(error := failure);
        }
        app := current;
        return;
      }
      var needsPin := failure == Some(PinNotCached);
      current := current.(phase := if needsPin then NeedsPin else if failure.None? || dismissed then Ready else Error);
      current := current.(error := if dismissed || needsPin then None else failure);
      app := current;
    }

    // ----- lib.rs

    /** The tray's "Reload Keys" entry. */
    method Reload()
      modifies this`app
      ensures View() == TrayReload(old(View()))
    {
      if app.flags.yubikeyConnected {
        app := app.(phase := NeedsPin);
        app := app.(error := None);
      }
    }

    /**
     * One command of the interface: the step that the machine takes for it, which keeps the shape of the
     * state and the PINs of the unlocked paths, whatever the command answers.
     */
    method HandleRequest(request: Request)
      modifies this
      ensures View() == HandleShared(old(View()), request)
      ensures Keeps(old(View()), View())
    {
      hide RequestUnlock, RequestDeviceUnlock, SetSecurityKeyLabel, DismissAuth, RequestCreation, RequestDeletion,
        TrayReload, Shape, Cached;
      ghost var before := View();
      match request
      case Unlock =>
        var _ := StartUnlock();
        RequestUnlockKeeps(before);
      case DeviceUnlock(path) =>
        var _ := StartDeviceUnlock(path);
        RequestDeviceUnlockKeeps(before, path);
      case SetLabel(path, name, saved) =>
        var _ := LabelDevice(path, name, saved);
        SetSecurityKeyLabelKeeps(before, path, name, saved);
      case Dismiss =>
        DismissPrompt();
        DismissKeeps(before);
      case Create(name, algorithm, devicePath) =>
        var _ := StartCreation(name, algorithm, devicePath);
        RequestCreationKeeps(before, name, algorithm, devicePath);
      case Delete(fingerprint) =>
        var _ := StartDeletion(fingerprint);
        RequestDeletionKeeps(before, fingerprint);
      case Reload =>
        this.Reload();
        ReloadKeeps(before);
    }
  }

  /** A linear search stops at the key `Find` gives. */
  lemma {:induction false} FirstMatch(keys: seq<SshKey>, fingerprint: string, i: nat)
    requires i <= |keys|
    requires forall j | 0 <= j < i :: keys[j].fingerprint != fingerprint
    requires i < |keys| ==> keys[i].fingerprint == fingerprint
    ensures Find(keys, HasFingerprint(fingerprint)) == if i < |keys| then Some(keys[i]) else None
  {
    if keys != [] && i > 0 {
      FirstMatch(keys[1..], fingerprint, i - 1);
    }
  }

  lemma {:induction false} ReplaceFirstAt(keys: seq<SshKey>, fingerprint: string, i: nat, updated: SshKey)
    requires i < |keys| && keys[i].fingerprint == fingerprint
    requires forall j | 0 <= j < i :: keys[j].fingerprint != fingerprint
    ensures ReplaceFirst(keys, fingerprint, updated) == keys[i := updated]
  {
    if i > 0 {
      ReplaceFirstAt(keys[1..], fingerprint, i - 1, updated);
      assert keys[i := updated] == [keys[0]] + keys[1..][i - 1 := updated];
    }
  }
}
