/**
 * The critical sections of the session machine as functions on `Shared`: each function is what
 * one handler does while it holds the `app` mutex (and, nested inside it, `pins`).
 * The class in runtime.dfy performs the same sections by assigning fields.
 */
module Session {
  import opened Common
  import opened State

  /** The state a handler leaves and whether it answered Ok. */
  datatype Outcome = Outcome(state: Shared, accepted: bool)

  /** What `perform_fido_operation` takes out of the state before it turns to the device. */
  datatype Operation = Operation(
    path: Path,
    pin: Pin,
    creating: Option<string>,
    algorithm: Algorithm,
    deleting: Option<SshKey>,
    renaming: Option<(SshKey, string)>)
  {
    predicate NormalUnlock() {
      creating.None? && deleting.None? && renaming.None?
    }
  }

  function ClearPendings(app: App): App {
    app.(pendingCreation := None, pendingAlgorithm := None, pendingDeletion := None, pendingRename := None)
  }

  function DevicePath(device: Option<DeviceInfo>): Option<Path> {
    if device.Some? then Some(device.value.path) else None
  }

  function OrElse<T>(first: Option<T>, second: Option<T>): Option<T> {
    if first.Some? then first else second
  }

  /** Puts `updated` in the place of the first key with this fingerprint. */
  function ReplaceFirst(keys: seq<SshKey>, fingerprint: string, updated: SshKey): (r: seq<SshKey>)
    ensures |r| == |keys|
  {
    if keys == [] then []
    else if keys[0].fingerprint == fingerprint then [updated] + keys[1..]
    else [keys[0]] + ReplaceFirst(keys[1..], fingerprint, updated)
  }

  function Relabel(devices: seq<DeviceInfo>, path: Path, name: Option<string>): (r: seq<DeviceInfo>)
    ensures |r| == |devices|
    ensures forall i | 0 <= i < |r| ::
              r[i] == if devices[i].path == path then devices[i].(deviceLabel := name) else devices[i]
  {
    if devices == [] then []
    else
      var head := if devices[0].path == path then devices[0].(deviceLabel := name) else devices[0];
      [head] + Relabel(devices[1..], path, name)
  }

  // ----- settings.rs: locking

  /** First critical section of `lock_fido_session`: only the PIN cache. */
  function LockPins(s: Shared): Shared {
    s.(pins := map[])
  }

  function SystemLockNotice(reason: LockReason): Option<Notice> {
    if reason.System? then Some(LockedBy(reason.condition)) else None
  }

  /** Second critical section of `lock_fido_session`: the application state. */
  function LockApp(s: Shared, reason: LockReason, wasUnlocked: bool): Shared {
    var a := s.app;
    var hadFidoKeys := exists k | k in a.keys :: k.backend == Fido2;
    var notice := SystemLockNotice(reason);
    s.(app := a.(
      flags := a.flags.(fidoSessionUnlocked := false, unlockSequence := false),
      unlockedPaths := [],
      keys := Filter(a.keys, NotFido()),
      securityNotice := if (wasUnlocked || hadFidoKeys) && notice.Some? then notice else a.securityNotice,
      phase := if a.flags.yubikeyConnected then NeedsPin else a.phase))
  }

  function SetAgentLocked(s: Shared, locked: bool): Shared {
    s.(app := s.app.(flags := s.app.flags.(agentLocked := locked)))
  }

  // ----- lifecycle.rs

  function DeactivateClear(s: Shared): Shared {
    s.(app := ClearPendings(s.app).(error := None))
  }

  /** After the last condition cleared: asks for the PIN of the first FIDO2 device, or settles. */
  function Recovered(s: Shared): Shared {
    var a := s.app;
    var running := a.flags.(agentRunning := true);
    var b := a.(flags := running, error := None);
    s.(app :=
      if a.flags.yubikeyConnected && !a.flags.fidoSessionUnlocked then
        b.(device := Find(a.devices, IsFidoDevice()), phase := NeedsPin,
           flags := running.(unlockSequence := a.flags.unlockSequence || s.policy.promptAfterMacUnlock))
      else if a.keys != [] then b.(phase := Ready)
      else b)
  }

  function RecoveryFailed(s: Shared, failure: Failure): Shared {
    s.(app := s.app.(flags := s.app.flags.(agentRunning := false), phase := Error, error := Some(failure),
                     securityNotice := Some(AgentNotRestored)))
  }

  // ----- ipc/commands.rs: requests

  /** Ends the session of one device: its PIN and its place among the unlocked paths. */
  function DropSession(s: Shared, path: Path): Shared {
    s.(pins := s.pins - {path},
       app := s.app.(flags := s.app.flags.(fidoSessionUnlocked := false),
                     unlockedPaths := Filter(s.app.unlockedPaths, OtherPath(path))))
  }

  /** Ends the session of one device and unloads its keys. */
  function Unload(s: Shared, path: Path): Shared {
    var dropped := DropSession(s, path);
    dropped.(app := dropped.app.(keys := Filter(s.app.keys, OffPath(path))))
  }

  function SetKeyEnabled(s: Shared, fingerprint: string, enabled: bool): Outcome {
    match Find(s.app.keys, HasFingerprint(fingerprint))
    case None => Outcome(s, false)
    case Some(key) =>
      var keys := ReplaceFirst(s.app.keys, fingerprint, key.(enabled := enabled));
      Outcome(s.(app := s.app.(keys := keys)), true)
  }

  /** With every FIDO2 device unlocked the request is a full reload: it drops the session first. */
  function RequestUnlock(s: Shared): Outcome {
    if !s.app.flags.yubikeyConnected then Outcome(s, false)
    else
      var s1 :=
        if AllUnlocked(s.app.devices, s.app.unlockedPaths) then
          s.(pins := map[], app := s.app.(unlockedPaths := [], keys := Filter(s.app.keys, NotFido())))
        else s;
      match Find(s1.app.devices, StillLocked(s1.app.unlockedPaths))
      case None => Outcome(s1, false)
      case Some(target) =>
        Outcome(s1.(app := ClearPendings(s1.app).(
          device := Some(target), phase := NeedsPin, error := None,
          flags := s1.app.flags.(unlockSequence := true, fidoSessionUnlocked := false))), true)
  }

  function RequestDeviceUnlock(s: Shared, path: Path): Outcome {
    match Find(s.app.devices, FidoAt(path))
    case None => Outcome(s, false)
    case Some(target) =>
      var s1 := Unload(s, path);
      Outcome(s1.(app := ClearPendings(s1.app).(
        device := Some(target), flags := s1.app.flags.(unlockSequence := false),
        phase := NeedsPin, error := None)), true)
  }

  /** `saved` is the answer of the label store; nothing changes when it refuses. */
  function SetSecurityKeyLabel(s: Shared, path: Path, name: Option<string>, saved: bool): Outcome {
    if Find(s.app.devices, AtPath(path)).None? || !saved then Outcome(s, false)
    else
      var device :=
        if s.app.device.Some? && s.app.device.value.path == path
        then Some(s.app.device.value.(deviceLabel := name)) else s.app.device;
      Outcome(s.(app := s.app.(devices := Relabel(s.app.devices, path, name), device := device)), true)
  }

  /** The first half of `dismiss_auth`: forget the request, and the session it was discarding. */
  function DismissRelease(s: Shared): Shared {
    var a := s.app;
    var s1 := s.(generation := if a.phase == WaitingForTouch then s.generation + 1 else s.generation,
                 app := ClearPendings(a).(flags := a.flags.(unlockSequence := false)));
    if a.pendingDeletion.None? && a.pendingRename.None? then s1
    else if a.device.Some? then Unload(s1, a.device.value.path)
    else s1.(app := s1.app.(flags := s1.app.flags.(fidoSessionUnlocked := false)))
  }

  function DismissAuth(s: Shared): Shared {
    var a := s.app;
    var s1 := DismissRelease(s);
    if a.phase == Error || a.phase == NeedsPin
       || a.pendingCreation.Some? || a.pendingDeletion.Some? || a.pendingRename.Some?
    then
      s1.(app := s1.app.(
        phase := if s1.app.keys != [] || a.flags.yubikeyConnected then Ready else WaitingForDevice,
        error := None))
    else s1
  }

  function LowerAscii(s: string): string {
    if s == [] then []
    else [if 'A' <= s[0] <= 'Z' then (s[0] as int + 32) as char else s[0]] + LowerAscii(s[1..])
  }

  function FidoNamed(name: string): SshKey -> bool {
    (key: SshKey) => key.backend == Fido2 && key.comment.Some? && LowerAscii(key.comment.value) == LowerAscii(name)
  }

  function ChosenDevice(a: App, devicePath: Option<Path>): Option<DeviceInfo> {
    match devicePath
    case Some(path) => Find(a.devices, FidoAt(path))
    case None => if a.device.Some? && a.device.value.fido2 then a.device else None
  }

  function Select(s: Shared, target: DeviceInfo): Shared {
    s.(app := s.app.(device := Some(target)))
  }

  function AskCreation(s: Shared, target: DeviceInfo, name: string, algorithm: Algorithm, reuse: bool): Shared {
    s.(app := ClearPendings(s.app).(
      device := Some(target), pendingCreation := Some(name), pendingAlgorithm := Some(algorithm),
      phase := if reuse then WaitingForTouch else NeedsPin, error := None))
  }

  /** `name` has been trimmed and validated. The chosen device stays selected on the later refusals. */
  function RequestCreation(s: Shared, name: string, algorithm: Algorithm, devicePath: Option<Path>): Outcome {
    if algorithm.Other? then Outcome(s, false)
    else if !s.app.flags.yubikeyConnected || ChosenDevice(s.app, devicePath).None? then Outcome(s, false)
    else
      var target := ChosenDevice(s.app, devicePath).value;
      if target.algorithms != [] && algorithm !in target.algorithms then Outcome(Select(s, target), false)
      else if Find(s.app.keys, FidoNamed(name)).Some? then Outcome(Select(s, target), false)
      else
        var reuse := !s.policy.requireForCreate && target.path in s.pins;
        var asked := AskCreation(s, target, name, algorithm, reuse);
        Outcome(if reuse then asked else Unload(asked, target.path), true)
  }

  /** Selects the device and records the deletion; the keys stay listed while it waits. */
  function AskDeletion(s: Shared, device: DeviceInfo, fingerprint: string, reuse: bool): Shared {
    s.(app := ClearPendings(s.app).(
      device := Some(device), pendingDeletion := Some(fingerprint),
      phase := if reuse then WaitingForTouch else NeedsPin, error := None))
  }

  function RequestDeletion(s: Shared, fingerprint: string): Outcome {
    if !s.app.flags.yubikeyConnected then Outcome(s, false)
    else
      var found := Find(s.app.keys, FidoFingerprint(fingerprint));
      if found.None? || found.value.devicePath.None? then Outcome(s, false)
      else
        var path := found.value.devicePath.value;
        var device := Find(s.app.devices, AtPath(path));
        if device.None? then Outcome(s.(app := s.app.(device := None)), false)
        else
          var reuse := !s.policy.requireForDelete && path in s.pins;
          var asked := AskDeletion(s, device.value, fingerprint, reuse);
          Outcome(if reuse then asked else DropSession(asked, path), true)
  }

  function AskRename(s: Shared, device: DeviceInfo, fingerprint: string, name: string): Shared {
    s.(app := ClearPendings(s.app).(
      device := Some(device), pendingRename := Some(PendingRename(fingerprint, name)),
      phase := NeedsPin, error := None))
  }

  /** The branch of `rename_key` that asks for the PIN of a FIDO2 key's device. */
  function RenamePrompt(s: Shared, path: Path, fingerprint: string, name: string): Outcome {
    var device := Find(s.app.devices, AtPath(path));
    if device.None? then Outcome(s.(app := s.app.(device := None)), false)
    else Outcome(DropSession(AskRename(s, device.value, fingerprint, name), path), true)
  }

  function RenameLoading(s: Shared): Shared {
    s.(app := s.app.(phase := Loading, error := None))
  }

  /** A key that disappeared meanwhile leaves the phase at Loading. */
  function RenameFinish(s: Shared, fingerprint: string, updated: Result<SshKey, Failure>): Outcome {
    match updated
    case Err(failure) => Outcome(s.(app := s.app.(phase := Ready, error := Some(failure))), false)
    case Ok(key) =>
      if Find(s.app.keys, HasFingerprint(fingerprint)).None? then Outcome(s, false)
      else Outcome(s.(app := s.app.(
        keys := ReplaceFirst(s.app.keys, fingerprint, key), phase := Ready, error := None)), true)
  }

  function EnclaveCreated(s: Shared, key: SshKey): Shared {
    s.(app := s.app.(keys := s.app.keys + [key], phase := Ready, error := None))
  }

  function EnclaveDeleted(s: Shared, fingerprint: string): Shared {
    s.(app := s.app.(keys := Filter(s.app.keys, LacksFingerprint(fingerprint)), phase := Ready, error := None))
  }

  /** The tray's "Reload Keys" entry. */
  function TrayReload(s: Shared): Shared {
    if s.app.flags.yubikeyConnected then s.(app := s.app.(phase := NeedsPin, error := None)) else s
  }

  // ----- ipc/commands.rs: perform_fido_operation

  datatype Begun = Refused | Begun(state: Shared, op: Operation)

  function DeletionTarget(a: App): Option<SshKey> {
    if a.pendingDeletion.Some? then Find(a.keys, FidoFingerprint(a.pendingDeletion.value)) else None
  }

  function RenameTarget(a: App): Option<(SshKey, string)> {
    if a.pendingRename.None? then None
    else
      var key := Find(a.keys, FidoFingerprint(a.pendingRename.value.fingerprint));
      if key.Some? then Some((key.value, a.pendingRename.value.name)) else None
  }

  /** The keys of a pending deletion or rename have to be still there. */
  predicate CanBegin(a: App) {
    && a.device.Some?
    && (a.pendingDeletion.Some? ==> DeletionTarget(a).Some?)
    && (a.pendingRename.Some? ==> RenameTarget(a).Some?)
  }

  function AwaitDevice(a: App): App {
    var touch := a.pendingCreation.Some? || DeletionTarget(a).Some?;
    a.(phase := if touch then WaitingForTouch else Loading, error := None)
  }

  function BeginOperation(s: Shared, pin: Pin): Begun {
    var a := s.app;
    if !CanBegin(a) then Refused
    else
      Begun(s.(app := AwaitDevice(a)),
            Operation(a.device.value.path, pin, a.pendingCreation,
                      if a.pendingAlgorithm.Some? then a.pendingAlgorithm.value else Ed25519Sk,
                      DeletionTarget(a), RenameTarget(a)))
  }

  function FinishSucceeded(s: Shared, op: Operation, loaded: seq<SshKey>): Shared {
    var a := s.app;
    var unlocked := if op.path in a.unlockedPaths then a.unlockedPaths else a.unlockedPaths + [op.path];
    var nextLocked :=
      if op.NormalUnlock() && a.flags.unlockSequence then Find(a.devices, StillLocked(unlocked)) else None;
    s.(pins := s.pins[op.path := op.pin],
       app := ClearPendings(a).(
         keys := Filter(a.keys, OffPath(op.path)) + loaded,
         unlockedPaths := unlocked,
         device := OrElse(nextLocked, Find(a.devices, AtPath(op.path))),
         phase := if nextLocked.Some? then NeedsPin else Ready,
         flags := a.flags.(agentRunning := true,
                           unlockSequence := a.flags.unlockSequence && nextLocked.Some?,
                           fidoSessionUnlocked := AllUnlocked(a.devices, unlocked)),
         error := None,
         securityNotice := None))
  }

  /** The FIDO2 keys of the device are not unloaded by a failure. */
  function FinishFailed(s: Shared, op: Operation, failure: Failure): Shared {
    var a := s.app;
    var wrongPin := failure == InvalidPin;
    s.(pins := s.pins - {op.path},
       app := a.(
         phase := if wrongPin then NeedsPin else Error,
         error := Some(failure),
         unlockedPaths := Filter(a.unlockedPaths, OtherPath(op.path)),
         flags := a.flags.(fidoSessionUnlocked := false),
         pendingCreation := if wrongPin then a.pendingCreation else None,
         pendingAlgorithm := if wrongPin then a.pendingAlgorithm else None,
         pendingRename := if wrongPin || op.renaming.Some? then a.pendingRename else None,
         pendingDeletion := if wrongPin || op.deleting.Some? then a.pendingDeletion else None))
  }

  function FinishOperation(s: Shared, op: Operation, outcome: Result<seq<SshKey>, Failure>): Shared {
    match outcome
    case Ok(loaded) => FinishSucceeded(s, op, loaded)
    case Err(failure) => FinishFailed(s, op, failure)
  }

  // ----- device/watcher.rs

  predicate OperationInProgress(a: App) {
    a.phase == NeedsPin || a.phase == Loading || a.phase == WaitingForTouch
    || a.pendingCreation.Some? || a.pendingDeletion.Some? || a.pendingRename.Some?
  }

  function ActiveDevice(a: App, earlier: seq<Path>, devices: seq<DeviceInfo>, unlocked: seq<Path>): Option<DeviceInfo> {
    var current := DevicePath(a.device);
    var same := if current.Some? then Find(devices, AtPath(current.value)) else None;
    if OperationInProgress(a) && current.Some? && current.value in Paths(devices) then same
    else
      OrElse(Find(devices, NewFido(earlier)),
             OrElse(same, OrElse(Find(devices, StillLocked(unlocked)), Find(devices, IsFidoDevice()))))
  }

  /** `pins.retain`: the PINs of the connected paths. */
  function RetainPins(pins: map<Path, Pin>, paths: seq<Path>): map<Path, Pin> {
    map p | p in pins && p in paths :: pins[p]
  }

  /** The phase a scan leads to, before it is decided whether a new device prompts at once. */
  function SettledPhase(a: App, newcomer: bool): Phase {
    if OperationInProgress(a) then a.phase
    else if newcomer then NeedsPin
    else if a.devices != [] || a.keys != [] then Ready
    else WaitingForDevice
  }

  /** What a scan drops first: everything of devices that are gone. */
  function Pruned(s: Shared, paths: seq<Path>): Shared {
    s.(pins := RetainPins(s.pins, paths),
       app := s.app.(unlockedPaths := Filter(s.app.unlockedPaths, Among(paths)),
                     keys := Filter(s.app.keys, StillConnected(paths))))
  }

  /** What a scan records: the devices, the active one, and whether they are all unlocked. */
  function Adopted(s: Shared, devices: seq<DeviceInfo>, active: Option<DeviceInfo>): Shared {
    s.(app := s.app.(
      devices := devices,
      device := active,
      flags := s.app.flags.(yubikeyConnected := devices != [],
                            fidoSessionUnlocked := devices != [] && AllUnlocked(devices, s.app.unlockedPaths))))
  }

  predicate PromptAllowed(outstanding: set<Condition>, policy: Policy, initial: bool, newcomer: bool) {
    outstanding == {} && if initial then policy.promptOnStartup else newcomer && policy.promptOnDeviceConnection
  }

  /** The phase a scan ends in: a new device prompts at once only where that is allowed. */
  function Announced(s: Shared, changed: bool, newcomer: bool, initial: bool): Shared {
    var a := s.app;
    var phase := SettledPhase(a, newcomer);
    var asksNow := changed && phase == NeedsPin && a.phase != NeedsPin;
    var settled := s.(app := a.(phase := phase, error := if OperationInProgress(a) then a.error else None));
    if !asksNow then settled
    else if PromptAllowed(s.outstanding, s.policy, initial, newcomer) then
      settled.(app := settled.app.(flags := a.flags.(unlockSequence := true)))
    else settled.(app := settled.app.(phase := Ready))
  }

  /** `earlier` are the paths the scan saw before it asked the hardware. */
  function ScanFound(s: Shared, earlier: seq<Path>, initial: bool, devices: seq<DeviceInfo>): Shared {
    var pruned := Pruned(s, Paths(devices));
    var active := ActiveDevice(pruned.app, earlier, devices, pruned.app.unlockedPaths);
    var changed := s.app.devices != devices || DevicePath(s.app.device) != DevicePath(active);
    Announced(Adopted(pruned, devices, active), changed, Find(devices, NewFido(earlier)).Some?, initial)
  }

  /** A failed scan is ignored while an authenticator is connected. */
  function ScanFailed(s: Shared, failure: Failure): Shared {
    if s.app.flags.yubikeyConnected then s
    else s.(app := s.app.(error := Some(failure), phase := Error))
  }

  function ScanApply(s: Shared, earlier: seq<Path>, initial: bool, result: Result<seq<DeviceInfo>, Failure>): Shared {
    match result
    case Ok(devices) => ScanFound(s, earlier, initial, devices)
    case Err(failure) => ScanFailed(s, failure)
  }

  // ----- agent/server.rs and provider/mod.rs: signing

  /** `authorize`: the agent is unlocked and an equivalent enabled key is still present. */
  predicate Authorizes(a: App, requested: SshKey) {
    !a.flags.agentLocked
    && exists k | k in a.keys ::
      k.enabled && k.fingerprint == requested.fingerprint
      && k.publicBlob == requested.publicBlob && k.backend == requested.backend
  }

  /** What `sign_request` does to the state once it has found a FIDO2 key on `path`. */
  function SignTarget(s: Shared, path: Path): Shared {
    s.(app := s.app.(
      device := Find(s.app.devices, AtPath(path)),
      phase := if path in s.pins then WaitingForTouch else NeedsPin,
      error := None))
  }

  /** `dismissed` is whether the prompt was dismissed by the time the signature came back. */
  function SignFinish(s: Shared, backend: KeyBackend, dismissed: bool, failure: Option<Failure>): Shared {
    if backend != Fido2 then
      if failure.Some? then s.(app := s.app.(phase := Error, error := failure)) else s
    else
      var needsPin := failure == Some(PinNotCached);
      s.(app := s.app.(
        phase := if needsPin then NeedsPin else if failure.None? || dismissed then Ready else Error,
        error := if dismissed || needsPin then None else failure))
  }
}
