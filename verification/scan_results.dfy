/** What a successful device scan leaves of keys, PINs and unlocked paths, in terms of the devices it found. */
module ScanResults {
  import opened Common
  import opened State
  import opened Session
  import opened SessionInvariants
  import opened Machine
  import opened MachineInvariant
  import opened DeviceWatcher

  predicate FoundAt(devices: seq<DeviceInfo>, path: Path) {
    exists d | d in devices :: d.path == path
  }

  /** Not on a FIDO2 device, or on one that was found. */
  function OnFound(devices: seq<DeviceInfo>): SshKey -> bool {
    (key: SshKey) => key.backend != Fido2 || (key.devicePath.Some? && FoundAt(devices, key.devicePath.value))
  }

  function IsFound(devices: seq<DeviceInfo>): Path -> bool {
    (path: Path) => FoundAt(devices, path)
  }

  /** Exactly what belongs to the found devices is left: the keys in order, the paths in order, the same PINs. */
  ghost predicate LeavesFound(before: Shared, after: Shared, devices: seq<DeviceInfo>) {
    && after.app.keys == Filter(before.app.keys, OnFound(devices))
    && after.app.unlockedPaths == Filter(before.app.unlockedPaths, IsFound(devices))
    && (forall path :: path in after.pins <==> path in before.pins && FoundAt(devices, path))
    && (forall path | path in after.pins :: after.pins[path] == before.pins[path])
  }

  lemma PathsFound(devices: seq<DeviceInfo>, path: Path)
    ensures path in Paths(devices) <==> FoundAt(devices, path)
  {
  }

  lemma PrunedLeaves(s: Shared, devices: seq<DeviceInfo>)
    ensures LeavesFound(s, Pruned(s, Paths(devices)), devices)
  {
    hide Filter, Paths, FoundAt;
    forall path: Path ensures path in Paths(devices) <==> FoundAt(devices, path) { PathsFound(devices, path); }
    FilterAgree(s.app.keys, StillConnected(Paths(devices)), OnFound(devices));
    FilterAgree(s.app.unlockedPaths, Among(Paths(devices)), IsFound(devices));
  }

  /** The rest of the state: the devices are the found ones, the flags say what they are for, requests stay. */
  predicate RecordsFound(before: Shared, after: Shared, devices: seq<DeviceInfo>) {
    var a, b := before.app, after.app;
    && b.devices == devices
    && (b.flags.yubikeyConnected <==> devices != [])
    && (b.flags.fidoSessionUnlocked <==> devices != [] && forall d | d in devices
        && d.fido2 :: d.path in b.unlockedPaths)
    && b.flags.agentLocked == a.flags.agentLocked && b.flags.agentRunning == a.flags.agentRunning
    && b.pendingCreation == a.pendingCreation && b.pendingAlgorithm == a.pendingAlgorithm
    && b.pendingDeletion == a.pendingDeletion && b.pendingRename == a.pendingRename
    && b.securityNotice == a.securityNotice
    && after.generation == before.generation && after.outstanding == before.outstanding
    && after.policy == before.policy
  }

  lemma ScanLeavesFound(s: Shared, e: ScanEvent)
    requires e.result.Ok?
    ensures LeavesFound(s, ApplyScan(s, e), e.result.value)
    ensures RecordsFound(s, ApplyScan(s, e), e.result.value)
  {
    hide Find, Filter, Paths, ActiveDevice, SettledPhase, PromptAllowed, OperationInProgress, FoundAt, LeavesFound;
    var devices := e.result.value;
    PrunedLeaves(s, devices);
    var pruned, after := Pruned(s, Paths(devices)), ApplyScan(s, e);
    assert after.app.keys == pruned.app.keys && after.app.unlockedPaths == pruned.app.unlockedPaths;
    assert after.pins == pruned.pins;
    SameLeft(s, pruned, after, devices);
  }

  lemma SameLeft(s: Shared, pruned: Shared, after: Shared, devices: seq<DeviceInfo>)
    requires LeavesFound(s, pruned, devices)
    requires after.app.keys == pruned.app.keys && after.app.unlockedPaths == pruned.app.unlockedPaths
    requires after.pins == pruned.pins
    ensures LeavesFound(s, after, devices)
  {
    hide Filter, FoundAt;
  }

  /** Everything of the session belongs to connected devices. */
  predicate AllConnected(s: Shared) {
    && (forall key | key in s.app.keys :: OnFound(s.app.devices)(key))
    && (forall path | path in s.app.unlockedPaths :: FoundAt(s.app.devices, path))
    && (forall path | path in s.pins :: FoundAt(s.app.devices, path))
  }

  /** Seeing the same devices again unloads nothing, forgets no PIN and locks nothing. */
  lemma RescanLosesNothing(s: Shared, e: ScanEvent)
    requires AllConnected(s) && e.result == Ok(s.app.devices)
    ensures var after := ApplyScan(s, e);
            && after.app.keys == s.app.keys && after.app.unlockedPaths == s.app.unlockedPaths && after.pins == s.pins
  {
    hide ApplyScan, Filter, FoundAt, RecordsFound;
    ScanLeavesFound(s, e);
    FilterAll(s.app.keys, OnFound(s.app.devices));
    FilterAll(s.app.unlockedPaths, IsFound(s.app.devices));
  }

  /** The same for the scanner thread: every step in which a scan ends with an answer of the hardware. */
  lemma ScanStepLeavesFound(s: Sys, l: Label, devices: seq<DeviceInfo>)
    requires Enabled(s, l) && l.action == Scan(ScanEnd)
    requires l.tid in s.tasks && s.tasks[l.tid].Scanning? && s.tasks[l.tid].scanStep == Detected(Ok(devices))
    ensures LeavesFound(s.shared, After(s, l).shared, devices)
    ensures RecordsFound(s.shared, After(s, l).shared, devices)
  {
    hide LeavesFound, RecordsFound, ScanApply;
    var Scanning(earlier, initial, _) := s.tasks[l.tid];
    ScanLeavesFound(s.shared, ScanEvent(earlier, initial, Ok(devices)));
  }

  /** A failed scan changes nothing while a device is connected; otherwise it only shows its error. */
  lemma FailedScan(s: Shared, e: ScanEvent)
    requires e.result.Err?
    ensures s.app.flags.yubikeyConnected ==> ApplyScan(s, e) == s
    ensures !s.app.flags.yubikeyConnected ==>
              ApplyScan(s, e) == s.(app := s.app.(phase := Error, error := Some(e.result.error)))
  {
  }

  // ----- the phase and the device a scan settles on

  /** With nothing in progress the phase follows from what is connected and listed, and an old error goes. */
  lemma ScanSettles(s: Shared, e: ScanEvent)
    requires e.result.Ok? && e.earlier == Paths(s.app.devices) && !OperationInProgress(s.app)
    ensures var after := ApplyScan(s, e).app;
            && after.error == None
            && after.phase == (if ShouldPrompt(s, e) then NeedsPin
                               else if after.devices != [] || after.keys != [] then Ready
                               else WaitingForDevice)
            && (after.flags.unlockSequence <==> s.app.flags.unlockSequence || ShouldPrompt(s, e))
  {
    hide Find, Filter, AllUnlocked, Paths, RetainPins;
    var devices := e.result.value;
    var newcomer := Find(devices, NewFido(e.earlier));
    assert newcomer.Some? <==> exists d | d in devices :: d.fido2 && d.path !in e.earlier by {
      assert newcomer.None? ==> forall d | d in devices :: !NewFido(e.earlier)(d);
    }
    assert newcomer.Some? ==> devices != s.app.devices;
  }

  lemma FoundByNone(devices: seq<DeviceInfo>, p: DeviceInfo -> bool)
    ensures Find(devices, p).Some? <==> exists d | d in devices :: p(d)
  {
  }

  predicate IsNew(earlier: seq<Path>, d: DeviceInfo) {
    d.fido2 && d.path !in earlier
  }

  predicate IsLocked(unlocked: seq<Path>, d: DeviceInfo) {
    d.fido2 && d.path !in unlocked
  }

  /**
   * The device a scan turns to, unless a prompt keeps it on its target: a new FIDO2 device, or the one it
   * was on, or a locked one, or any FIDO2 device, in this order.
   */
  predicate TurnsTo(devices: seq<DeviceInfo>, earlier: seq<Path>, unlocked: seq<Path>, from: Option<DeviceInfo>,
                    to: Option<DeviceInfo>)
  {
    && (to.Some? ==> to.value in devices)
    && if exists d | d in devices :: IsNew(earlier, d) then to.Some? && IsNew(earlier, to.value)
       else if from.Some? && FoundAt(devices, from.value.path) then to.Some? && to.value.path == from.value.path
       else if exists d | d in devices :: IsLocked(unlocked, d) then to.Some? && IsLocked(unlocked, to.value)
       else if exists d | d in devices :: d.fido2 then to.Some? && to.value.fido2
       else to.None?
  }

  lemma ActiveChoice(a: App, earlier: seq<Path>, devices: seq<DeviceInfo>, unlocked: seq<Path>)
    requires !OperationInProgress(a) || a.device.None? || !FoundAt(devices, a.device.value.path)
    ensures TurnsTo(devices, earlier, unlocked, a.device, ActiveDevice(a, earlier, devices, unlocked))
  {
    hide Find, Paths, OperationInProgress;
    ActiveIsConnected(a, earlier, devices, unlocked);
    FoundByNone(devices, NewFido(earlier));
    FoundByNone(devices, StillLocked(unlocked));
    FoundByNone(devices, IsFidoDevice());
    assert forall d :: NewFido(earlier)(d) <==> IsNew(earlier, d);
    assert forall d :: StillLocked(unlocked)(d) <==> IsLocked(unlocked, d);
    if a.device.Some? {
      PathsFound(devices, a.device.value.path);
      FoundByNone(devices, AtPath(a.device.value.path));
      assert forall d :: AtPath(a.device.value.path)(d) <==> d.path == a.device.value.path;
    }
  }

  lemma ScanTurnsTo(s: Shared, e: ScanEvent)
    requires e.result.Ok?
    requires !OperationInProgress(s.app) || s.app.device.None? || !FoundAt(e.result.value, s.app.device.value.path)
    ensures var after := ApplyScan(s, e).app;
            TurnsTo(e.result.value, e.earlier, after.unlockedPaths, s.app.device, after.device)
  {
    hide Find, Filter, Paths, ActiveDevice, SettledPhase, PromptAllowed, AllUnlocked, TurnsTo, FoundAt;
    var devices := e.result.value;
    var pruned := Pruned(s, Paths(devices)).app;
    assert OperationInProgress(pruned) == OperationInProgress(s.app);
    ActiveChoice(pruned, e.earlier, devices, pruned.unlockedPaths);
    var after := ApplyScan(s, e).app;
    assert after.device == ActiveDevice(pruned, e.earlier, devices, pruned.unlockedPaths);
    assert after.unlockedPaths == pruned.unlockedPaths;
  }

  // ----- the first scan

  lemma LookMarks(s: Sys, l: Label)
    requires Enabled(s, l)
    ensures After(s, l).shared.scanCompleted <==> s.shared.scanCompleted || l.action == Scan(ScanLook)
  {
    hide Find, Filter, AllUnlocked, HandleShared, OperationShared, RenameShared, ScanApply, SetKeyEnabled, LockApp;
    var task := TaskOf(s, l.tid);
    match l.action
    case Handle(request) => HandleMarks(s.shared, request);
    case Operate(a) => OperationMarks(s.shared, task, a);
    case Rename(a) => RenameMarks(s.shared, task, a);
    case Scan(a) => ScanMarks(s.shared, task, a);
    case Lock(a) => LockMarks(s.shared, task, a);
    case _ =>
  }

  lemma HandleMarks(s: Shared, request: Request)
    ensures HandleShared(s, request).scanCompleted == s.scanCompleted
  {
    hide Find, Filter, AllUnlocked;
  }

  lemma OperationMarks(s: Shared, task: Option<Task>, a: OperationAction)
    ensures OperationShared(s, task, a).scanCompleted == s.scanCompleted
  {
    hide Find, Filter, AllUnlocked;
  }

  lemma RenameMarks(s: Shared, task: Option<Task>, a: RenameAction)
    ensures RenameShared(s, task, a).scanCompleted == s.scanCompleted
  {
    hide Find, Filter;
  }

  lemma LockMarks(s: Shared, task: Option<Task>, a: LockAction)
    ensures LockShared(s, task, a).scanCompleted == s.scanCompleted
  {
    hide Find, Filter;
  }

  lemma ScanMarks(s: Shared, task: Option<Task>, a: ScanAction)
    ensures ScanShared(s, task, a).scanCompleted == (s.scanCompleted || a.ScanLook?)
  {
    hide Find, Filter, Paths, ActiveDevice, SettledPhase, PromptAllowed, OperationInProgress, AllUnlocked;
    match (task, a)
    case (Some(Scanning(earlier, initial, Detected(result))), ScanEnd) =>
      assert ScanApply(s, earlier, initial, result).scanCompleted == s.scanCompleted;
    case _ =>
  }

  lemma {:induction false} CompletedMeansLooked(r: Run, i: nat)
    requires ValidRun(r) && i < |r.states|
    ensures r.states[i].shared.scanCompleted <==> exists j | 0 <= j < i :: r.labels[j].action == Scan(ScanLook)
  {
    hide Enabled, After;
    if i > 0 {
      var s, l := r.states[i - 1], r.labels[i - 1];
      assert Enabled(s, l) && r.states[i] == After(s, l);
      CompletedMeansLooked(r, i - 1);
      LookMarks(s, l);
    }
  }

  lemma LookEffect(s: Sys, l: Label)
    requires Enabled(s, l) && l.action == Scan(ScanLook)
    ensures TaskOf(After(s, l), l.tid) == Some(Scanning(Paths(s.shared.app.devices), !s.shared.scanCompleted, Looked))
  {
    hide Paths;
  }

  /** Exactly the first scan of a run is the initial one, which the start-up setting governs. */
  lemma InitialScanIsFirst(r: Run, i: nat)
    requires ValidRun(r) && i < |r.labels| && r.labels[i].action == Scan(ScanLook)
    ensures var task := TaskOf(r.states[i + 1], r.labels[i].tid);
            && task.Some? && task.value.Scanning?
            && (task.value.initial <==> forall j | 0 <= j < i :: r.labels[j].action != Scan(ScanLook))
  {
    hide Enabled, After, Initial;
    assert Enabled(r.states[i], r.labels[i]) && r.states[i + 1] == After(r.states[i], r.labels[i]);
    CompletedMeansLooked(r, i);
    LookEffect(r.states[i], r.labels[i]);
  }
}
