/** What a device scan may and may not do to a PIN prompt. */
module DeviceWatcher {
  import opened Common
  import opened State
  import opened Session
  import opened SessionInvariants
  import opened Machine
  import opened MachineInvariant

  /** One scan as the scanner thread applies it. */
  datatype ScanEvent = ScanEvent(earlier: seq<Path>, initial: bool, result: Result<seq<DeviceInfo>, Failure>)

  function ApplyScan(s: Shared, e: ScanEvent): Shared {
    ScanApply(s, e.earlier, e.initial, e.result)
  }

  function ApplyScans(s: Shared, events: seq<ScanEvent>): Shared
    decreases |events|
  {
    if events == [] then s else ApplyScans(ApplyScan(s, events[0]), events[1..])
  }

  /** The scan failed, or it still sees the device. */
  predicate StillThere(path: Path, e: ScanEvent) {
    e.result.Ok? ==> path in Paths(e.result.value)
  }

  /** The same target path, phase, error and pending request. */
  predicate SamePrompt(a: App, b: App) {
    && DevicePath(b.device) == DevicePath(a.device)
    && b.phase == a.phase
    && b.error == a.error
    && b.flags.unlockSequence == a.flags.unlockSequence
    && b.pendingCreation == a.pendingCreation
    && b.pendingAlgorithm == a.pendingAlgorithm
    && b.pendingDeletion == a.pendingDeletion
    && b.pendingRename == a.pendingRename
  }

  lemma PathFound(devices: seq<DeviceInfo>, path: Path)
    requires path in Paths(devices)
    ensures var found := Find(devices, AtPath(path)); found.Some? && found.value.path == path
  {
    hide Find, Paths;
    var d :| d in devices && d.path == path;
    assert AtPath(path)(d);
  }

  lemma ScanKeepsTarget(s: Shared, e: ScanEvent)
    requires Shape(s.app) && OperationInProgress(s.app)
    requires s.app.device.Some? && StillThere(s.app.device.value.path, e)
    ensures SamePrompt(s.app, ApplyScan(s, e).app)
  {
    hide Find, Filter, Paths, NoDup, FidoKeysHavePaths, AllUnlocked;
    match e.result
    case Ok(devices) => PathFound(devices, s.app.device.value.path);
    case Err(_) =>
  }

  /**
   * While an operation is in progress and the targeted device stays connected, no number of scans,
   * successful or failed, moves the prompt to another device or disturbs its phase, error or request.
   */
  lemma {:induction false} ScansKeepTarget(s: Shared, events: seq<ScanEvent>)
    requires Shape(s.app) && OperationInProgress(s.app) && s.app.device.Some?
    requires forall e | e in events :: StillThere(s.app.device.value.path, e)
    ensures SamePrompt(s.app, ApplyScans(s, events).app)
    decreases |events|
  {
    hide ApplyScan, Shape, StillThere;
    if events != [] {
      assert events[0] in events;
      ScanKeepsTarget(s, events[0]);
      ScanKeepsShape(s, events[0]);
      ScansKeepTarget(ApplyScan(s, events[0]), events[1..]);
    }
  }

  lemma ScanKeepsShape(s: Shared, e: ScanEvent)
    requires Shape(s.app)
    ensures Shape(ApplyScan(s, e).app)
  {
    hide ScanApply, Shape;
    ScanKeeps(s, e.earlier, e.initial, e.result);
  }

  /** A newly connected FIDO2 device, nothing else going on, no lock condition, and the setting on. */
  predicate ShouldPrompt(s: Shared, e: ScanEvent) {
    && e.result.Ok?
    && !OperationInProgress(s.app)
    && (exists d | d in e.result.value :: d.fido2 && d.path !in Paths(s.app.devices))
    && s.outstanding == {}
    && (if e.initial then s.policy.promptOnStartup else s.policy.promptOnDeviceConnection)
  }

  /** A scan starts a PIN prompt exactly when it should, and then with the unlock sequence set. */
  lemma ScanPromptsExactly(s: Shared, e: ScanEvent)
    requires e.earlier == Paths(s.app.devices) && s.app.phase != NeedsPin
    ensures ApplyScan(s, e).app.phase == NeedsPin <==> ShouldPrompt(s, e)
    ensures ShouldPrompt(s, e) ==>
              var after := ApplyScan(s, e).app;
              && after.flags.unlockSequence
              && after.device.Some? && after.device.value.fido2
              && after.device.value.path !in Paths(s.app.devices)
  {
    hide Find, Filter, AllUnlocked, Paths, RetainPins;
    if e.result.Ok? {
      var devices := e.result.value;
      var newcomer := Find(devices, NewFido(e.earlier));
      assert newcomer.Some? <==> exists d | d in devices :: d.fido2 && d.path !in e.earlier by {
        assert newcomer.None? ==> forall d | d in devices :: !NewFido(e.earlier)(d);
      }
      assert newcomer.Some? ==> devices != s.app.devices;
    }
  }

  /** The same for the scanner thread in any run: its view of the earlier devices is never stale. */
  lemma ScanPromptsInRuns(r: Run, i: nat)
    requires ValidRun(r) && i < |r.labels| && r.labels[i].action == Scan(ScanEnd)
    requires r.states[i].shared.app.phase != NeedsPin
    ensures r.labels[i].tid in r.states[i].tasks && r.states[i].tasks[r.labels[i].tid].Scanning?
    ensures var task := r.states[i].tasks[r.labels[i].tid];
            task.scanStep.Detected? &&
            var e := ScanEvent(task.earlier, task.initial, task.scanStep.result);
            var prompts := ShouldPrompt(r.states[i].shared, e);
            var after := r.states[i + 1].shared.app;
            && (after.phase == NeedsPin <==> prompts)
            && (prompts ==>
                  && after.flags.unlockSequence
                  && after.device.Some? && after.device.value.fido2
                  && after.device.value.path !in Paths(r.states[i].shared.app.devices))
  {
    hide Initial, Exclusive, OneScanner, Shape, Cached, LockInProgress, ScanApply, Paths, ShouldPrompt;
    InvariantAlways(r, i);
    var s, l := r.states[i], r.labels[i];
    assert Enabled(s, l) && r.states[i + 1] == After(s, l);
    assert TaskOk(s.shared, s.tasks[l.tid]);
    var Scanning(earlier, initial, Detected(result)) := s.tasks[l.tid];
    ScanPromptsExactly(s.shared, ScanEvent(earlier, initial, result));
  }
}
