/** What holds of the shared state in every reachable state, and which steps may touch which keys. */
module SessionConsistency {
  import opened Common
  import opened State
  import opened Session
  import opened SessionInvariants
  import opened Machine
  import opened MachineInvariant

  /** The consistency of the session fields in every state of every run. */
  lemma AlwaysConsistent(r: Run, i: nat)
    requires ValidRun(r) && i < |r.states|
    ensures var a := r.states[i].shared.app;
            && NoDup(a.unlockedPaths)
            && (a.flags.fidoSessionUnlocked ==> forall d | d in a.devices && d.fido2 :: d.path in a.unlockedPaths)
            && (a.device.Some? ==> a.device.value in a.devices)
            && (forall k | k in a.keys && k.backend == Fido2 :: k.devicePath.Some?)
            && (a.flags.yubikeyConnected <==> a.devices != [])
  {
    hide Initial, Enabled, After, Exclusive, OneScanner, TaskOk, Cached, LockInProgress;
    InvariantAlways(r, i);
  }

  /** At most one request is pending, and an algorithm is pending exactly with a creation. */
  lemma OneRequestPending(r: Run, i: nat)
    requires ValidRun(r) && i < |r.states|
    ensures PendingsExclusive(r.states[i].shared.app)
  {
    hide Initial, Enabled, After, Exclusive, OneScanner, TaskOk, Cached, LockInProgress, NoDup, AllUnlocked;
    InvariantAlways(r, i);
  }

  /** Outside the two halves of a session lock, every unlocked path has its PIN cached. */
  lemma UnlockedMeansCached(r: Run, i: nat, path: Path)
    requires ValidRun(r) && i < |r.states| && !LockInProgress(r.states[i])
    requires path in r.states[i].shared.app.unlockedPaths
    ensures path in r.states[i].shared.pins
  {
    hide Initial, Enabled, After, Exclusive, OneScanner, TaskOk, Shape, LockInProgress;
    InvariantAlways(r, i);
  }

  /** An unlocked FIDO2 session means a cached PIN for every connected FIDO2 device. */
  lemma UnlockedSessionIsComplete(r: Run, i: nat, d: DeviceInfo)
    requires ValidRun(r) && i < |r.states| && !LockInProgress(r.states[i])
    requires r.states[i].shared.app.flags.fidoSessionUnlocked && d in r.states[i].shared.app.devices && d.fido2
    ensures d.path in r.states[i].shared.pins
  {
    hide Initial, Enabled, After, LockInProgress;
    AlwaysConsistent(r, i);
    UnlockedMeansCached(r, i, d.path);
  }

  // ----- which steps touch the keys that are not on a FIDO2 device

  predicate EditsOtherKeys(a: Action) {
    || (a.Lock? && a.lock.ToggleEnd?)
    || a == Rename(RenameEnd)
    || a == EnclaveStep(EnclaveEnd)
  }

  lemma LockStepFrame(s: Shared, task: Option<Task>, a: LockAction)
    requires LockFits(s, task, a) && !a.ToggleEnd?
    ensures NonFido(LockShared(s, task, a).app) == NonFido(s.app)
  {
    hide Find, Filter, LockApp, Recovered;
    match (task, a)
    case (Some(AgentLocking(_, PinsGone(wasUnlocked))), AgentLockSession) => LockAppKeeps(s, Manual, wasUnlocked);
    case (Some(SessionLocking(reason, wasUnlocked)), SessionLockApp) => LockAppKeeps(s, reason, wasUnlocked);
    case (_, Recovery(_)) => RecoveredKeeps(s);
    case _ =>
  }

  lemma OperationStepFrame(s: Shared, task: Option<Task>, a: OperationAction)
    requires OperationFits(s, task, a) && (task.Some? ==> TaskOk(s, task.value))
    ensures NonFido(OperationShared(s, task, a).app) == NonFido(s.app)
  {
    hide Find, Filter, BeginOperation, FinishSucceeded, FinishFailed;
    match (task, a)
    case (_, OpBegin(pin)) => BeginKeeps(s, pin);
    case (Some(Operating(op, Answered(Ok(loaded)))), OpEnd) => FinishReplacesDeviceKeys(s, op, loaded);
    case (Some(Operating(op, Answered(Err(failure)))), OpEnd) => FinishFailedKeeps(s, op, failure);
    case _ =>
  }

  lemma RenameStepFrame(s: Shared, task: Option<Task>, a: RenameAction)
    requires RenameFits(s, task, a) && !a.RenameEnd?
    ensures NonFido(RenameShared(s, task, a).app) == NonFido(s.app)
  {
    hide Find, Filter, RenamePrompt, RenameFinish;
    match (task, a)
    case (Some(RenameChecked(key, name, _)), RenameAsk) =>
      RenamePromptKeeps(s, key.devicePath.value, key.fingerprint, name);
    case _ =>
  }

  lemma HandleFrame(s: Shared, request: Request)
    ensures NonFido(HandleShared(s, request).app) == NonFido(s.app)
  {
    hide Find, Filter, RequestUnlock, RequestDeviceUnlock, SetSecurityKeyLabel, DismissAuth, RequestCreation,
      RequestDeletion;
    match request
    case Unlock => RequestUnlockKeeps(s);
    case DeviceUnlock(path) => RequestDeviceUnlockKeeps(s, path);
    case SetLabel(path, name, saved) => SetSecurityKeyLabelKeeps(s, path, name, saved);
    case Dismiss => DismissFrame(s);
    case Create(name, algorithm, devicePath) => RequestCreationKeeps(s, name, algorithm, devicePath);
    case Delete(fingerprint) => RequestDeletionKeeps(s, fingerprint);
    case Reload =>
  }

  lemma DismissFrame(s: Shared)
    ensures NonFido(DismissAuth(s).app) == NonFido(s.app)
  {
    hide Filter, DismissRelease;
    DismissKeeps(s);
  }

  lemma SignStepFrame(s: Shared, task: Option<Task>, a: SignAction)
    requires SignFits(s, task, a)
    ensures SignShared(s, task, a).app.keys == s.app.keys
  {
    hide Find;
    match (task, a)
    case (Some(SignDated(_, _)), SignPrepare) =>
    case _ =>
  }

  lemma ScanStepFrame(s: Shared, task: Option<Task>, a: ScanAction)
    ensures NonFido(ScanShared(s, task, a).app) == NonFido(s.app)
  {
    hide ScanApply;
    match (task, a)
    case (Some(Scanning(earlier, initial, Detected(result))), ScanEnd) => ScanKeeps(s, earlier, initial, result);
    case _ =>
  }

  /**
   * In every run, locking, unlocking, scanning, dismissing and every FIDO2 operation leave the list of
   * keys that are not on a FIDO2 device exactly as it was.
   */
  lemma OtherKeysUntouched(r: Run, i: nat)
    requires ValidRun(r) && i < |r.labels| && !EditsOtherKeys(r.labels[i].action)
    ensures NonFido(r.states[i + 1].shared.app) == NonFido(r.states[i].shared.app)
  {
    hide OperationShared, RenameShared, LockShared, SignShared, HandleShared, ScanShared, Needs, NextTask,
      OperationFits, RenameFits, LockFits, SignFits, TaskOk, Initial, Filter;
    var s, l := r.states[i], r.labels[i];
    InvariantAlways(r, i);
    assert Enabled(s, l) && r.states[i + 1] == After(s, l);
    var task := TaskOf(s, l.tid);
    match l.action
    case Sign(b) => SignStepFrame(s.shared, task, b);
    case Lock(b) => LockStepFrame(s.shared, task, b);
    case Operate(b) => OperationStepFrame(s.shared, task, b);
    case Rename(b) => RenameStepFrame(s.shared, task, b);
    case Scan(b) => ScanStepFrame(s.shared, task, b);
    case Handle(request) => HandleFrame(s.shared, request);
    case EnclaveStep(b) =>
    case SetPolicy(_) =>
  }

  /** A completed FIDO2 operation replaces exactly the keys of its own device. */
  lemma OperationReplacesItsKeys(r: Run, i: nat)
    requires ValidRun(r) && i < |r.labels| && r.labels[i].action == Operate(OpEnd)
    ensures r.labels[i].tid in r.states[i].tasks && r.states[i].tasks[r.labels[i].tid].Operating?
    ensures var task := r.states[i].tasks[r.labels[i].tid];
            var before, after := r.states[i].shared.app.keys, r.states[i + 1].shared.app.keys;
            && task.opStep.Answered?
            && match task.opStep.outcome
               case Ok(loaded) =>
                 && Filter(after, OffPath(task.op.path)) == Filter(before, OffPath(task.op.path))
                 && Filter(after, OnPath(task.op.path)) == loaded
               case Err(_) => after == before
  {
    hide Filter, Find, FinishSucceeded, FinishFailed, Initial, Exclusive, OneScanner, Shape, Cached, LockInProgress;
    InvariantAlways(r, i);
    var s, l := r.states[i], r.labels[i];
    assert Enabled(s, l) && r.states[i + 1] == After(s, l);
    var Operating(op, Answered(outcome)) := s.tasks[l.tid];
    assert TaskOk(s.shared, s.tasks[l.tid]);
    match outcome
    case Ok(loaded) => FinishReplacesDeviceKeys(s.shared, op, loaded);
    case Err(failure) => FinishFailedKeeps(s.shared, op, failure);
  }
}
