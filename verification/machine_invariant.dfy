/** The inductive invariant of the machine, and that every step of every thread keeps it. */
module MachineInvariant {
  import opened Common
  import opened State
  import opened Session
  import opened SessionInvariants
  import opened Machine

  /** No mutex is held twice. */
  predicate Exclusive(s: Sys) {
    forall t, u | t in s.tasks && u in s.tasks && t != u :: Held(s.tasks[t]) !! Held(s.tasks[u])
  }

  predicate KeyHasPath(key: SshKey) {
    key.backend == Fido2 ==> key.devicePath.Some?
  }

  /** The PIN a FIDO2 signer read is the one the cache still holds. */
  predicate PinCurrent(s: Shared, key: SshKey, pin: Pin) {
    key.devicePath.Some? && key.devicePath.value in s.pins && s.pins[key.devicePath.value] == pin
  }

  predicate SignerOk(s: Shared, key: SshKey, stage: Stage) {
    && KeyHasPath(key)
    && (stage.AtPins? ==> key.backend == Fido2)
    && (stage.PinRead? ==> key.backend == Fido2 && PinCurrent(s, key, stage.pin))
    && (stage.Authorized? ==>
          && Authorizes(s.app, key)
          && (key.backend == Fido2 <==> stage.credential.Some?)
          && (key.backend == Fido2 ==> PinCurrent(s, key, stage.credential.value))
          && key.backend != Tpm)
  }

  /** What a waiting thread may rely on. */
  predicate TaskOk(s: Shared, task: Task) {
    match task
    case Signing(key, _, stage) => SignerOk(s, key, stage)
    case Operating(op, Answered(outcome)) => outcome.Ok? ==> LoadedFrom(op.path, outcome.value)
    case RenameFound(key, _) => KeyHasPath(key)
    case RenameChecked(key, _, _) => KeyHasPath(key)
    case RenameReady(key, _) => KeyHasPath(key)
    case RenameBusy(key, _) => KeyHasPath(key)
    case RenameAnswered(key, _, updated) => updated.Ok? ==> KeyHasPath(updated.value)
    case Scanning(earlier, _, _) => earlier == Paths(s.app.devices)
    case EnclaveBusy(work) => work.CreateKey? ==> work.key.backend == SecureEnclave
    case EnclaveAnswered(work) => work.CreateKey? ==> work.key.backend == SecureEnclave
    case _ => true
  }

  /** Between the two critical sections of `lock_fido_session`. */
  predicate BetweenLockSections(task: Task) {
    task.SessionLocking? || (task.AgentLocking? && task.lockStep.PinsGone?)
  }

  predicate LockInProgress(s: Sys) {
    exists t | t in s.tasks :: BetweenLockSections(s.tasks[t])
  }

  predicate OneScanner(s: Sys) {
    forall t, u | t in s.tasks && u in s.tasks && s.tasks[t].Scanning? && s.tasks[u].Scanning? :: t == u
  }

  ghost predicate Invariant(s: Sys) {
    && Exclusive(s)
    && OneScanner(s)
    && (forall t | t in s.tasks :: TaskOk(s.shared, s.tasks[t]))
    && Shape(s.shared.app)
    && (!LockInProgress(s) ==> Cached(s.shared))
  }

  // ----- locks

  function HeldBy(task: Option<Task>): set<Lock> {
    if task.Some? then Held(task.value) else {}
  }

  /** A thread holds after a step only what it held before or what the step took. */
  lemma SignHolds(s: Shared, task: Option<Task>, a: SignAction)
    requires SignFits(s, task, a)
    ensures HeldBy(SignTask(s, task, a)) <= HeldBy(task) + SignNeeds(task, a)
  {
  }

  lemma StepHolds(s: Sys, l: Label)
    requires Enabled(s, l)
    ensures var task := TaskOf(s, l.tid);
            HeldBy(NextTask(s.shared, task, l.action)) <= HeldBy(task) + Needs(task, l.action)
  {
    var task := TaskOf(s, l.tid);
    match l.action
    case Sign(b) => SignHolds(s.shared, task, b);
    case Lock(b) =>
    case Operate(b) =>
    case Rename(b) =>
    case Scan(b) =>
    case Handle(_) =>
    case EnclaveStep(b) =>
    case SetPolicy(_) =>
  }

  lemma ExclusiveKept(s: Sys, l: Label)
    requires Exclusive(s) && Enabled(s, l)
    ensures Exclusive(After(s, l))
  {
    StepHolds(s, l);
    var task := TaskOf(s, l.tid);
    forall lock, t | lock in Needs(task, l.action) && t in s.tasks ensures lock !in Held(s.tasks[t]) {
      assert Free(s, lock);
    }
  }

  /** Only a step that has the `app` mutex changes the application state, and `pins` likewise. */
  predicate Guarded(before: Shared, after: Shared, needs: set<Lock>) {
    && (after.app == before.app || AppState in needs)
    && (after.pins == before.pins || PinCache in needs)
  }

  lemma OperationGuarded(s: Shared, task: Option<Task>, a: OperationAction)
    requires OperationFits(s, task, a)
    ensures Guarded(s, OperationShared(s, task, a), OperationNeeds(a))
  {
    if a.OpBegin? { assert OperationShared(s, task, a).pins == s.pins; }
  }

  lemma LockGuarded(s: Shared, task: Option<Task>, a: LockAction)
    requires LockFits(s, task, a)
    ensures Guarded(s, LockShared(s, task, a), LockNeeds(a))
  {
  }

  lemma StepGuarded(s: Sys, l: Label)
    requires Enabled(s, l)
    ensures Guarded(s.shared, After(s, l).shared, Needs(TaskOf(s, l.tid), l.action))
  {
    var task := TaskOf(s, l.tid);
    match l.action
    case Sign(b) =>
    case Lock(b) => LockGuarded(s.shared, task, b);
    case Operate(b) => OperationGuarded(s.shared, task, b);
    case Rename(b) =>
    case Scan(b) =>
    case Handle(_) =>
    case EnclaveStep(b) =>
    case SetPolicy(_) =>
  }

  // ----- what a thread relies on

  lemma SignTaskOk(s: Shared, task: Option<Task>, a: SignAction)
    requires SignFits(s, task, a) && (task.Some? ==> TaskOk(s, task.value))
    ensures var next := SignTask(s, task, a); next.Some? ==> TaskOk(SignShared(s, task, a), next.value)
  {
    hide Find;
  }

  lemma RenameTaskOk(s: Shared, task: Option<Task>, a: RenameAction)
    requires RenameFits(s, task, a) && (task.Some? ==> TaskOk(s, task.value))
    ensures var next := RenameTask(s, task, a); next.Some? ==> TaskOk(RenameShared(s, task, a), next.value)
  {
    hide Find;
  }

  lemma OwnTaskOk(s: Sys, l: Label)
    requires Invariant(s) && Enabled(s, l)
    ensures var next := NextTask(s.shared, TaskOf(s, l.tid), l.action);
            next.Some? ==> TaskOk(After(s, l).shared, next.value)
  {
    hide Find, Filter;
    var task := TaskOf(s, l.tid);
    match l.action
    case Sign(b) => SignTaskOk(s.shared, task, b);
    case Lock(b) =>
    case Operate(b) =>
    case Rename(b) => RenameTaskOk(s.shared, task, b);
    case Scan(b) =>
    case Handle(_) =>
    case EnclaveStep(b) =>
    case SetPolicy(_) =>
  }

  /**
   * A step that leaves the connected devices and the agent lock alone and caches no PIN.
   * All but three kinds of step are of this sort.
   */
  predicate Calm(before: Shared, after: Shared) {
    && after.app.devices == before.app.devices
    && after.app.flags.agentLocked == before.app.flags.agentLocked
    && PinsShrink(before.pins, after.pins)
  }

  predicate PinsShrink(before: map<Path, Pin>, after: map<Path, Pin>) {
    forall p | p in after :: p in before && after[p] == before[p]
  }

  lemma OperationCalm(s: Shared, task: Option<Task>, a: OperationAction)
    requires OperationFits(s, task, a)
    ensures OperationShared(s, task, a).app.devices == s.app.devices
    ensures OperationShared(s, task, a).app.flags.agentLocked == s.app.flags.agentLocked
    ensures PinsShrink(s.pins, OperationShared(s, task, a).pins) || (a == OpEnd && task.value.opStep.outcome.Ok?)
  {
    hide Find, Filter, AllUnlocked;
    match a
    case OpEnd =>
      var Operating(op, Answered(outcome)) := task.value;
      var after := FinishOperation(s, op, outcome);
      assert after.app.devices == s.app.devices && after.app.flags.agentLocked == s.app.flags.agentLocked;
    case _ =>
  }

  lemma RenameCalm(s: Shared, task: Option<Task>, a: RenameAction)
    requires RenameFits(s, task, a)
    ensures Calm(s, RenameShared(s, task, a))
  {
    hide Find, Filter, ReplaceFirst, DropSession;
    match a
    case RenameAsk =>
      var RenameChecked(key, name, _) := task.value;
      forall s1: Shared, path: Path ensures Calm(s1, DropSession(s1, path)) { DropSessionCalm(s1, path); }
      assert Calm(s, RenamePrompt(s, key.devicePath.value, key.fingerprint, name).state);
    case _ =>
  }

  lemma LockSectionsCalm(s: Shared, reason: LockReason, wasUnlocked: bool, fingerprint: string, enabled: bool)
    ensures Calm(s, LockApp(s, reason, wasUnlocked))
    ensures Calm(s, Recovered(s))
    ensures Calm(s, SetKeyEnabled(s, fingerprint, enabled).state)
  {
    hide Find, Filter, ReplaceFirst;
  }

  lemma LockCalm(s: Shared, task: Option<Task>, a: LockAction)
    requires LockFits(s, task, a)
    ensures Calm(s, LockShared(s, task, a))
         || (a == AgentLockCommit && LockShared(s, task, a) == SetAgentLocked(s, task.value.target))
  {
    hide LockApp, Recovered, SetKeyEnabled;
    match (task, a)
    case (Some(AgentLocking(_, PinsGone(wasUnlocked))), AgentLockSession) =>
      LockSectionsCalm(s, Manual, wasUnlocked, "", false);
    case (Some(SessionLocking(reason, wasUnlocked)), SessionLockApp) =>
      LockSectionsCalm(s, reason, wasUnlocked, "", false);
    case (_, Recovery(_)) => LockSectionsCalm(s, Manual, false, "", false);
    case (Some(Toggling(fingerprint, enabled)), ToggleEnd(_)) =>
      LockSectionsCalm(s, Manual, false, fingerprint, enabled);
    case _ =>
  }

  lemma SignCalm(s: Shared, task: Option<Task>, a: SignAction)
    requires SignFits(s, task, a)
    ensures Calm(s, SignShared(s, task, a))
  {
    hide Find;
    match (task, a)
    case (Some(SignDated(_, _)), SignPrepare) =>
    case _ =>
  }

  lemma DropSessionCalm(s: Shared, path: Path)
    ensures Calm(s, DropSession(s, path)) && Calm(s, Unload(s, path))
  {
    hide Filter;
  }

  lemma CreationCalm(s: Shared, name: string, algorithm: Algorithm, devicePath: Option<Path>)
    ensures Calm(s, RequestCreation(s, name, algorithm, devicePath).state)
  {
    hide Find, Filter, DropSession, Unload;
    var r := RequestCreation(s, name, algorithm, devicePath).state;
    if r != s {
      var target := ChosenDevice(s.app, devicePath).value;
      DropSessionCalm(AskCreation(s, target, name, algorithm, false), target.path);
    }
  }

  lemma DeletionCalm(s: Shared, fingerprint: string)
    ensures Calm(s, RequestDeletion(s, fingerprint).state)
  {
    hide Find, Filter, DropSession;
    forall s1: Shared, path: Path ensures Calm(s1, DropSession(s1, path)) { DropSessionCalm(s1, path); }
  }

  lemma DeviceUnlockCalm(s: Shared, path: Path)
    ensures Calm(s, RequestDeviceUnlock(s, path).state)
  {
    hide Find, Filter, Unload;
    DropSessionCalm(s, path);
  }

  lemma DismissCalm(s: Shared)
    ensures Calm(s, DismissAuth(s))
  {
    hide Filter, Unload;
    forall s1: Shared, path: Path ensures Calm(s1, Unload(s1, path)) { DropSessionCalm(s1, path); }
    assert Calm(s, DismissRelease(s));
  }

  lemma UnlockCalm(s: Shared)
    ensures Calm(s, RequestUnlock(s).state)
  {
    hide Find, Filter;
  }

  lemma LabelCalm(s: Shared, path: Path, name: Option<string>, saved: bool)
    ensures SetSecurityKeyLabel(s, path, name, saved).state.pins == s.pins
    ensures SetSecurityKeyLabel(s, path, name, saved).state.app.flags.agentLocked == s.app.flags.agentLocked
  {
  }

  lemma HandleCalm(s: Shared, request: Request)
    ensures Paths(HandleShared(s, request).app.devices) == Paths(s.app.devices)
    ensures HandleShared(s, request).app.flags.agentLocked == s.app.flags.agentLocked
    ensures PinsShrink(s.pins, HandleShared(s, request).pins)
  {
    hide Paths, RequestUnlock, RequestCreation, SetSecurityKeyLabel, DismissAuth, RequestDeletion, RequestDeviceUnlock;
    match request
    case Unlock => UnlockCalm(s);
    case DeviceUnlock(path) => DeviceUnlockCalm(s, path);
    case SetLabel(path, name, saved) =>
      SetSecurityKeyLabelKeeps(s, path, name, saved);
      LabelCalm(s, path, name, saved);
    case Dismiss => DismissCalm(s);
    case Create(name, algorithm, devicePath) => CreationCalm(s, name, algorithm, devicePath);
    case Delete(fingerprint) => DeletionCalm(s, fingerprint);
    case Reload =>
  }

  lemma ScanFoundCalm(s: Shared, earlier: seq<Path>, initial: bool, devices: seq<DeviceInfo>)
    ensures ScanFound(s, earlier, initial, devices).app.flags.agentLocked == s.app.flags.agentLocked
    ensures PinsShrink(s.pins, ScanFound(s, earlier, initial, devices).pins)
  {
    hide Find, Filter, Paths, AllUnlocked, ActiveDevice, SettledPhase, PromptAllowed, OperationInProgress;
  }

  lemma ScanCalm(s: Shared, task: Option<Task>, a: ScanAction)
    ensures ScanShared(s, task, a).app.flags.agentLocked == s.app.flags.agentLocked
    ensures PinsShrink(s.pins, ScanShared(s, task, a).pins)
    ensures a == ScanEnd || ScanShared(s, task, a).app.devices == s.app.devices
  {
    hide ScanFound, Paths;
    match (task, a)
    case (Some(Scanning(earlier, initial, Detected(Ok(devices)))), ScanEnd) =>
      ScanFoundCalm(s, earlier, initial, devices);
    case _ =>
  }

  lemma EnclaveCalm(s: Shared, task: Option<Task>, a: EnclaveAction)
    ensures Calm(s, EnclaveShared(s, task, a))
  {
    hide Filter;
  }

  /** The thread commits `set_agent_locked(target)` with this step. */
  predicate CommitsLock(s: Sys, l: Label, target: bool) {
    && l.action == Lock(AgentLockCommit)
    && l.tid in s.tasks && s.tasks[l.tid].AgentLocking? && s.tasks[l.tid].target == target
  }

  /** The thread completes a successful FIDO2 operation on `path` with this step, entered with `pin`. */
  predicate Unlocks(s: Sys, l: Label, path: Path, pin: Pin) {
    && l.action == Operate(OpEnd)
    && l.tid in s.tasks && s.tasks[l.tid].Operating? && s.tasks[l.tid].opStep.Answered?
    && s.tasks[l.tid].opStep.outcome.Ok?
    && s.tasks[l.tid].op.path == path && s.tasks[l.tid].op.pin == pin
  }

  /** Who may change what: devices only the scanner, the lock only its commit, PINs only an unlock. */
  lemma StepCalm(s: Sys, l: Label)
    requires Enabled(s, l)
    ensures Paths(After(s, l).shared.app.devices) == Paths(s.shared.app.devices) || l.action == Scan(ScanEnd)
    ensures After(s, l).shared.app.flags.agentLocked == s.shared.app.flags.agentLocked
         || CommitsLock(s, l, After(s, l).shared.app.flags.agentLocked)
    ensures PinsShrink(s.shared.pins, After(s, l).shared.pins)
         || (exists path, pin :: Unlocks(s, l, path, pin))
  {
    hide Paths, OperationShared, RenameShared, LockShared, SignShared, HandleShared, ScanShared, EnclaveShared,
      Needs, NextTask, OperationFits, RenameFits, LockFits, SignFits;
    var task := TaskOf(s, l.tid);
    match l.action
    case Sign(b) => SignCalm(s.shared, task, b);
    case Lock(b) => CommitCalm(s, l);
    case Operate(b) => UnlockEffect(s, l);
    case Rename(b) => RenameCalm(s.shared, task, b);
    case Scan(b) => ScanCalm(s.shared, task, b);
    case Handle(request) => HandleCalm(s.shared, request);
    case EnclaveStep(b) => EnclaveCalm(s.shared, task, b);
    case SetPolicy(_) =>
  }

  lemma CommitCalm(s: Sys, l: Label)
    requires Enabled(s, l) && l.action.Lock?
    ensures var after := After(s, l).shared;
            && after.app.devices == s.shared.app.devices
            && PinsShrink(s.shared.pins, after.pins)
            && (after.app.flags.agentLocked == s.shared.app.flags.agentLocked
                || CommitsLock(s, l, after.app.flags.agentLocked))
  {
    hide LockShared;
    LockCalm(s.shared, TaskOf(s, l.tid), l.action.lock);
  }

  lemma UnlockEffect(s: Sys, l: Label)
    requires Enabled(s, l) && l.action.Operate?
    ensures var after := After(s, l).shared;
            && after.app.devices == s.shared.app.devices
            && after.app.flags.agentLocked == s.shared.app.flags.agentLocked
            && (PinsShrink(s.shared.pins, after.pins) || (exists path, pin :: Unlocks(s, l, path, pin)))
  {
    hide OperationShared;
    var task := TaskOf(s, l.tid);
    OperationCalm(s.shared, task, l.action.operate);
    if task.Some? && task.value.Operating? && l.action.operate == OpEnd && task.value.opStep.outcome.Ok? {
      assert Unlocks(s, l, task.value.op.path, task.value.op.pin);
    }
  }

  /** A thread that holds `app` or `pins` finds what it protects unchanged after anyone else's step. */
  lemma OtherTaskOk(s: Sys, l: Label, t: Tid)
    requires Invariant(s) && Enabled(s, l) && t in s.tasks && t != l.tid
    ensures TaskOk(After(s, l).shared, s.tasks[t])
  {
    hide NextShared, NextTask, Fits, Paths, Needs;
    var needs := Needs(TaskOf(s, l.tid), l.action);
    StepGuarded(s, l);
    assert AppState in needs ==> Free(s, AppState);
    assert PinCache in needs ==> Free(s, PinCache);
    var task := s.tasks[t];
    if task.Scanning? {
      StepCalm(s, l);
      if l.action == Scan(ScanEnd) {
        ScanEndIsScanner(s, l);
        assert false;
      }
    }
  }

  lemma ScanEndIsScanner(s: Sys, l: Label)
    requires Enabled(s, l) && l.action == Scan(ScanEnd)
    ensures l.tid in s.tasks && s.tasks[l.tid].Scanning?
  {
  }

  lemma OneScannerKept(s: Sys, l: Label)
    requires OneScanner(s) && Enabled(s, l)
    ensures OneScanner(After(s, l))
  {
    hide NextShared, Needs, Paths;
  }

  // ----- the shape and the cache

  lemma SignKeeps(s: Shared, task: Option<Task>, a: SignAction)
    requires SignFits(s, task, a)
    ensures Keeps(s, SignShared(s, task, a))
  {
    hide Find;
    match (task, a)
    case (Some(SignDated(blob, _)), SignPrepare) =>
      var found := Find(s.app.keys, EnabledBlob(blob));
      if found.Some? && found.value.devicePath.Some? { SignTargetKeeps(s, found.value.devicePath.value); }
    case _ =>
  }

  lemma LockKeeps(s: Shared, task: Option<Task>, a: LockAction)
    requires LockFits(s, task, a)
    ensures Shape(s.app) ==> Shape(LockShared(s, task, a).app)
    ensures Cached(s) && !a.AgentLockPins? && !a.SessionLockPins? ==> Cached(LockShared(s, task, a))
  {
    hide Find, Filter, LockApp, Recovered, SetKeyEnabled, NoDup, AllUnlocked, FidoKeysHavePaths;
    match (task, a)
    case (Some(AgentLocking(_, PinsGone(wasUnlocked))), AgentLockSession) => LockAppKeeps(s, Manual, wasUnlocked);
    case (Some(SessionLocking(reason, wasUnlocked)), SessionLockApp) => LockAppKeeps(s, reason, wasUnlocked);
    case (_, Recovery(_)) => RecoveredKeeps(s);
    case (Some(Toggling(fingerprint, enabled)), ToggleEnd(_)) => SetKeyEnabledKeeps(s, fingerprint, enabled);
    case _ =>
  }

  lemma OperationKeeps(s: Shared, task: Option<Task>, a: OperationAction)
    requires OperationFits(s, task, a)
    requires task.Some? ==> TaskOk(s, task.value)
    ensures Keeps(s, OperationShared(s, task, a))
  {
    hide Find, Filter, BeginOperation, FinishSucceeded, FinishFailed;
    match (task, a)
    case (_, OpBegin(pin)) => if BeginOperation(s, pin).Begun? { BeginKeeps(s, pin); }
    case (Some(Operating(op, Answered(Ok(loaded)))), OpEnd) => FinishSucceededKeeps(s, op, loaded);
    case (Some(Operating(op, Answered(Err(failure)))), OpEnd) => FinishFailedKeeps(s, op, failure);
    case _ =>
  }

  lemma RenameKeeps(s: Shared, task: Option<Task>, a: RenameAction)
    requires RenameFits(s, task, a)
    requires task.Some? ==> TaskOk(s, task.value)
    ensures Keeps(s, RenameShared(s, task, a))
  {
    hide Find, Filter, RenamePrompt, RenameFinish;
    match (task, a)
    case (Some(RenameChecked(key, name, _)), RenameAsk) =>
      if key.devicePath.Some? { RenamePromptKeeps(s, key.devicePath.value, key.fingerprint, name); }
    case (Some(RenameAnswered(key, _, updated)), RenameEnd) => RenameFinishKeeps(s, key.fingerprint, updated);
    case _ =>
  }

  lemma HandleKeeps(s: Shared, request: Request)
    ensures Keeps(s, HandleShared(s, request))
  {
    hide Find, Filter, RequestUnlock, RequestDeviceUnlock, SetSecurityKeyLabel, DismissAuth, RequestCreation,
      RequestDeletion;
    match request
    case Unlock => RequestUnlockKeeps(s);
    case DeviceUnlock(path) => RequestDeviceUnlockKeeps(s, path);
    case SetLabel(path, name, saved) => SetSecurityKeyLabelKeeps(s, path, name, saved);
    case Dismiss => DismissKeeps(s);
    case Create(name, algorithm, devicePath) => RequestCreationKeeps(s, name, algorithm, devicePath);
    case Delete(fingerprint) => RequestDeletionKeeps(s, fingerprint);
    case Reload =>
  }

  lemma EnclaveKeeps(s: Shared, task: Option<Task>, a: EnclaveAction)
    requires task.Some? ==> TaskOk(s, task.value)
    ensures Keeps(s, EnclaveShared(s, task, a))
  {
    hide Filter;
    match (task, a)
    case (Some(EnclaveAnswered(CreateKey(key))), EnclaveEnd) => EnclaveCreatedKeeps(s, key);
    case _ =>
  }

  /** Any step keeps the shape; any but the PIN half of a session lock keeps the cache complete. */
  lemma StepKeeps(s: Sys, l: Label)
    requires Invariant(s) && Enabled(s, l)
    ensures Shape(After(s, l).shared.app)
    ensures Cached(s.shared) && !ClearsPins(l.action) ==> Cached(After(s, l).shared)
  {
    hide Shape, Cached, OperationShared, RenameShared, LockShared, SignShared, HandleShared, ScanApply,
      EnclaveShared, OperationFits, RenameFits, LockFits, SignFits, Needs, NextTask, TaskOk, Exclusive, OneScanner,
      LockInProgress;
    var task := TaskOf(s, l.tid);
    match l.action
    case Sign(b) => SignKeeps(s.shared, task, b);
    case Lock(b) => LockKeeps(s.shared, task, b);
    case Operate(b) => OperationKeeps(s.shared, task, b);
    case Rename(b) => RenameKeeps(s.shared, task, b);
    case Scan(b) => ScanStepKeeps(s.shared, task, b);
    case Handle(request) => HandleKeeps(s.shared, request);
    case EnclaveStep(b) => EnclaveKeeps(s.shared, task, b);
    case SetPolicy(policy) => PolicyKeeps(s.shared, policy);
  }

  lemma PolicyKeeps(s: Shared, policy: Policy)
    ensures Keeps(s, s.(policy := policy))
  {
  }

  lemma ScanStepKeeps(s: Shared, task: Option<Task>, a: ScanAction)
    ensures Keeps(s, ScanShared(s, task, a))
  {
    hide ScanApply;
    match (task, a)
    case (Some(Scanning(earlier, initial, Detected(result))), ScanEnd) => ScanKeeps(s, earlier, initial, result);
    case _ =>
  }

  /** The first critical section of `lock_fido_session`. */
  predicate ClearsPins(a: Action) {
    a == Lock(AgentLockPins) || (a.Lock? && a.lock.SessionLockPins?)
  }

  /** The second one. */
  predicate ClearsSession(a: Action) {
    a == Lock(AgentLockSession) || a == Lock(SessionLockApp)
  }

  /** A lock that no longer is between its sections has just emptied the list of unlocked paths. */
  lemma LockSections(s: Sys, l: Label)
    requires Enabled(s, l)
    ensures ClearsPins(l.action) ==> LockInProgress(After(s, l))
    ensures ClearsSession(l.action) ==> Cached(After(s, l).shared)
    ensures LockInProgress(s) && !ClearsSession(l.action) ==> LockInProgress(After(s, l))
  {
    hide Paths, Find, Filter;
    if ClearsPins(l.action) {
      assert BetweenLockSections(After(s, l).tasks[l.tid]);
    }
    if LockInProgress(s) && !ClearsSession(l.action) && !ClearsPins(l.action) {
      var t :| t in s.tasks && BetweenLockSections(s.tasks[t]);
      assert t != l.tid;
      assert t in After(s, l).tasks && After(s, l).tasks[t] == s.tasks[t];
    }
  }

  lemma InvariantStep(s: Sys, l: Label)
    requires Invariant(s) && Enabled(s, l)
    ensures Invariant(After(s, l))
  {
    hide Shape, Cached, NextShared, NextTask, Fits, Needs, TaskOk, Exclusive, OneScanner, LockInProgress;
    var next := After(s, l);
    ExclusiveKept(s, l);
    OneScannerKept(s, l);
    StepKeeps(s, l);
    LockSections(s, l);
    forall t | t in next.tasks ensures TaskOk(next.shared, next.tasks[t]) {
      if t == l.tid { OwnTaskOk(s, l); } else { OtherTaskOk(s, l, t); }
    }
  }

  lemma InvariantInitially(s: Sys)
    requires Initial(s)
    ensures Invariant(s)
  {
  }

  /** Every state of every run satisfies the invariant. */
  lemma {:induction false} InvariantAlways(r: Run, i: nat)
    requires ValidRun(r) && i < |r.states|
    ensures Invariant(r.states[i])
  {
    hide Invariant, Initial, Enabled, After;
    if i == 0 {
      InvariantInitially(r.states[0]);
    } else {
      InvariantAlways(r, i - 1);
      InvariantStep(r.states[i - 1], r.labels[i - 1]);
    }
  }

  lemma RunLength(r: Run)
    requires ValidRun(r)
    ensures |r.states| == |r.labels| + 1
  {
  }
}
