/**
 * The converse of "every unlocked path has a cached PIN". It does not hold always, because the two halves
 * of a session lock are separate critical sections; here is exactly when it breaks.
 */
module SessionRaces {
  import opened Common
  import opened State
  import opened Session
  import opened SessionInvariants
  import opened Machine
  import opened MachineInvariant
  import opened SigningSafety

  /** Every cached PIN belongs to an unlocked path. */
  predicate PinsUnlocked(s: Shared) {
    forall p | p in s.pins :: p in s.app.unlockedPaths
  }

  /** The section loses no unlocked path whose PIN stays, and caches no PIN of a locked one. */
  predicate KeepsPinsUnlocked(before: Shared, after: Shared) {
    PinsUnlocked(before) ==> PinsUnlocked(after)
  }

  // ----- the sections

  lemma DropSessionPins(s: Shared, path: Path)
    ensures KeepsPinsUnlocked(s, DropSession(s, path))
  {
  }

  lemma UnloadPins(s: Shared, path: Path)
    ensures KeepsPinsUnlocked(s, Unload(s, path))
  {
    hide Filter, DropSession;
    DropSessionPins(s, path);
  }

  lemma DismissPins(s: Shared)
    ensures KeepsPinsUnlocked(s, DismissAuth(s))
  {
    hide Filter, Unload;
    var s1 := s.(generation := if s.app.phase == WaitingForTouch then s.generation + 1 else s.generation,
                 app := ClearPendings(s.app).(flags := s.app.flags.(unlockSequence := false)));
    if s.app.device.Some? { UnloadPins(s1, s.app.device.value.path); }
  }

  lemma RequestUnlockPins(s: Shared)
    ensures KeepsPinsUnlocked(s, RequestUnlock(s).state)
  {
    hide Find, Filter, AllUnlocked;
  }

  lemma DeviceUnlockPins(s: Shared, path: Path)
    ensures KeepsPinsUnlocked(s, RequestDeviceUnlock(s, path).state)
  {
    hide Find, Unload;
    UnloadPins(s, path);
  }

  lemma CreationPins(s: Shared, name: string, algorithm: Algorithm, devicePath: Option<Path>)
    ensures KeepsPinsUnlocked(s, RequestCreation(s, name, algorithm, devicePath).state)
  {
    hide Find, Unload, ChosenDevice;
    var target := ChosenDevice(s.app, devicePath);
    if target.Some? { UnloadPins(AskCreation(s, target.value, name, algorithm, false), target.value.path); }
  }

  lemma DeletionPins(s: Shared, fingerprint: string)
    ensures KeepsPinsUnlocked(s, RequestDeletion(s, fingerprint).state)
  {
    hide Find, DropSession;
    var found := Find(s.app.keys, FidoFingerprint(fingerprint));
    if found.Some? && found.value.devicePath.Some? {
      var path := found.value.devicePath.value;
      var device := Find(s.app.devices, AtPath(path));
      if device.Some? { DropSessionPins(AskDeletion(s, device.value, fingerprint, false), path); }
    }
  }

  lemma RenamePromptPins(s: Shared, path: Path, fingerprint: string, name: string)
    ensures KeepsPinsUnlocked(s, RenamePrompt(s, path, fingerprint, name).state)
  {
    hide Find, DropSession;
    var device := Find(s.app.devices, AtPath(path));
    if device.Some? { DropSessionPins(AskRename(s, device.value, fingerprint, name), path); }
  }

  lemma FinishPins(s: Shared, op: Operation, outcome: Result<seq<SshKey>, Failure>)
    ensures KeepsPinsUnlocked(s, FinishOperation(s, op, outcome))
  {
    hide Find, AllUnlocked;
  }

  lemma ScanPins(s: Shared, earlier: seq<Path>, initial: bool, result: Result<seq<DeviceInfo>, Failure>)
    ensures KeepsPinsUnlocked(s, ScanApply(s, earlier, initial, result))
  {
    hide Find, Paths, ActiveDevice, SettledPhase, PromptAllowed, OperationInProgress, AllUnlocked;
    if result.Ok? {
      var after := ScanFound(s, earlier, initial, result.value);
      var pruned := Pruned(s, Paths(result.value));
      assert after.pins == pruned.pins && after.app.unlockedPaths == pruned.app.unlockedPaths;
    }
  }

  lemma LockPinsUnlocked(s: Shared, task: Option<Task>, a: LockAction)
    requires LockFits(s, task, a) && PinsUnlocked(s)
    ensures PinsUnlocked(LockShared(s, task, a)) <==> !((a.AgentLockSession? || a.SessionLockApp?) && s.pins != map[])
  {
    hide Find, Filter;
    if (a.AgentLockSession? || a.SessionLockApp?) && s.pins != map[] {
      var p :| p in s.pins;
      assert LockShared(s, task, a).app.unlockedPaths == [];
      assert p in LockShared(s, task, a).pins;
    }
  }

  lemma HandlePins(s: Shared, request: Request)
    ensures KeepsPinsUnlocked(s, HandleShared(s, request))
  {
    hide Find, PinsUnlocked, RequestUnlock, RequestDeviceUnlock, DismissAuth, RequestCreation, RequestDeletion;
    match request
    case Unlock => RequestUnlockPins(s);
    case DeviceUnlock(path) => DeviceUnlockPins(s, path);
    case SetLabel(path, name, saved) => LabelPins(s, path, name, saved);
    case Dismiss => DismissPins(s);
    case Create(name, algorithm, devicePath) => CreationPins(s, name, algorithm, devicePath);
    case Delete(fingerprint) => DeletionPins(s, fingerprint);
    case Reload => ReloadPins(s);
  }

  lemma LabelPins(s: Shared, path: Path, name: Option<string>, saved: bool)
    ensures KeepsPinsUnlocked(s, SetSecurityKeyLabel(s, path, name, saved).state)
  {
  }

  lemma ReloadPins(s: Shared)
    ensures KeepsPinsUnlocked(s, TrayReload(s))
  {
  }

  lemma OtherStepPins(s: Shared, task: Option<Task>, a: Action)
    requires a.Sign? || a.Rename? || a.EnclaveStep? || a.SetPolicy?
    ensures KeepsPinsUnlocked(s, NextShared(s, task, a))
  {
    hide Find, RenamePrompt;
    if a == Rename(RenameAsk) && task.Some? && task.value.RenameChecked? && task.value.key.devicePath.Some? {
      RenamePromptPins(s, task.value.key.devicePath.value, task.value.key.fingerprint, task.value.name);
    }
  }

  lemma OperationPins(s: Shared, task: Option<Task>, a: OperationAction)
    requires OperationFits(s, task, a)
    ensures KeepsPinsUnlocked(s, OperationShared(s, task, a))
  {
    hide FinishOperation;
    if task.Some? && task.value.Operating? && task.value.opStep.Answered? {
      FinishPins(s, task.value.op, task.value.opStep.outcome);
    }
  }

  lemma ScanStepPins(s: Shared, task: Option<Task>, a: ScanAction)
    ensures KeepsPinsUnlocked(s, ScanShared(s, task, a))
  {
    hide ScanApply;
    if task.Some? && task.value.Scanning? && task.value.scanStep.Detected? {
      ScanPins(s, task.value.earlier, task.value.initial, task.value.scanStep.result);
    }
  }

  // ----- the steps

  /**
   * A step leaves a PIN behind for a path that is not unlocked exactly when it is the second half of a
   * session lock and finds the cache no longer empty: an operation ended between the two halves.
   */
  lemma PinsUnlockedExactly(s: Sys, l: Label)
    requires Enabled(s, l) && PinsUnlocked(s.shared)
    ensures PinsUnlocked(After(s, l).shared) <==> !(ClearsSession(l.action) && s.shared.pins != map[])
  {
    hide PinsUnlocked, LockShared, OperationShared, ScanShared, HandleShared, SignShared, RenameShared, EnclaveShared;
    var task := TaskOf(s, l.tid);
    match l.action
    case Lock(a) => LockPinsUnlocked(s.shared, task, a);
    case Operate(a) => OperationPins(s.shared, task, a);
    case Scan(a) => ScanStepPins(s.shared, task, a);
    case Handle(request) => HandlePins(s.shared, request);
    case _ => OtherStepPins(s.shared, task, l.action);
  }

  /** The second half of a session lock at this step finds PINs in the cache. */
  predicate Overtaken(r: Run, i: nat)
    requires |r.states| == |r.labels| + 1
  {
    i < |r.labels| && ClearsSession(r.labels[i].action) && r.states[i].shared.pins != map[]
  }

  /** Up to the first such step of a run, a PIN is cached only for unlocked paths. */
  lemma {:induction false} CachedMeansUnlocked(r: Run, i: nat)
    requires ValidRun(r) && i < |r.states| && forall j: nat | j < i :: !Overtaken(r, j)
    ensures PinsUnlocked(r.states[i].shared)
  {
    hide Enabled, After, ClearsSession;
    if i > 0 {
      CachedMeansUnlocked(r, i - 1);
      PinsUnlockedExactly(r.states[i - 1], r.labels[i - 1]);
      assert !Overtaken(r, i - 1);
    }
  }

  /** Only an operation that ends after the first half of the lock puts a PIN back into the cache. */
  lemma {:induction false} OvertakenByOperation(r: Run, a: nat, i: nat, path: Path)
    requires ValidRun(r) && a < i < |r.states| && ClearsPins(r.labels[a].action)
    requires path in r.states[i].shared.pins
    ensures exists j: nat :: a < j < i && exists pin :: Unlocks(r.states[j], r.labels[j], path, pin)
    decreases i
  {
    hide After, Enabled, Unlocks;
    var s, l := r.states[i - 1], r.labels[i - 1];
    assert Enabled(s, l) && r.states[i] == After(s, l);
    if a == i - 1 {
      ClearedPins(s, l);
      assert false;
    } else if path in s.shared.pins {
      OvertakenByOperation(r, a, i - 1, path);
    } else {
      NewPin(s, l, path);
    }
  }

  lemma NewPin(s: Sys, l: Label, path: Path)
    requires Enabled(s, l) && path in After(s, l).shared.pins && path !in s.shared.pins
    ensures exists pin :: Unlocks(s, l, path, pin)
  {
    hide After, Enabled;
    if p, pin :| Unlocks(s, l, p, pin) {
      UnlockedPath(s, l, p, pin);
    } else {
      StepCalm(s, l);
    }
  }

  lemma UnlockedPath(s: Sys, l: Label, path: Path, pin: Pin)
    requires Enabled(s, l) && Unlocks(s, l, path, pin)
    ensures forall p | p in After(s, l).shared.pins :: p in s.shared.pins || p == path
  {
    hide Find, Filter, AllUnlocked;
  }

  /** A thread that locks the session is behind the first half, and another's operation has succeeded. */
  ghost predicate AboutToRace(s: Sys, t: Tid, u: Tid, reason: LockReason, op: Operation) {
    && t in s.tasks && s.tasks[t].SessionLocking? && s.tasks[t].reason == reason
    && u in s.tasks && s.tasks[u].Operating? && s.tasks[u].op == op
    && s.tasks[u].opStep.Answered? && s.tasks[u].opStep.outcome.Ok?
    && Free(s, AppState) && Free(s, PinCache)
  }

  lemma OperationEnds(s: Sys, u: Tid)
    requires u in s.tasks && s.tasks[u].Operating? && s.tasks[u].opStep.Answered? && s.tasks[u].opStep.outcome.Ok?
    requires Free(s, AppState) && Free(s, PinCache)
    ensures Enabled(s, Label(u, Operate(OpEnd)))
    ensures var after := After(s, Label(u, Operate(OpEnd)));
            && after.tasks == s.tasks - {u}
            && after.shared == FinishSucceeded(s.shared, s.tasks[u].op, s.tasks[u].opStep.outcome.value)
  {
    hide FinishSucceeded;
  }

  lemma LockEnds(s: Sys, t: Tid)
    requires t in s.tasks && s.tasks[t].SessionLocking? && Free(s, AppState)
    ensures Enabled(s, Label(t, Lock(SessionLockApp)))
    ensures After(s, Label(t, Lock(SessionLockApp))).shared
         == LockApp(s.shared, s.tasks[t].reason, s.tasks[t].wasUnlocked)
    ensures After(s, Label(t, Lock(SessionLockApp))).tasks == s.tasks - {t}
  {
    hide LockApp;
  }

  lemma FinishCaches(s: Shared, op: Operation, loaded: seq<SshKey>)
    ensures FinishSucceeded(s, op, loaded).pins == s.pins[op.path := op.pin]
  {
    hide Find, Filter, AllUnlocked;
  }

  /**
   * The race can always be run: behind the first half of a lock, while the mutexes are free, a successful
   * operation of another thread may end, and then the second half; the PIN of that operation stays behind.
   */
  lemma FinishOvertakesLock(s: Sys, t: Tid, u: Tid, reason: LockReason, op: Operation)
    requires AboutToRace(s, t, u, reason, op)
    ensures Enabled(s, Label(u, Operate(OpEnd)))
    ensures var m := After(s, Label(u, Operate(OpEnd)));
            && Enabled(m, Label(t, Lock(SessionLockApp))) && op.path in m.shared.pins
            && var q := After(m, Label(t, Lock(SessionLockApp)));
               op.path in q.shared.pins && op.path !in q.shared.app.unlockedPaths && !PinsUnlocked(q.shared)
  {
    hide Enabled, After, FinishSucceeded;
    OperationEnds(s, u);
    FinishCaches(s.shared, op, s.tasks[u].opStep.outcome.value);
    var m := After(s, Label(u, Operate(OpEnd)));
    assert Free(m, AppState);
    LockEnds(m, t);
  }
}
