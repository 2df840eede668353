/** When the requests of the interface are accepted, and what an accepted or a refused one leaves. */
module RequestResults {
  import opened Common
  import opened State
  import opened Session
  import opened SessionInvariants
  import opened Machine
  import opened MachineInvariant
  import opened OperationResults

  /** Nothing of the session changed: PINs, keys, unlocked paths and the flags. */
  predicate KeepsSession(before: Shared, after: Shared) {
    && after.pins == before.pins && after.app.keys == before.app.keys
    && after.app.unlockedPaths == before.app.unlockedPaths && after.app.flags == before.app.flags
  }

  /** Everything the requests never touch. */
  predicate KeepsRest(before: Shared, after: Shared) {
    && after.app.devices == before.app.devices && after.app.securityNotice == before.app.securityNotice
    && after.app.flags.yubikeyConnected == before.app.flags.yubikeyConnected
    && after.app.flags.agentRunning == before.app.flags.agentRunning
    && after.app.flags.agentLocked == before.app.flags.agentLocked
    && after.outstanding == before.outstanding && after.policy == before.policy
    && after.scanCompleted == before.scanCompleted
  }

  /** A FIDO2 key of the device at `path` is not among the keys any more; all others are, in order. */
  ghost predicate UnloadsPath(before: App, after: App, path: Path) {
    && after.keys == Filter(before.keys, OffPath(path))
    && forall key :: key in after.keys
                <==> key in before.keys && !(key.backend == Fido2 && key.devicePath == Some(path))
  }

  /** What unloading one device does, and what it leaves as it is. */
  lemma UnloadEnds(s: Shared, path: Path)
    ensures var after := Unload(s, path);
            && EndsSession(s, after, path) && UnloadsPath(s.app, after.app, path) && path !in after.pins
            && after == s.(pins := after.pins, app := s.app.(
                 unlockedPaths := after.app.unlockedPaths, keys := after.app.keys,
                 flags := s.app.flags.(fidoSessionUnlocked := false)))
  {
    hide Filter;
  }

  // ----- creation

  /** The chosen device: the connected FIDO2 device at the path, or the active one. */
  predicate IsTarget(a: App, devicePath: Option<Path>, d: DeviceInfo) {
    match devicePath
    case Some(path) => d in a.devices && d.fido2 && d.path == path
    case None => a.device == Some(d) && d.fido2
  }

  predicate NameTaken(keys: seq<SshKey>, name: string) {
    exists key | key in keys ::
      key.backend == Fido2 && key.comment.Some? && LowerAscii(key.comment.value) == LowerAscii(name)
  }

  lemma TargetChosen(a: App, devicePath: Option<Path>)
    ensures ChosenDevice(a, devicePath).Some? <==> exists d :: IsTarget(a, devicePath, d)
    ensures ChosenDevice(a, devicePath).Some? ==> IsTarget(a, devicePath, ChosenDevice(a, devicePath).value)
  {
    hide Find;
    match devicePath {
      case Some(path) =>
        var found := Find(a.devices, FidoAt(path));
        if found.Some? { assert IsTarget(a, devicePath, found.value); }
        assert found.None? ==> forall d | d in a.devices :: !FidoAt(path)(d);
      case None =>
        if a.device.Some? && a.device.value.fido2 { assert IsTarget(a, devicePath, a.device.value); }
    }
  }

  /** One of the two algorithms, a target that supports it or names none, and a name no FIDO2 key has. */
  predicate CreationAllowed(a: App, name: string, algorithm: Algorithm, devicePath: Option<Path>) {
    && (algorithm == Ed25519Sk || algorithm == EcdsaSk)
    && a.flags.yubikeyConnected
    && !NameTaken(a.keys, name)
    && ChosenDevice(a, devicePath).Some?
    && var d := ChosenDevice(a, devicePath).value;
       d.algorithms == [] || algorithm in d.algorithms
  }

  lemma NameFound(keys: seq<SshKey>, name: string)
    ensures Find(keys, FidoNamed(name)).Some? <==> NameTaken(keys, name)
  {
    hide Find, LowerAscii;
    var found := Find(keys, FidoNamed(name));
    assert found.None? ==> forall key | key in keys :: !FidoNamed(name)(key);
  }

  lemma CreationAccepted(s: Shared, name: string, algorithm: Algorithm, devicePath: Option<Path>)
    ensures RequestCreation(s, name, algorithm, devicePath).accepted
       <==> CreationAllowed(s.app, name, algorithm, devicePath)
  {
    hide Find, ChosenDevice, Unload, LowerAscii;
    NameFound(s.app.keys, name);
  }

  /** A refused creation changes nothing, but may leave the device it was asked for selected. */
  lemma CreationRefused(s: Shared, name: string, algorithm: Algorithm, devicePath: Option<Path>)
    requires !CreationAllowed(s.app, name, algorithm, devicePath)
    ensures var after := HandleShared(s, Create(name, algorithm, devicePath));
            after == s || (after == s.(app := s.app.(device := after.app.device)) && after.app.device.Some?
                           && IsTarget(s.app, devicePath, after.app.device.value))
  {
    hide Find, ChosenDevice, Unload, LowerAscii, IsTarget;
    NameFound(s.app.keys, name);
    TargetChosen(s.app, devicePath);
  }

  /**
   * An accepted creation waits with the name and algorithm asked for on the device asked for. It uses the
   * session exactly when the setting does not ask for the PIN and the PIN is cached, and then touches nothing
   * of it; otherwise it asks for the PIN, and the session of that device, its keys included, is over.
   */
  lemma CreationPrompts(s: Shared, name: string, algorithm: Algorithm, devicePath: Option<Path>)
    requires CreationAllowed(s.app, name, algorithm, devicePath)
    ensures var after := HandleShared(s, Create(name, algorithm, devicePath));
            && after.app.device.Some? && IsTarget(s.app, devicePath, after.app.device.value)
            && after.app.pendingCreation == Some(name) && after.app.pendingAlgorithm == Some(algorithm)
            && after.app.pendingDeletion == None && after.app.pendingRename == None
            && after.app.error == None && KeepsRest(s, after)
            && var path := after.app.device.value.path;
               (if !s.policy.requireForCreate && path in s.pins then
                  after.app.phase == WaitingForTouch && KeepsSession(s, after)
                else
                  && after.app.phase == NeedsPin && EndsSession(s, after, path) && UnloadsPath(s.app, after.app, path)
                  && path !in after.pins)
  {
    hide Find, Filter, ChosenDevice, LowerAscii, IsTarget, Unload, EndsSession, UnloadsPath;
    NameFound(s.app.keys, name);
    TargetChosen(s.app, devicePath);
    var target := ChosenDevice(s.app, devicePath).value;
    var asked := AskCreation(s, target, name, algorithm, false);
    UnloadEnds(asked, target.path);
    AskedEnds(s, asked, Unload(asked, target.path), target.path);
  }

  lemma AskedEnds(s: Shared, asked: Shared, after: Shared, path: Path)
    requires asked.pins == s.pins && asked.app.keys == s.app.keys && asked.app.unlockedPaths == s.app.unlockedPaths
    requires EndsSession(asked, after, path) && UnloadsPath(asked.app, after.app, path)
    ensures EndsSession(s, after, path) && UnloadsPath(s.app, after.app, path)
  {
    hide Filter;
  }

  /** In every run: with the setting on, an accepted creation leaves no PIN of its device cached. */
  lemma CreationNeedsPin(r: Run, i: nat, name: string, algorithm: Algorithm, devicePath: Option<Path>)
    requires ValidRun(r) && i < |r.labels| && r.labels[i].action == Handle(Create(name, algorithm, devicePath))
    requires r.states[i].shared.policy.requireForCreate
    requires CreationAllowed(r.states[i].shared.app, name, algorithm, devicePath)
    ensures var after := r.states[i + 1].shared;
            && after.app.device.Some? && after.app.device.value.path !in after.pins && after.app.phase == NeedsPin
            && after.app.pendingCreation == Some(name)
  {
    hide Initial, Enabled, After, HandleShared, KeepsRest, EndsSession, UnloadsPath, IsTarget, CreationAllowed;
    CreationPrompts(r.states[i].shared, name, algorithm, devicePath);
    HandledStep(r, i, Create(name, algorithm, devicePath));
  }

  lemma HandledStep(r: Run, i: nat, request: Request)
    requires ValidRun(r) && i < |r.labels| && r.labels[i].action == Handle(request)
    ensures r.states[i + 1].shared == HandleShared(r.states[i].shared, request)
  {
    hide Initial, HandleShared;
  }

  // ----- deletion

  /** A FIDO2 key with the fingerprint that knows its device, and that device connected. */
  ghost predicate DeletionAllowed(a: App, fingerprint: string) {
    && a.flags.yubikeyConnected
    && exists key :: IsDeletable(a, fingerprint, key)
  }

  predicate IsDeletable(a: App, fingerprint: string, key: SshKey) {
    && FirstFido(a.keys, fingerprint, key)
    && key.devicePath.Some? && key.devicePath.value in Paths(a.devices)
  }

  lemma {:induction false} FirstIsFound(keys: seq<SshKey>, fingerprint: string, key: SshKey)
    requires FirstFido(keys, fingerprint, key)
    ensures Find(keys, FidoFingerprint(fingerprint)) == Some(key)
  {
    var i :| 0 <= i < |keys| && keys[i] == key && key.backend == Fido2 && key.fingerprint == fingerprint
             && forall j | 0 <= j < i :: !(keys[j].backend == Fido2 && keys[j].fingerprint == fingerprint);
    if i > 0 {
      assert !FidoFingerprint(fingerprint)(keys[0]);
      var rest := keys[1..];
      assert rest[i - 1] == key && forall j | 0 <= j < i - 1 :: rest[j] == keys[j + 1];
      assert FirstFido(rest, fingerprint, key);
      FirstIsFound(rest, fingerprint, key);
    }
  }

  lemma DeletionAccepted(s: Shared, fingerprint: string)
    ensures RequestDeletion(s, fingerprint).accepted <==> DeletionAllowed(s.app, fingerprint)
  {
    hide Find, Paths, FirstFido, HasFido, DropSession;
    FindsFirst(s.app.keys, fingerprint);
    var found := Find(s.app.keys, FidoFingerprint(fingerprint));
    if found.Some? && found.value.devicePath.Some? { PathAmong(s.app.devices, found.value.devicePath.value); }
    if key :| IsDeletable(s.app, fingerprint, key) {
      FirstIsFound(s.app.keys, fingerprint, key);
    } else if found.Some? {
      assert !IsDeletable(s.app, fingerprint, found.value);
    }
  }

  /** An accepted deletion waits for its key; keys stay listed. The session is treated as for a creation. */
  lemma DeletionPrompts(s: Shared, fingerprint: string, key: SshKey)
    requires s.app.flags.yubikeyConnected && IsDeletable(s.app, fingerprint, key)
    ensures var after := HandleShared(s, Delete(fingerprint));
            var path := key.devicePath.value;
            && after.app.device.Some? && after.app.device.value in s.app.devices && after.app.device.value.path == path
            && after.app.pendingDeletion == Some(fingerprint)
            && after.app.pendingCreation == None && after.app.pendingAlgorithm == None
                && after.app.pendingRename == None
            && after.app.error == None && after.app.keys == s.app.keys && KeepsRest(s, after)
            && (if !s.policy.requireForDelete && path in s.pins then
                  after.app.phase == WaitingForTouch && KeepsSession(s, after)
                else after.app.phase == NeedsPin && EndsSession(s, after, path) && path !in after.pins)
  {
    hide Find, Filter, Paths, FirstFido;
    FirstIsFound(s.app.keys, fingerprint, key);
    PathAmong(s.app.devices, key.devicePath.value);
  }

  lemma DeletionRefused(s: Shared, fingerprint: string)
    requires !DeletionAllowed(s.app, fingerprint)
    ensures var after := HandleShared(s, Delete(fingerprint)); after == s || after == s.(app := s.app.(device := None))
  {
    hide Find, Paths, FirstFido, HasFido, DropSession;
    DeletionAccepted(s, fingerprint);
  }

  // ----- rename

  /** A rename asks for the PIN of a FIDO2 key's device exactly when the setting says so or no PIN is cached. */
  lemma RenameAsksExactly(s: Sys, l: Label, key: SshKey, name: string)
    requires Enabled(s, l) && l.action == Rename(RenameCheck)
    requires TaskOf(s, l.tid) == Some(RenameFound(key, name)) && KeyHasPath(key)
    ensures TaskOf(After(s, l), l.tid)
         == Some(RenameChecked(key, name, key.backend == Fido2
                                          && (s.shared.policy.requireForRename
                                              || key.devicePath.value !in s.shared.pins)))
  {
  }

  lemma RenamePrompts(s: Shared, path: Path, fingerprint: string, name: string)
    ensures var r := RenamePrompt(s, path, fingerprint, name);
            && (r.accepted <==> path in Paths(s.app.devices))
            && (r.accepted ==>
                  var after := r.state;
                  && after.app.device.Some? && after.app.device.value in s.app.devices
                  && after.app.device.value.path == path
                  && after.app.pendingRename == Some(PendingRename(fingerprint, name))
                  && after.app.pendingCreation == None && after.app.pendingAlgorithm == None
                  && after.app.pendingDeletion == None
                  && after.app.phase == NeedsPin && after.app.error == None
                  && after.app.keys == s.app.keys && EndsSession(s, after, path) && KeepsRest(s, after))
            && (!r.accepted ==> r.state == s.(app := s.app.(device := None)))
  {
    hide Find, Filter, Paths;
    PathAmong(s.app.devices, path);
  }

  // ----- unlocking

  /** An unlock request is accepted exactly when a FIDO2 device is connected. */
  lemma UnlockAccepted(s: Shared)
    ensures RequestUnlock(s).accepted <==> s.app.flags.yubikeyConnected && exists d | d in s.app.devices :: d.fido2
  {
    hide Filter, Find;
    LockedFound(s.app.devices, s.app.unlockedPaths);
    LockedFound(s.app.devices, []);
  }

  /** The session is over for every device. */
  ghost predicate EndsAll(before: Shared, after: Shared) {
    && after.pins == map[] && after.app.unlockedPaths == [] && after.app.keys == Filter(before.app.keys, NotFido())
    && forall key :: key in after.app.keys <==> key in before.app.keys && key.backend != Fido2
  }

  /**
   * An accepted unlock turns to a connected FIDO2 device that is not unlocked. If all were, the session of
   * all of them is over first; otherwise nothing of it is touched.
   */
  lemma UnlockPrompts(s: Shared)
    requires s.app.flags.yubikeyConnected && exists d | d in s.app.devices :: d.fido2
    ensures var after := HandleShared(s, Unlock);
            && after.app.device.Some? && after.app.device.value in s.app.devices && after.app.device.value.fido2
            && after.app.device.value.path !in after.app.unlockedPaths
            && after.app.phase == NeedsPin && after.app.error == None
            && after.app.flags.unlockSequence && !after.app.flags.fidoSessionUnlocked
            && after.app.pendingCreation == None && after.app.pendingAlgorithm == None
            && after.app.pendingDeletion == None && after.app.pendingRename == None
            && KeepsRest(s, after)
            && (if SomeLocked(s.app.devices, s.app.unlockedPaths) then
                  after.pins == s.pins && after.app.unlockedPaths == s.app.unlockedPaths && after.app.keys == s.app.keys
                else EndsAll(s, after))
  {
    hide Filter, Find;
    LockedFound(s.app.devices, s.app.unlockedPaths);
    LockedFound(s.app.devices, []);
  }

  /** A refused unlock changes nothing, but with only other devices connected it has ended the session. */
  lemma UnlockRefused(s: Shared)
    requires !RequestUnlock(s).accepted
    ensures var after := HandleShared(s, Unlock);
            if s.app.flags.yubikeyConnected
            then EndsAll(s, after)
                 && after == s.(pins := map[], app := s.app.(unlockedPaths := [], keys := after.app.keys))
            else after == s
  {
    hide Filter, Find;
    LockedFound(s.app.devices, s.app.unlockedPaths);
    LockedFound(s.app.devices, []);
  }

  /** Unlocking one device is accepted exactly for a connected FIDO2 device; then it, and only it, is reloaded. */
  lemma DeviceUnlockPrompts(s: Shared, path: Path)
    ensures var r := RequestDeviceUnlock(s, path);
            var after := HandleShared(s, DeviceUnlock(path));
            && (r.accepted <==> exists d | d in s.app.devices :: d.fido2 && d.path == path)
            && (!r.accepted ==> after == s)
            && (r.accepted ==>
                  && after.app.device.Some? && after.app.device.value in s.app.devices
                  && after.app.device.value.fido2 && after.app.device.value.path == path
                  && after.app.phase == NeedsPin && after.app.error == None && !after.app.flags.unlockSequence
                  && after.app.pendingCreation == None && after.app.pendingAlgorithm == None
                  && after.app.pendingDeletion == None && after.app.pendingRename == None
                  && EndsSession(s, after, path) && UnloadsPath(s.app, after.app, path) && KeepsRest(s, after))
  {
    hide Filter, Find;
    var found := Find(s.app.devices, FidoAt(path));
    assert found.None? ==> forall d | d in s.app.devices :: !FidoAt(path)(d);
  }

  // ----- dismissal

  predicate AnyPending(a: App) {
    a.pendingCreation.Some? || a.pendingDeletion.Some? || a.pendingRename.Some?
  }

  lemma DismissFollows(s: Shared)
    ensures var r, after := DismissRelease(s), DismissAuth(s);
            && after == r.(app := r.app.(phase := after.app.phase, error := after.app.error))
            && (if s.app.phase == NeedsPin || s.app.phase == Error || AnyPending(s.app) then
                  && after.app.error == None
                  && after.app.phase == (if r.app.keys == [] && !s.app.flags.yubikeyConnected
                                         then WaitingForDevice else Ready)
                else after.app.phase == r.app.phase && after.app.error == r.app.error)
  {
    hide DismissRelease;
  }

  /** The state without the request. */
  function Forgotten(s: Shared): Shared {
    s.(generation := if s.app.phase == WaitingForTouch then s.generation + 1 else s.generation,
       app := ClearPendings(s.app).(flags := s.app.flags.(unlockSequence := false)))
  }

  lemma ReleaseCases(s: Shared)
    ensures s.app.pendingDeletion.None? && s.app.pendingRename.None? ==> DismissRelease(s) == Forgotten(s)
    ensures (s.app.pendingDeletion.Some? || s.app.pendingRename.Some?) && s.app.device.Some? ==>
              DismissRelease(s) == Unload(Forgotten(s), s.app.device.value.path)
    ensures (s.app.pendingDeletion.Some? || s.app.pendingRename.Some?) && s.app.device.None? ==>
              var f := Forgotten(s);
              DismissRelease(s) == f.(app := f.app.(flags := f.app.flags.(fidoSessionUnlocked := false)))
  {
    hide Unload;
  }

  /** A dismissed request is forgotten, and nothing is selected, connected or locked by it. */
  predicate Forgets(before: Shared, after: Shared) {
    && after.app.pendingCreation == None && after.app.pendingAlgorithm == None
    && after.app.pendingDeletion == None && after.app.pendingRename == None
    && !after.app.flags.unlockSequence && after.app.device == before.app.device && KeepsRest(before, after)
  }

  lemma ReleaseForgets(s: Shared)
    ensures Forgets(s, DismissRelease(s))
    ensures DismissRelease(s).app.phase == s.app.phase && DismissRelease(s).app.error == s.app.error
  {
    ReleaseCases(s);
    hide DismissRelease, Unload;
    if s.app.device.Some? { UnloadEnds(Forgotten(s), s.app.device.value.path); }
  }

  /**
   * A dismissal forgets every request. A prompt, an error or a request ends in Ready, or in WaitingForDevice
   * when neither a device nor a key is there; any other phase stays.
   */
  lemma DismissalEnds(s: Shared)
    ensures var after := HandleShared(s, Dismiss);
            && Forgets(s, after)
            && (if s.app.phase == NeedsPin || s.app.phase == Error || AnyPending(s.app) then
                  && after.app.error == None
                  && after.app.phase == (if after.app.keys == [] && !s.app.flags.yubikeyConnected
                                         then WaitingForDevice else Ready)
                else after.app.phase == s.app.phase && after.app.error == s.app.error)
  {
    hide DismissRelease, DismissAuth;
    ReleaseForgets(s);
    DismissFollows(s);
  }

  /** Only the dismissal of a deletion or rename ends the session, that of the selected device. */
  lemma DismissalEndsSession(s: Shared)
    ensures var after := HandleShared(s, Dismiss);
            if s.app.pendingDeletion.None? && s.app.pendingRename.None? then
              && after.pins == s.pins && after.app.keys == s.app.keys && after.app.unlockedPaths == s.app.unlockedPaths
              && after.app.flags.fidoSessionUnlocked == s.app.flags.fidoSessionUnlocked
            else
              && !after.app.flags.fidoSessionUnlocked
              && (s.app.device.Some? ==>
                    && EndsSession(s, after, s.app.device.value.path)
                    && UnloadsPath(s.app, after.app, s.app.device.value.path))
  {
    hide DismissRelease, DismissAuth, Unload, EndsSession, UnloadsPath;
    DismissFollows(s);
    ReleaseCases(s);
    if (s.app.pendingDeletion.Some? || s.app.pendingRename.Some?) && s.app.device.Some? {
      var path := s.app.device.value.path;
      UnloadEnds(Forgotten(s), path);
      AskedEnds(s, Forgotten(s), Unload(Forgotten(s), path), path);
      DismissedEnds(s, DismissRelease(s), DismissAuth(s), path);
    }
  }

  lemma DismissedEnds(s: Shared, released: Shared, after: Shared, path: Path)
    requires after.pins == released.pins && after.app.keys == released.app.keys
    requires after.app.unlockedPaths == released.app.unlockedPaths && after.app.flags == released.app.flags
    requires EndsSession(s, released, path) && UnloadsPath(s.app, released.app, path)
    ensures EndsSession(s, after, path) && UnloadsPath(s.app, after.app, path)
  {
    hide Filter;
  }

  // ----- switching and labelling

  /** The entry at `i` is the first with this fingerprint. */
  predicate FirstAt(keys: seq<SshKey>, fingerprint: string, i: nat) {
    i < |keys| && keys[i].fingerprint == fingerprint && forall j | 0 <= j < i :: keys[j].fingerprint != fingerprint
  }

  lemma {:induction false} FirstFound(keys: seq<SshKey>, fingerprint: string, updated: SshKey, i: nat)
    requires FirstAt(keys, fingerprint, i)
    ensures Find(keys, HasFingerprint(fingerprint)) == Some(keys[i])
    ensures ReplaceFirst(keys, fingerprint, updated) == keys[i := updated]
  {
    if i > 0 {
      FirstFound(keys[1..], fingerprint, updated, i - 1);
      assert keys == [keys[0]] + keys[1..];
    }
  }

  /** Switching sets the first entry with the fingerprint to what was asked, and no other; nothing else changes. */
  lemma SwitchSets(s: Shared, fingerprint: string, enabled: bool, i: nat)
    requires FirstAt(s.app.keys, fingerprint, i)
    ensures SetKeyEnabled(s, fingerprint, enabled)
         == Outcome(s.(app := s.app.(keys := s.app.keys[i := s.app.keys[i].(enabled := enabled)])), true)
  {
    hide Find, ReplaceFirst;
    FirstFound(s.app.keys, fingerprint, s.app.keys[i].(enabled := enabled), i);
  }

  /** A fingerprint that is not listed is refused, and nothing changes. */
  lemma SwitchRefused(s: Shared, fingerprint: string, enabled: bool)
    requires forall key | key in s.app.keys :: key.fingerprint != fingerprint
    ensures SetKeyEnabled(s, fingerprint, enabled) == Outcome(s, false)
  {
    hide Find;
    assert forall key | key in s.app.keys :: !HasFingerprint(fingerprint)(key);
  }

  /** So a listed key that is switched on has an enabled entry at its place, with its blob and backend. */
  lemma SwitchedOnIsListed(s: Shared, fingerprint: string, i: nat)
    requires FirstAt(s.app.keys, fingerprint, i)
    ensures var after := SetKeyEnabled(s, fingerprint, true).state.app.keys;
            && |after| == |s.app.keys| && after[i].enabled && after[i].fingerprint == fingerprint
            && after[i].publicBlob == s.app.keys[i].publicBlob && after[i].backend == s.app.keys[i].backend
  {
    hide SetKeyEnabled;
    SwitchSets(s, fingerprint, true, i);
  }

  /** The end of a rename puts the new entry in the place of the first with the fingerprint, or shows the error. */
  lemma RenameEnds(s: Shared, fingerprint: string, updated: Result<SshKey, Failure>, i: nat)
    requires FirstAt(s.app.keys, fingerprint, i)
    ensures RenameFinish(s, fingerprint, updated)
         == match updated
            case Ok(key) =>
              Outcome(s.(app := s.app.(keys := s.app.keys[i := key], phase := Ready, error := None)), true)
            case Err(failure) => Outcome(s.(app := s.app.(phase := Ready, error := Some(failure))), false)
  {
    hide Find, ReplaceFirst;
    if updated.Ok? { FirstFound(s.app.keys, fingerprint, updated.value, i); }
  }

  /** A label is set exactly when the device is connected and the store took it: on every entry of its path. */
  lemma LabelSets(s: Shared, path: Path, name: Option<string>, saved: bool)
    ensures var r := SetSecurityKeyLabel(s, path, name, saved);
            var after := HandleShared(s, SetLabel(path, name, saved));
            && (r.accepted <==> saved && path in Paths(s.app.devices))
            && (!r.accepted ==> after == s)
            && (r.accepted ==>
                  && |after.app.devices| == |s.app.devices|
                  && (forall i | 0 <= i < |s.app.devices| ::
                        after.app.devices[i] == (if s.app.devices[i].path == path
                                                 then s.app.devices[i].(deviceLabel := name) else s.app.devices[i]))
                  && (after.app.device.Some? <==> s.app.device.Some?)
                  && (s.app.device.Some? ==>
                        after.app.device.value == (if s.app.device.value.path == path
                                                   then s.app.device.value.(deviceLabel := name)
                                                   else s.app.device.value))
                  && after == s.(app := s.app.(devices := after.app.devices, device := after.app.device)))
  {
    hide Find, Paths, Relabel;
    PathAmong(s.app.devices, path);
  }

  /** The tray entry asks for the PIN exactly while a device is connected, and touches nothing of the session. */
  lemma ReloadPrompts(s: Shared)
    ensures var after := HandleShared(s, Reload);
            && (!s.app.flags.yubikeyConnected ==> after == s)
            && (s.app.flags.yubikeyConnected ==> after.app.phase == NeedsPin && after.app.error == None)
            && KeepsSession(s, after) && KeepsRest(s, after) && SamePendings(s.app, after.app)
            && after.app.device == s.app.device
  {
  }

  /** A switch takes effect exactly when its preference was saved, and then as asked. */
  lemma ToggleEnds(s: Sys, l: Label, fingerprint: string, enabled: bool, saved: bool)
    requires Enabled(s, l) && l.action == Lock(ToggleEnd(saved))
    requires TaskOf(s, l.tid) == Some(Toggling(fingerprint, enabled))
    ensures After(s, l).shared == if saved then SetKeyEnabled(s.shared, fingerprint, enabled).state else s.shared
  {
    hide SetKeyEnabled;
  }
}
