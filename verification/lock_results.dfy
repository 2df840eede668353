/** What a session lock ends and what it leaves, and what the recovery from a system lock asks for. */
module LockResults {
  import opened Common
  import opened State
  import opened Session
  import opened SessionInvariants
  import opened Machine
  import opened MachineInvariant

  /** The notice a lock puts up: for a system condition that ended a protected session, and only then. */
  predicate NoticeFollows(a: App, b: App, reason: LockReason, protected: bool) {
    if reason.System? && protected then b.securityNotice == Some(LockedBy(reason.condition))
    else b.securityNotice == a.securityNotice
  }

  predicate HasFidoKeys(keys: seq<SshKey>) {
    exists key | key in keys :: key.backend == Fido2
  }

  /**
   * The second half of a lock: no FIDO2 key and no unlocked path is left, all other keys stay in order, and
   * the PIN is asked for while a device is connected. Requests, devices and the agent lock are not touched.
   */
  lemma LockLeaves(s: Shared, reason: LockReason, wasUnlocked: bool)
    ensures var after := LockApp(s, reason, wasUnlocked);
            && !HasFidoKeys(after.app.keys) && after.app.keys == Filter(s.app.keys, NotFido())
            && after.app.unlockedPaths == []
            && !after.app.flags.fidoSessionUnlocked && !after.app.flags.unlockSequence
            && after.app.phase == (if s.app.flags.yubikeyConnected then NeedsPin else s.app.phase)
            && NoticeFollows(s.app, after.app, reason, wasUnlocked || HasFidoKeys(s.app.keys))
            && after.pins == s.pins && after.app.device == s.app.device && after.app.error == s.app.error
            && after.app.pendingCreation == s.app.pendingCreation
                && after.app.pendingAlgorithm == s.app.pendingAlgorithm
            && after.app.pendingDeletion == s.app.pendingDeletion && after.app.pendingRename == s.app.pendingRename
            && after.app.devices == s.app.devices
            && after.app.flags.agentLocked == s.app.flags.agentLocked
            && after.app.flags.agentRunning == s.app.flags.agentRunning
            && after.app.flags.yubikeyConnected == s.app.flags.yubikeyConnected
  {
    var kept := Filter(s.app.keys, NotFido());
    assert forall key | key in kept :: NotFido()(key);
    assert HasFidoKeys(s.app.keys) <==> exists k | k in s.app.keys :: k.backend == Fido2;
  }

  /** The first half empties the cache and remembers whether there was anything in it. */
  lemma FirstHalfRemembers(s: Sys, l: Label, reason: LockReason)
    requires Enabled(s, l) && l.action == Lock(SessionLockPins(reason))
    ensures After(s, l).shared == s.shared.(pins := map[])
    ensures TaskOf(After(s, l), l.tid) == Some(SessionLocking(reason, s.shared.pins != map[]))
  {
  }

  /** The reason of a lock is inactivity, or the condition its thread has just recorded as the first. */
  lemma LockHasReason(s: Sys, l: Label, reason: LockReason)
    requires Enabled(s, l) && l.action == Lock(SessionLockPins(reason))
    ensures reason == Inactivity || exists condition :: reason == System(condition)
                                                         && TaskOf(s, l.tid) == Some(Deactivated(condition))
  {
  }

  /**
   * A successful recovery starts the agent and shows no error. With a device connected and the session not
   * unlocked it asks for the PIN of a FIDO2 device, in sequence if the setting says so; otherwise listed
   * keys mean Ready. The session itself is not touched.
   */
  lemma RecoveryAsks(s: Shared)
    ensures var after := Recovered(s);
            && after.app.flags.agentRunning && after.app.error == None
            && after.pins == s.pins && after.app.keys == s.app.keys && after.app.unlockedPaths == s.app.unlockedPaths
            && after.app.flags.fidoSessionUnlocked == s.app.flags.fidoSessionUnlocked
            && after.app.flags.agentLocked == s.app.flags.agentLocked
            && (if s.app.flags.yubikeyConnected && !s.app.flags.fidoSessionUnlocked then
                  && after.app.phase == NeedsPin
                  && (after.app.device.Some? <==> exists d | d in s.app.devices :: d.fido2)
                  && (after.app.device.Some? ==>
                        after.app.device.value in s.app.devices && after.app.device.value.fido2)
                  && (after.app.flags.unlockSequence <==> s.app.flags.unlockSequence || s.policy.promptAfterMacUnlock)
                else
                  && after.app.device == s.app.device && after.app.flags.unlockSequence == s.app.flags.unlockSequence
                  && after.app.phase == (if s.app.keys == [] then s.app.phase else Ready))
  {
    hide Find;
    var found := Find(s.app.devices, IsFidoDevice());
    assert found.None? ==> forall d | d in s.app.devices :: !IsFidoDevice()(d);
  }

  /** A sign request for a key on `path` turns to that device, and waits for a touch exactly if its PIN is cached. */
  lemma SignTurnsTo(s: Shared, path: Path)
    ensures var after := SignTarget(s, path);
            && (after.app.device.Some? <==> path in Paths(s.app.devices))
            && (after.app.device.Some? ==>
                  after.app.device.value in s.app.devices && after.app.device.value.path == path)
            && (after.app.phase == WaitingForTouch <==> path in s.pins)
            && (after.app.phase == NeedsPin <==> path !in s.pins)
            && after.app.error == None
            && after == s.(app := s.app.(device := after.app.device, phase := after.app.phase, error := None))
  {
    hide Find, Paths;
    var found := Find(s.app.devices, AtPath(path));
    assert found.None? ==> forall d | d in s.app.devices :: !AtPath(path)(d);
  }

  /** A deleted Secure Enclave key is not listed any more, and every other entry is, in order. */
  lemma EnclaveDeletionLeaves(s: Shared, fingerprint: string)
    ensures var after := EnclaveDeleted(s, fingerprint).app.keys;
            && (forall key :: key in after <==> key in s.app.keys && key.fingerprint != fingerprint)
            && after == Filter(s.app.keys, LacksFingerprint(fingerprint))
  {
  }

  /** A created Secure Enclave key is listed behind all others. */
  lemma EnclaveCreationAdds(s: Shared, key: SshKey)
    ensures var after := EnclaveCreated(s, key).app;
            && |after.keys| == |s.app.keys| + 1 && after.keys[|s.app.keys|] == key
            && (forall i | 0 <= i < |s.app.keys| :: after.keys[i] == s.app.keys[i])
            && after.phase == Ready && after.error == None
  {
  }

  /** A failed recovery leaves the agent stopped, shows why, and puts up its notice; the session is not touched. */
  lemma RecoveryFailureShows(s: Shared, failure: Failure)
    ensures var after := RecoveryFailed(s, failure);
            && !after.app.flags.agentRunning && after.app.phase == Error && after.app.error == Some(failure)
            && after.app.securityNotice == Some(AgentNotRestored)
            && after.pins == s.pins && after.app.keys == s.app.keys && after.app.unlockedPaths == s.app.unlockedPaths
            && after.app.device == s.app.device
  {
  }

  /** The first system condition forgets every request and the error before the session is locked, and no more. */
  lemma DeactivationForgets(s: Shared)
    ensures var after := DeactivateClear(s);
            && after.app.pendingCreation == None && after.app.pendingAlgorithm == None
            && after.app.pendingDeletion == None && after.app.pendingRename == None && after.app.error == None
            && after.pins == s.pins && after.app.keys == s.app.keys && after.app.unlockedPaths == s.app.unlockedPaths
            && after.app.phase == s.app.phase && after.app.device == s.app.device && after.app.flags == s.app.flags
  {
  }
}
