/** Safety over whole runs: which signatures can happen, when, and with which PIN. */
module SigningSafety {
  import opened Common
  import opened State
  import opened Session
  import opened SessionInvariants
  import opened Machine
  import opened MachineInvariant

  /** The thread is inside the hardware signing call for this key, with this PIN for FIDO2. */
  predicate InHardware(s: Sys, t: Tid, key: SshKey, credential: Option<Pin>) {
    t in s.tasks && s.tasks[t].Signing? && s.tasks[t].key == key && s.tasks[t].stage == Authorized(credential)
  }

  /**
   * In every interleaving, as long as a hardware signature is being made the agent is unlocked and
   * an enabled key with the same fingerprint, blob and backend is present.
   */
  lemma SignatureAuthorized(r: Run, i: nat, t: Tid, key: SshKey, credential: Option<Pin>)
    requires ValidRun(r) && i < |r.states| && InHardware(r.states[i], t, key, credential)
    ensures Authorizes(r.states[i].shared.app, key)
    ensures key.backend != Tpm
    ensures key.backend == Fido2 ==>
              credential.Some? && PinCurrent(r.states[i].shared, key, credential.value)
  {
    hide Find, Filter, Initial, Enabled, After, Exclusive, OneScanner, Shape, Cached, LockInProgress;
    InvariantAlways(r, i);
    assert TaskOk(r.states[i].shared, r.states[i].tasks[t]);
  }

  /** While one thread is inside the hardware call, no other thread changes the application state. */
  lemma HardwareFreezesState(r: Run, i: nat, t: Tid, key: SshKey, credential: Option<Pin>)
    requires ValidRun(r) && i < |r.labels| && InHardware(r.states[i], t, key, credential)
    ensures r.states[i + 1].shared.app == r.states[i].shared.app
    ensures key.backend == Fido2 ==> r.states[i + 1].shared.pins == r.states[i].shared.pins
    ensures r.labels[i].tid != t ==> InHardware(r.states[i + 1], t, key, credential)
    ensures forall u | u != t && u in r.states[i].tasks :: AppState !in Held(r.states[i].tasks[u])
  {
    hide NextShared, NextTask, Needs, Fits, Paths, TaskOk, Shape, Cached, Initial, OneScanner, LockInProgress;
    var s, l := r.states[i], r.labels[i];
    InvariantAlways(r, i);
    if l.tid != t {
      StepGuarded(s, l);
      assert AppState in Needs(TaskOf(s, l.tid), l.action) ==> Free(s, AppState);
      assert PinCache in Needs(TaskOf(s, l.tid), l.action) ==> Free(s, PinCache);
    } else {
      OwnHardwareStep(s, l);
    }
  }

  lemma OwnHardwareStep(s: Sys, l: Label)
    requires Enabled(s, l) && l.tid in s.tasks && s.tasks[l.tid].Signing? && s.tasks[l.tid].stage.Authorized?
    ensures After(s, l).shared == s.shared
  {
  }

  // ----- the agent lock

  predicate UnlockCommitted(r: Run, c: nat)
    requires |r.states| == |r.labels| + 1
  {
    c < |r.labels| && CommitsLock(r.states[c], r.labels[c], false)
  }

  lemma {:induction false} LockedUntilUnlocked(r: Run, a: nat, b: nat)
    requires ValidRun(r) && a <= b < |r.states|
    requires r.states[a].shared.app.flags.agentLocked
    requires forall c: nat | a <= c < b :: !UnlockCommitted(r, c)
    ensures r.states[b].shared.app.flags.agentLocked
    decreases b - a
  {
    hide After, Enabled, Initial;
    if a < b {
      LockedUntilUnlocked(r, a, b - 1);
      StepCalm(r.states[b - 1], r.labels[b - 1]);
      assert !UnlockCommitted(r, b - 1);
    }
  }

  lemma CommitLocks(s: Sys, l: Label, target: bool)
    requires Enabled(s, l) && CommitsLock(s, l, target)
    ensures After(s, l).shared.app.flags.agentLocked == target
  {
  }

  /** No hardware signature is being made between the commit of a lock and the next commit of an unlock. */
  lemma NoSignatureWhileLocked(r: Run, a: nat, b: nat, t: Tid, key: SshKey, credential: Option<Pin>)
    requires ValidRun(r) && a < b < |r.states|
    requires CommitsLock(r.states[a], r.labels[a], true)
    requires InHardware(r.states[b], t, key, credential)
    ensures exists c: nat :: a < c < b && UnlockCommitted(r, c)
  {
    hide After, Enabled, Initial;
    assert r.states[a + 1] == After(r.states[a], r.labels[a]);
    CommitLocks(r.states[a], r.labels[a], true);
    SignatureAuthorized(r, b, t, key, credential);
    if forall c: nat | a + 1 <= c < b :: !UnlockCommitted(r, c) {
      LockedUntilUnlocked(r, a + 1, b);
      assert false;
    }
  }

  // ----- PIN provenance

  lemma UnlockCaches(s: Sys, l: Label, path: Path)
    requires Enabled(s, l) && path in After(s, l).shared.pins
    ensures (path in s.shared.pins && s.shared.pins[path] == After(s, l).shared.pins[path])
         || Unlocks(s, l, path, After(s, l).shared.pins[path])
    ensures forall pin :: Unlocks(s, l, path, pin) ==> Unlocks(s, l, path, After(s, l).shared.pins[path])
  {
    if p, pin :| Unlocks(s, l, p, pin) {
      UnlockPins(s, l, p, pin);
    } else {
      hide After, Enabled;
      StepCalm(s, l);
    }
  }

  lemma UnlockPins(s: Sys, l: Label, path: Path, pin: Pin)
    requires Enabled(s, l) && Unlocks(s, l, path, pin)
    ensures After(s, l).shared.pins == s.shared.pins[path := pin]
  {
    hide Find, Filter, AllUnlocked;
    var Operating(op, Answered(outcome)) := s.tasks[l.tid];
    assert FinishSucceeded(s.shared, op, outcome.value).pins == s.shared.pins[path := pin];
  }

  /** The path's PIN was cached by step `j` and has stayed cached, the same, up to state `i`. */
  predicate UnlockedSince(r: Run, j: nat, i: nat, path: Path, pin: Pin)
    requires |r.states| == |r.labels| + 1
  {
    && j < i < |r.states|
    && Unlocks(r.states[j], r.labels[j], path, pin)
    && (forall k | j < k <= i :: path in r.states[k].shared.pins && r.states[k].shared.pins[path] == pin)
    && (forall k | j < k < i :: !UnlocksPath(r.states[k], r.labels[k], path))
  }

  predicate UnlocksPath(s: Sys, l: Label, path: Path) {
    l.tid in s.tasks && s.tasks[l.tid].Operating? && Unlocks(s, l, path, s.tasks[l.tid].op.pin)
  }

  /** A cached PIN comes from the latest successful operation on its path, and was never removed since. */
  lemma {:induction false} PinOrigin(r: Run, i: nat, path: Path)
    requires ValidRun(r) && i < |r.states| && path in r.states[i].shared.pins
    ensures exists j: nat :: UnlockedSince(r, j, i, path, r.states[i].shared.pins[path])
  {
    hide After, Enabled;
    var pin := r.states[i].shared.pins[path];
    if i == 0 {
      assert false;
    } else {
      var s, l := r.states[i - 1], r.labels[i - 1];
      UnlockCaches(s, l, path);
      if Unlocks(s, l, path, pin) {
        assert UnlockedSince(r, i - 1, i, path, pin);
      } else {
        PinOrigin(r, i - 1, path);
        var j: nat :| UnlockedSince(r, j, i - 1, path, pin);
        assert UnlockedSince(r, j, i, path, pin);
      }
    }
  }

  /**
   * Every FIDO2 signature uses exactly the PIN of the latest successful operation on the key's
   * device, and nothing has removed that PIN since: no lock, unplugging, reload, dismissal or failure.
   */
  lemma PinProvenance(r: Run, i: nat, t: Tid, key: SshKey, credential: Option<Pin>)
    requires ValidRun(r) && i < |r.states| && InHardware(r.states[i], t, key, credential)
    requires key.backend == Fido2
    ensures key.devicePath.Some? && credential.Some?
    ensures exists j: nat :: UnlockedSince(r, j, i, key.devicePath.value, credential.value)
  {
    hide ValidRun, UnlockedSince, Authorizes;
    SignatureAuthorized(r, i, t, key, credential);
    PinOrigin(r, i, key.devicePath.value);
  }

  lemma ClearedPins(s: Sys, l: Label)
    requires Enabled(s, l) && ClearsPins(l.action)
    ensures After(s, l).shared.pins == map[]
  {
  }

  /** After the PIN half of any session lock, a FIDO2 signature needs a new successful operation. */
  lemma LockEndsSession(r: Run, a: nat, i: nat, t: Tid, key: SshKey, credential: Option<Pin>)
    requires ValidRun(r) && a < i < |r.states| && ClearsPins(r.labels[a].action)
    requires InHardware(r.states[i], t, key, credential) && key.backend == Fido2
    ensures key.devicePath.Some? && credential.Some?
    ensures exists j: nat :: a < j && UnlockedSince(r, j, i, key.devicePath.value, credential.value)
  {
    hide After, Enabled, Initial;
    PinProvenance(r, i, t, key, credential);
    var j: nat :| UnlockedSince(r, j, i, key.devicePath.value, credential.value);
    ClearedPins(r.states[a], r.labels[a]);
    assert r.states[a + 1] == After(r.states[a], r.labels[a]);
    assert key.devicePath.value !in r.states[a + 1].shared.pins;
    assert a < j;
  }

  // ----- while the agent is being locked or a key is switched

  /** From the first step of a lock, an unlock or a switch to its last, no hardware signature is being made. */
  lemma NoSignatureDuringSwitch(r: Run, i: nat, t: Tid, u: Tid, key: SshKey, credential: Option<Pin>)
    requires ValidRun(r) && i < |r.states| && t in r.states[i].tasks
    requires r.states[i].tasks[t].AgentLocking? || r.states[i].tasks[t].Toggling?
    ensures !InHardware(r.states[i], u, key, credential)
  {
    hide ValidRun, TaskOk, Shape, Cached, OneScanner, LockInProgress;
    InvariantAlways(r, i);
    assert SigningGate in Held(r.states[i].tasks[t]);
    if u in r.states[i].tasks && u != t {
      assert SigningGate !in Held(r.states[i].tasks[u]);
    }
  }

  predicate IsLocking(task: Option<Task>, step: LockStep) {
    task == Some(AgentLocking(true, step))
  }

  lemma LockingArises(s: Sys, l: Label)
    requires Enabled(s, l)
    ensures IsLocking(TaskOf(After(s, l), l.tid), SessionGone) ==> l.action == Lock(AgentLockSession)
    ensures forall was :: IsLocking(TaskOf(After(s, l), l.tid), PinsGone(was)) ==> l.action == Lock(AgentLockPins)
  {
    hide Find, BeginOperation, Authorizes;
  }

  lemma SessionEndsAfterPins(s: Sys, l: Label)
    requires Enabled(s, l) && l.action == Lock(AgentLockSession)
    ensures exists target, was :: TaskOf(s, l.tid) == Some(AgentLocking(target, PinsGone(was)))
    ensures IsLocking(TaskOf(After(s, l), l.tid), SessionGone) ==>
              exists was :: IsLocking(TaskOf(s, l.tid), PinsGone(was))
  {
  }

  lemma OtherTaskStays(s: Sys, l: Label, t: Tid)
    requires Enabled(s, l) && l.tid != t
    ensures TaskOf(After(s, l), t) == TaskOf(s, t)
  {
    hide NextTask, NextShared;
  }

  /** Step `a` of thread `t` emptied the PIN cache for an agent lock. */
  predicate LockedPins(r: Run, a: nat, t: Tid) {
    a < |r.labels| && r.labels[a] == Label(t, Lock(AgentLockPins))
  }

  /** Step `b` of thread `t` ended the session for an agent lock, after the cache was emptied. */
  ghost predicate LockedSession(r: Run, b: nat, t: Tid) {
    b < |r.labels| && r.labels[b] == Label(t, Lock(AgentLockSession)) && exists a: nat :: a < b && LockedPins(r, a, t)
  }

  lemma {:induction false} PinsWereLocked(r: Run, i: nat, t: Tid, was: bool)
    requires ValidRun(r) && i < |r.states| && IsLocking(TaskOf(r.states[i], t), PinsGone(was))
    ensures exists a: nat :: a < i && LockedPins(r, a, t)
  {
    hide Enabled, After;
    if i == 0 {
      assert false;
    } else {
      var s, l := r.states[i - 1], r.labels[i - 1];
      assert Enabled(s, l) && r.states[i] == After(s, l);
      if l.tid == t {
        LockingArises(s, l);
        assert LockedPins(r, i - 1, t);
      } else {
        OtherTaskStays(s, l, t);
        PinsWereLocked(r, i - 1, t, was);
      }
    }
  }

  lemma {:induction false} SessionWasLocked(r: Run, i: nat, t: Tid)
    requires ValidRun(r) && i < |r.states| && IsLocking(TaskOf(r.states[i], t), SessionGone)
    ensures exists b: nat :: b < i && LockedSession(r, b, t)
  {
    hide Enabled, After;
    if i == 0 {
      assert false;
    } else {
      var s, l := r.states[i - 1], r.labels[i - 1];
      assert Enabled(s, l) && r.states[i] == After(s, l);
      if l.tid == t {
        LockingArises(s, l);
        SessionEndsAfterPins(s, l);
        var was :| IsLocking(TaskOf(s, t), PinsGone(was));
        PinsWereLocked(r, i - 1, t, was);
        assert LockedSession(r, i - 1, t);
      } else {
        OtherTaskStays(s, l, t);
        SessionWasLocked(r, i - 1, t);
      }
    }
  }

  lemma CommitHasTask(s: Sys, l: Label)
    requires Enabled(s, l) && CommitsLock(s, l, true)
    ensures IsLocking(TaskOf(s, l.tid), SessionGone)
  {
  }

  /** The agent lock never commits before its thread has emptied the PIN cache and then ended the FIDO2 session. */
  lemma LockEndsSessionFirst(r: Run, c: nat)
    requires ValidRun(r) && c < |r.labels| && CommitsLock(r.states[c], r.labels[c], true)
    ensures exists b: nat :: b < c && LockedSession(r, b, r.labels[c].tid)
  {
    hide Enabled, After, Initial;
    assert Enabled(r.states[c], r.labels[c]);
    CommitHasTask(r.states[c], r.labels[c]);
    SessionWasLocked(r, c, r.labels[c].tid);
  }
}
