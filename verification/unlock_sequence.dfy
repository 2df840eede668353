/** The sequential unlock of all connected FIDO2 devices: it never loses its way and ends complete. */
module UnlockSequence {
  import opened Common
  import opened State
  import opened Session
  import opened SessionInvariants
  import opened DeviceWatcher

  /** The shared state and the FIDO2 operation under way, if any. */
  datatype Progress = Progress(shared: Shared, op: Option<Operation>)

  /** A PIN entered in the open PIN window, the device's answer to it, or a scan of the same devices. */
  datatype Move =
    | EnterPin(pin: Pin) | WrongPin | RightPin(loaded: seq<SshKey>)
    | SeeSameDevices | ScanError(failure: Failure)

  predicate CanMove(p: Progress, m: Move) {
    match m
    case EnterPin(pin) => p.op.None? && p.shared.app.phase == NeedsPin && BeginOperation(p.shared, pin).Begun?
    case WrongPin => p.op.Some?
    case RightPin(_) => p.op.Some?
    case SeeSameDevices => true
    case ScanError(_) => true
  }

  function Rescan(s: Shared): ScanEvent {
    ScanEvent(Paths(s.app.devices), false, Ok(s.app.devices))
  }

  function Moved(p: Progress, m: Move): Progress
    requires CanMove(p, m)
  {
    match m
    case EnterPin(pin) => (var b := BeginOperation(p.shared, pin); Progress(b.state, Some(b.op)))
    case WrongPin => Progress(FinishFailed(p.shared, p.op.value, InvalidPin), None)
    case RightPin(loaded) => Progress(FinishSucceeded(p.shared, p.op.value, loaded), None)
    case SeeSameDevices => p.(shared := ApplyScan(p.shared, Rescan(p.shared)))
    case ScanError(failure) => p.(shared := ScanFailed(p.shared, failure))
  }

  /** `q` is reached from `p` by these moves. */
  predicate Leads(p: Progress, moves: seq<Move>, q: Progress)
    decreases |moves|
  {
    if moves == [] then q == p
    else CanMove(p, moves[0]) && Leads(Moved(p, moves[0]), moves[1..], q)
  }

  function Successes(moves: seq<Move>): nat {
    if moves == [] then 0 else (if moves[0].RightPin? then 1 else 0) + Successes(moves[1..])
  }

  /** The paths of the connected FIDO2 devices that are not unlocked. */
  function LockedPaths(a: App): set<Path> {
    set d | d in a.devices && d.fido2 && d.path !in a.unlockedPaths :: d.path
  }

  predicate NothingPending(a: App) {
    a.pendingCreation.None? && a.pendingAlgorithm.None? && a.pendingDeletion.None? && a.pendingRename.None?
  }

  /** The sequence is under way: its target is a locked device, and the PIN window or the device is busy. */
  ghost predicate UnderWay(p: Progress) {
    var a := p.shared.app;
    && Shape(a)
    && a.flags.unlockSequence
    && NothingPending(a)
    && a.device.Some? && a.device.value.path in LockedPaths(a)
    && (p.op.None? ==> a.phase == NeedsPin)
    && (p.op.Some? ==> a.phase == Loading && p.op.value.NormalUnlock() && p.op.value.path == a.device.value.path)
  }

  /** Every FIDO2 device is unlocked and nothing is asked any more. */
  ghost predicate Complete(p: Progress) {
    var a := p.shared.app;
    && Shape(a)
    && a.phase == Ready
    && !a.flags.unlockSequence
    && NothingPending(a)
    && AllUnlocked(a.devices, a.unlockedPaths)
    && a.flags.fidoSessionUnlocked
    && a.devices != []
    && a.device.Some?
    && p.op.None?
  }

  lemma LockedMeans(a: App, path: Path)
    ensures path in LockedPaths(a)
       <==> path !in a.unlockedPaths && exists d | d in a.devices :: d.fido2 && d.path == path
  {
  }

  lemma NoneLocked(a: App)
    ensures LockedPaths(a) == {} <==> AllUnlocked(a.devices, a.unlockedPaths)
    ensures Find(a.devices, StillLocked(a.unlockedPaths)).Some? <==> LockedPaths(a) != {}
  {
    hide Find;
    var found := Find(a.devices, StillLocked(a.unlockedPaths));
    if found.Some? { assert found.value.path in LockedPaths(a); }
    if !AllUnlocked(a.devices, a.unlockedPaths) {
      var d :| d in a.devices && d.fido2 && d.path !in a.unlockedPaths;
      assert d.path in LockedPaths(a);
      assert StillLocked(a.unlockedPaths)(d);
    }
  }

  lemma RescanKeepsLocked(s: Shared)
    ensures LockedPaths(ApplyScan(s, Rescan(s)).app) == LockedPaths(s.app)
  {
    hide Find, Filter;
    var after := ApplyScan(s, Rescan(s)).app;
    assert after.unlockedPaths == Filter(s.app.unlockedPaths, Among(Paths(s.app.devices)));
    assert after.devices == s.app.devices;
    forall d | d in s.app.devices ensures d.path in after.unlockedPaths <==> d.path in s.app.unlockedPaths {
      assert d.path in Paths(s.app.devices);
    }
  }

  /** A rescan leaves an unlock under way where it is. */
  lemma RescanUnderWay(p: Progress)
    requires UnderWay(p)
    ensures UnderWay(Moved(p, SeeSameDevices))
    ensures LockedPaths(Moved(p, SeeSameDevices).shared.app) == LockedPaths(p.shared.app)
  {
    hide LockedPaths, ApplyScan, Shape;
    var e := Rescan(p.shared);
    RescanKeepsLocked(p.shared);
    LockedMeans(p.shared.app, p.shared.app.device.value.path);
    assert StillThere(p.shared.app.device.value.path, e);
    ScanKeepsTarget(p.shared, e);
    ScanKeepsShape(p.shared, e);
  }

  lemma RescanComplete(p: Progress)
    requires Complete(p)
    ensures Complete(Moved(p, SeeSameDevices))
  {
    var after := ApplyScan(p.shared, Rescan(p.shared)).app;
    ScanKeepsShape(p.shared, Rescan(p.shared));
    RescanKeepsLocked(p.shared);
    NoneLocked(p.shared.app);
    NoneLocked(after);
    RescanSettled(p.shared);
  }

  /** With nothing in progress, seeing the same devices again asks for nothing. */
  lemma RescanSettled(s: Shared)
    requires Shape(s.app) && s.app.phase == Ready && NothingPending(s.app) && s.app.devices != [] && s.app.device.Some?
    ensures var after := ApplyScan(s, Rescan(s)).app;
            && after.phase == Ready && after.flags.unlockSequence == s.app.flags.unlockSequence
            && NothingPending(after) && after.devices == s.app.devices && after.device.Some?
            && after.flags.fidoSessionUnlocked == AllUnlocked(after.devices, after.unlockedPaths)
  {
    hide Find, Filter, AllUnlocked, Paths;
    var devices := s.app.devices;
    assert forall d | d in devices :: !NewFido(Paths(devices))(d);
    PathFound(devices, s.app.device.value.path);
  }

  lemma BeginUnderWay(p: Progress, pin: Pin)
    requires UnderWay(p) && p.op.None?
    ensures CanMove(p, EnterPin(pin))
    ensures UnderWay(Moved(p, EnterPin(pin)))
    ensures LockedPaths(Moved(p, EnterPin(pin)).shared.app) == LockedPaths(p.shared.app)
  {
    BeginKeeps(p.shared, pin);
  }

  lemma WrongPinUnderWay(p: Progress)
    requires UnderWay(p) && p.op.Some?
    ensures UnderWay(Moved(p, WrongPin))
    ensures LockedPaths(Moved(p, WrongPin).shared.app) == LockedPaths(p.shared.app)
  {
    hide Find;
    var path := p.op.value.path;
    var after := Moved(p, WrongPin).shared.app;
    LockedMeans(p.shared.app, path);
    FinishFailedKeeps(p.shared, p.op.value, InvalidPin);
    assert forall q :: q in after.unlockedPaths <==> q in p.shared.app.unlockedPaths;
    assert after.devices == p.shared.app.devices;
  }

  /** A right PIN takes exactly the target off the locked paths; the last one completes the sequence. */
  lemma RightPinAdvances(p: Progress, loaded: seq<SshKey>)
    requires UnderWay(p) && p.op.Some? && LoadedFrom(p.op.value.path, loaded)
    ensures var q := Moved(p, RightPin(loaded));
            && LockedPaths(q.shared.app) == LockedPaths(p.shared.app) - {p.op.value.path}
            && (if LockedPaths(q.shared.app) == {} then Complete(q) else UnderWay(q))
  {
    hide Filter, Find, Shape, LockedPaths;
    var q := Moved(p, RightPin(loaded));
    FinishSucceededKeeps(p.shared, p.op.value, loaded);
    SuccessUnlocks(p.shared, p.op.value, loaded);
    NoneLocked(q.shared.app);
    LockedMeans(p.shared.app, p.op.value.path);
    TargetAfterSuccess(p.shared, p.op.value, loaded);
  }

  lemma SuccessUnlocks(s: Shared, op: Operation, loaded: seq<SshKey>)
    ensures LockedPaths(FinishSucceeded(s, op, loaded).app) == LockedPaths(s.app) - {op.path}
  {
    hide Find, Filter;
    var after := FinishSucceeded(s, op, loaded).app;
    assert after.devices == s.app.devices;
    assert forall q :: q in after.unlockedPaths <==> q in s.app.unlockedPaths || q == op.path;
  }

  lemma TargetAfterSuccess(s: Shared, op: Operation, loaded: seq<SshKey>)
    requires op.NormalUnlock() && s.app.flags.unlockSequence && s.app.devices != []
    requires exists d | d in s.app.devices :: d.fido2 && d.path == op.path
    ensures var after := FinishSucceeded(s, op, loaded).app;
            && after.device.Some? && NothingPending(after) && after.devices != []
            && after.flags.fidoSessionUnlocked == AllUnlocked(after.devices, after.unlockedPaths)
            && (if LockedPaths(after) == {} then after.phase == Ready && !after.flags.unlockSequence
                else after.phase == NeedsPin && after.flags.unlockSequence
                     && after.device.value.path in LockedPaths(after))
  {
    hide Filter, Find;
    var after := FinishSucceeded(s, op, loaded).app;
    assert after.devices == s.app.devices;
    NoneLocked(after);
    var d :| d in s.app.devices && d.fido2 && d.path == op.path;
    assert AtPath(op.path)(d);
  }

  lemma RequestStarts(s: Shared)
    requires Shape(s.app) && RequestUnlock(s).accepted
    ensures UnderWay(Progress(RequestUnlock(s).state, None))
  {
    hide Find, Filter;
    RequestUnlockKeeps(s);
  }

  /** The right answers in a run load keys of the device they came from. */
  predicate Genuine(p: Progress, moves: seq<Move>)
    decreases |moves|
  {
    moves != [] && CanMove(p, moves[0]) ==>
      && (moves[0].RightPin? ==> LoadedFrom(p.op.value.path, moves[0].loaded))
      && Genuine(Moved(p, moves[0]), moves[1..])
  }

  /** An error of the scanner is ignored while a device is connected. */
  lemma ScanErrorIgnored(p: Progress, failure: Failure)
    requires UnderWay(p) || Complete(p)
    ensures Moved(p, ScanError(failure)) == p
  {
  }

  lemma {:induction false} SettledRun(p: Progress, moves: seq<Move>, q: Progress)
    requires Complete(p) && Leads(p, moves, q)
    ensures Complete(q) && Successes(moves) == 0
    decreases |moves|
  {
    hide Complete, Moved, LockedPaths;
    if moves != [] {
      SettledMoves(p, moves[0]);
      match moves[0] {
        case SeeSameDevices => RescanComplete(p);
        case ScanError(failure) => ScanErrorIgnored(p, failure);
        case _ =>
      }
      SettledRun(Moved(p, moves[0]), moves[1..], q);
    }
  }

  lemma SettledMoves(p: Progress, m: Move)
    requires Complete(p) && CanMove(p, m)
    ensures m.SeeSameDevices? || m.ScanError?
  {
  }

  lemma {:induction false} UnlockRun(p: Progress, moves: seq<Move>, q: Progress)
    requires UnderWay(p) && Leads(p, moves, q) && Genuine(p, moves)
    ensures Successes(moves) + |LockedPaths(q.shared.app)| == |LockedPaths(p.shared.app)|
    ensures if LockedPaths(q.shared.app) == {} then Complete(q) else UnderWay(q)
    decreases |moves|
  {
    hide UnderWay, Complete, Moved, LockedPaths, LoadedFrom;
    if moves == [] {
      StillLockedWhileUnderWay(p);
    } else {
      var next := Moved(p, moves[0]);
      OperationUnderWay(p, moves[0]);
      match moves[0] {
        case EnterPin(pin) => BeginUnderWay(p, pin);
        case WrongPin => WrongPinUnderWay(p);
        case RightPin(loaded) => RightPinAdvances(p, loaded);
        case SeeSameDevices => RescanUnderWay(p);
        case ScanError(failure) => ScanErrorIgnored(p, failure);
      }
      if LockedPaths(next.shared.app) == {} && moves[0].RightPin? {
        SettledRun(next, moves[1..], q);
        CompleteMeans(q);
      } else {
        UnlockRun(next, moves[1..], q);
      }
    }
  }

  lemma OperationUnderWay(p: Progress, m: Move)
    requires UnderWay(p) && CanMove(p, m)
    ensures m.EnterPin? ==> p.op.None?
    ensures m.RightPin? ==> p.op.Some? && p.op.value.path in LockedPaths(p.shared.app)
  {
  }

  lemma StillLockedWhileUnderWay(p: Progress)
    requires UnderWay(p)
    ensures LockedPaths(p.shared.app) != {}
  {
  }

  lemma CompleteMeans(p: Progress)
    requires Complete(p)
    ensures LockedPaths(p.shared.app) == {}
  {
    NoneLocked(p.shared.app);
  }

  /**
   * After an accepted unlock request, with the same devices connected and any number of wrong PINs and
   * scans: each right PIN unlocks one more device, there are exactly as many as locked devices, and
   * after the last one the phase is Ready, the sequence is over and every FIDO2 device is unlocked.
   */
  lemma SequentialUnlock(s: Shared, moves: seq<Move>, q: Progress)
    requires Shape(s.app) && RequestUnlock(s).accepted
    requires Leads(Progress(RequestUnlock(s).state, None), moves, q)
    requires Genuine(Progress(RequestUnlock(s).state, None), moves)
    ensures var locked := |LockedPaths(RequestUnlock(s).state.app)|;
            && Successes(moves) <= locked
            && |LockedPaths(q.shared.app)| == locked - Successes(moves)
            && (Successes(moves) == locked ==>
                  && q.shared.app.phase == Ready
                  && !q.shared.app.flags.unlockSequence
                  && q.shared.app.flags.fidoSessionUnlocked
                  && AllUnlocked(q.shared.app.devices, q.shared.app.unlockedPaths))
            && (Successes(moves) < locked ==>
                  && q.shared.app.flags.unlockSequence
                  && q.shared.app.device.Some?
                  && q.shared.app.device.value.path in LockedPaths(q.shared.app))
  {
    hide RequestUnlock, LockedPaths, Leads, Genuine, Shape;
    RequestStarts(s);
    UnlockRun(Progress(RequestUnlock(s).state, None), moves, q);
  }

  /** The sequence is never stuck: there is always a PIN to enter or an answer to wait for. */
  lemma NeverStuck(p: Progress, pin: Pin)
    requires UnderWay(p)
    ensures if p.op.None? then CanMove(p, EnterPin(pin)) else CanMove(p, WrongPin) && CanMove(p, RightPin([]))
  {
    if p.op.None? { BeginUnderWay(p, pin); }
  }
}
