/**
 * Runs from start-up that show what can happen: an operation overtakes a session lock, a deletion request
 * strands its key, a dismissal comes too late, and, before that, a FIDO2 signature reaches the hardware.
 */
module WitnessRuns {
  import opened Common
  import opened State
  import opened Session
  import opened SessionInvariants
  import opened Machine
  import opened MachineInvariant
  import opened SigningSafety
  import opened Executions
  import opened SigningProgress
  import opened SessionRaces
  import opened StrandedKeys
  import opened Dismissal

  const PATH: Path := "p"
  const PIN: Pin := "n"
  const DEVICE := DeviceInfo(None, None, PATH, true, [])
  const KEY := SshKey("a", "f", None, Fido2, true, Some(PATH), [1])
  const POLICY := Policy(false, true, true, true, true, true)
  const START := Shared(DEFAULT_APP, map[], {}, 0, false, POLICY)
  const FAILURE := Message("x")

  // ----- a device is found

  function ScanLabels(): seq<Label> {
    [Label(0, Scan(ScanLook)), Label(0, Scan(ScanTake)), Label(0, Scan(ScanAnswer(Ok([DEVICE])))),
     Label(0, Scan(ScanEnd))]
  }

  /** The state once the first scan has found the device. */
  function Found(): Shared {
    ScanFound(START.(scanCompleted := true), [], true, [DEVICE])
  }

  lemma FindOne<T>(x: T, p: T -> bool)
    ensures Find([x], p) == if p(x) then Some(x) else None
  {
  }

  lemma FoundFacts()
    ensures var a := Found().app;
            && a.device == Some(DEVICE) && a.devices == [DEVICE] && a.keys == [] && a.unlockedPaths == []
            && !a.flags.agentLocked && a.flags.yubikeyConnected
            && a.pendingCreation.None? && a.pendingAlgorithm.None? && a.pendingDeletion.None? && a.pendingRename.None?
    ensures Found().pins == map[] && Found().policy == POLICY && Found().outstanding == {}
    ensures Found().generation == 0
  {
    hide Find;
    FindOne(DEVICE, NewFido([]));
    assert Paths([DEVICE]) == [PATH];
    assert Pruned(START.(scanCompleted := true), [PATH]).app.keys == [];
  }

  function Scanner(step: ScanStep): map<Tid, Task> {
    map[0 := Scanning([], true, step)]
  }

  function ScanStates(): seq<Sys> {
    var s := START.(scanCompleted := true);
    [Sys(START, map[]), Sys(s, Scanner(Looked)), Sys(s, Scanner(Detecting)), Sys(s, Scanner(Detected(Ok([DEVICE])))),
     Sys(Found(), map[])]
  }

  lemma ScanStepped(i: nat)
    requires i < 4
    ensures Enabled(ScanStates()[i], ScanLabels()[i])
    ensures After(ScanStates()[i], ScanLabels()[i]) == ScanStates()[i + 1]
  {
    hide Enabled, After, ScanFound;
    NoPaths();
    var s := START.(scanCompleted := true);
    if i == 0 {
      StepBeside(START, map[], 0, None, Scan(ScanLook));
    } else if i == 1 {
      StepBeside(s, map[], 0, Some(Scanning([], true, Looked)), Scan(ScanTake));
    } else if i == 2 {
      StepBeside(s, map[], 0, Some(Scanning([], true, Detecting)), Scan(ScanAnswer(Ok([DEVICE]))));
    } else {
      StepBeside(s, map[], 0, Some(Scanning([], true, Detected(Ok([DEVICE])))), Scan(ScanEnd));
    }
  }

  lemma Scans()
    ensures Leads(Sys(START, map[]), ScanLabels(), Sys(Found(), map[]))
  {
    hide Enabled, After, Leads, Found, DEFAULT_APP;
    forall i | 0 <= i < 4
      ensures Enabled(ScanStates()[i], ScanLabels()[i])
      ensures ScanStates()[i + 1] == After(ScanStates()[i], ScanLabels()[i])
    {
      ScanStepped(i);
    }
    ChainLeads(ScanStates(), ScanLabels());
  }

  lemma NoPaths()
    ensures Paths(START.app.devices) == []
  {
  }

  // ----- it is unlocked

  function OperationLabels(): seq<Label> {
    [Label(0, Operate(OpBegin(PIN))), Label(0, Operate(OpTakeDevice)), Label(0, Operate(OpAnswer(Ok([KEY]))))]
  }

  const OPERATION := Operation(PATH, PIN, None, Ed25519Sk, None, None)
  const ANSWERED := Operating(OPERATION, Answered(Ok([KEY])))

  /** The state while the operation is at work. */
  function Operated(): Shared {
    Found().(app := AwaitDevice(Found().app))
  }

  lemma BeginFacts()
    ensures BeginOperation(Found(), PIN) == Session.Begun.Begun(Operated(), OPERATION)
    ensures Operated().app == Found().app.(phase := Loading, error := None)
    ensures Operated().pins == map[] && Operated().policy == POLICY && Operated().generation == 0
  {
    FoundFacts();
    hide Found;
  }

  function Operator(step: OperationStep): map<Tid, Task> {
    map[0 := Operating(OPERATION, step)]
  }

  function OperationStates(): seq<Sys> {
    [Sys(Found(), map[]), Sys(Operated(), Operator(Machine.Prepared)), Sys(Operated(), Operator(Busy)),
     Sys(Operated(), map[0 := ANSWERED])]
  }

  lemma OperationStepped(i: nat)
    requires i < 3
    ensures Enabled(OperationStates()[i], OperationLabels()[i])
    ensures After(OperationStates()[i], OperationLabels()[i]) == OperationStates()[i + 1]
  {
    hide Enabled, After, BeginOperation, Found, Operated;
    BeginFacts();
    if i == 0 {
      StepBeside(Found(), map[], 0, None, Operate(OpBegin(PIN)));
    } else if i == 1 {
      StepBeside(Operated(), map[], 0, Some(Operating(OPERATION, Machine.Prepared)), Operate(OpTakeDevice));
    } else {
      StepBeside(Operated(), map[], 0, Some(Operating(OPERATION, Busy)), Operate(OpAnswer(Ok([KEY]))));
    }
  }

  lemma Operates()
    ensures Leads(Sys(Found(), map[]), OperationLabels(), Sys(Operated(), map[0 := ANSWERED]))
  {
    hide Enabled, After, Leads, Found, Operated;
    forall i | 0 <= i < 3
      ensures Enabled(OperationStates()[i], OperationLabels()[i])
      ensures OperationStates()[i + 1] == After(OperationStates()[i], OperationLabels()[i])
    {
      OperationStepped(i);
    }
    ChainLeads(OperationStates(), OperationLabels());
  }

  function Unlocked(): Shared {
    FinishSucceeded(Operated(), OPERATION, [KEY])
  }

  lemma UnlockedFacts()
    ensures Unlocked().pins == map[PATH := PIN] && Unlocked().policy == POLICY && Unlocked().generation == 0
    ensures Unlocked().app.keys == [KEY] && Unlocked().app.devices == [DEVICE]
    ensures Unlocked().app.flags.yubikeyConnected && !Unlocked().app.flags.agentLocked
    ensures Signable(Unlocked(), KEY) && Credential(Unlocked(), KEY) == Some(PIN)
  {
    FoundFacts();
    BeginFacts();
    hide Found, Operated, AllUnlocked, BeginOperation;
    FindOne(KEY, EnabledBlob(KEY.publicBlob));
  }

  function UnlockLabels(): seq<Label> {
    ScanLabels() + OperationLabels() + [Label(0, Operate(OpEnd))]
  }

  /** From start-up to an unlocked device with a loaded key, with nobody at work. */
  lemma ReachesUnlocked()
    ensures Leads(Sys(START, map[]), UnlockLabels(), Sys(Unlocked(), map[]))
  {
    hide Enabled, After, Leads, Found, Operated, FinishSucceeded, ScanLabels, OperationLabels, DEFAULT_APP;
    Scans();
    Operates();
    var answered := Sys(Operated(), map[0 := ANSWERED]);
    LeadsThrough(Sys(START, map[]), ScanLabels(), Sys(Found(), map[]), OperationLabels(), answered);
    StepBeside(Operated(), map[], 0, Some(ANSWERED), Operate(OpEnd));
    LeadsOnce(answered, Label(0, Operate(OpEnd)));
    LeadsThrough(Sys(START, map[]), ScanLabels() + OperationLabels(), answered, [Label(0, Operate(OpEnd))],
                 Sys(Unlocked(), map[]));
  }

  lemma Starts()
    ensures Initial(Sys(START, map[]))
  {
  }

  // ----- the runs

  function RunOf(labels: seq<Label>): Run {
    Run(Trace(Sys(START, map[]), labels), labels)
  }

  /** There is a run in which a deletion request leaves its key listed on a locked device. */
  lemma StrandingRun()
    ensures var labels := UnlockLabels() + [Label(0, Handle(Delete("f")))];
            && ValidRun(RunOf(labels)) && StrandsAt(RunOf(labels), |UnlockLabels()|)
            && KeysUnlocked(RunOf(labels).states[|UnlockLabels()|].shared)
            && !KeysUnlocked(RunOf(labels).states[|labels|].shared)
  {
    hide Initial, Enabled, After, Leads, Unlocked, UnlockLabels, Trace, KeysUnlocked, HandleShared;
    Starts();
    ReachesUnlocked();
    var s, l := Sys(Unlocked(), map[]), Label(0, Handle(Delete("f")));
    var labels := UnlockLabels() + [l];
    StepBeside(Unlocked(), map[], 0, None, Handle(Delete("f")));
    LeadsOnce(s, l);
    LeadsThrough(Sys(START, map[]), UnlockLabels(), s, [l], After(s, l));
    TraceIsRun(Sys(START, map[]), labels, After(s, l));
    TraceAt(Sys(START, map[]), UnlockLabels(), s, [l]);
    TraceAt(Sys(START, map[]), labels, After(s, l), []);
    assert labels + [] == labels;
    AskedDeletionDrops();
    UnlockedKeyIsOnUnlocked();
    var r := RunOf(labels);
    InvariantAlways(r, |UnlockLabels()|);
    KeysUnlockedExactly(s, l);
    assert StrandsAt(r, |UnlockLabels()|);
  }

  lemma UnlockedKeyIsOnUnlocked()
    ensures KeysUnlocked(Unlocked())
  {
    FoundFacts();
    BeginFacts();
    UnlockedFacts();
    hide Found, Operated, AllUnlocked, BeginOperation;
  }

  lemma AskedDeletionDrops()
    ensures DeletionDrops(Unlocked(), "f")
  {
    UnlockedFacts();
    hide Unlocked, Signable;
    FindOne(KEY, FidoFingerprint("f"));
    FindOne(DEVICE, AtPath(PATH));
  }

  // ----- an operation overtakes a session lock

  function RaceLabels(): seq<Label> {
    [Label(1, Lock(SessionLockPins(Inactivity))), Label(0, Operate(OpEnd)), Label(1, Lock(SessionLockApp))]
  }

  /** The operation is about to end, and the auto-lock is behind its first half. */
  function BetweenHalves(): Sys {
    Sys(LockPins(Operated()), map[0 := ANSWERED, 1 := SessionLocking(Inactivity, Operated().pins != map[])])
  }

  lemma FirstHalf()
    ensures Leads(Sys(Operated(), map[0 := ANSWERED]), [RaceLabels()[0]], BetweenHalves())
    ensures AboutToRace(BetweenHalves(), 1, 0, Inactivity, OPERATION)
  {
    hide Enabled, After, Leads, Operated;
    StepBeside(Operated(), map[0 := ANSWERED], 1, None, Lock(SessionLockPins(Inactivity)));
    LeadsOnce(Sys(Operated(), map[0 := ANSWERED]), RaceLabels()[0]);
  }

  function Overtaking(): Sys {
    After(BetweenHalves(), RaceLabels()[1])
  }

  /** There is a run in which an operation ends between the two halves of a session lock. */
  lemma OvertakenRun()
    ensures var before := ScanLabels() + OperationLabels();
            var labels := before + RaceLabels();
            && ValidRun(RunOf(labels)) && Overtaken(RunOf(labels), |before| + 2)
            && PATH in RunOf(labels).states[|labels|].shared.pins
            && PATH !in RunOf(labels).states[|labels|].shared.app.unlockedPaths
  {
    hide Initial, Enabled, After, Leads, Found, Operated, ScanLabels, OperationLabels, Trace, BetweenHalves,
      AboutToRace;
    Starts();
    Scans();
    Operates();
    FirstHalf();
    FinishOvertakesLock(BetweenHalves(), 1, 0, Inactivity, OPERATION);
    var s0, first, finish, second := Sys(START, map[]), RaceLabels()[0], RaceLabels()[1], RaceLabels()[2];
    var s4 := After(Overtaking(), second);
    var toFinish := ScanLabels() + OperationLabels() + [first] + [finish];
    LeadsOnce(BetweenHalves(), finish);
    LeadsOnce(Overtaking(), second);
    LeadsThrough(s0, ScanLabels(), Sys(Found(), map[]), OperationLabels(), Sys(Operated(), map[0 := ANSWERED]));
    LeadsThrough(s0, ScanLabels() + OperationLabels(), Sys(Operated(), map[0 := ANSWERED]), [first], BetweenHalves());
    LeadsThrough(s0, ScanLabels() + OperationLabels() + [first], BetweenHalves(), [finish], Overtaking());
    LeadsThrough(s0, toFinish, Overtaking(), [second], s4);
    var labels := toFinish + [second];
    assert labels == ScanLabels() + OperationLabels() + RaceLabels();
    TraceIsRun(s0, labels, s4);
    TraceAt(s0, toFinish, Overtaking(), [second]);
    TraceAt(s0, labels, s4, []);
    assert labels + [] == labels;
  }

  // ----- a dismissal too late

  function LateLabels(): seq<Label> {
    [Label(0, Sign(Hardware(Some(FAILURE)))), Label(0, Sign(SignJudge)), Label(1, Handle(Dismiss)),
     Label(0, Sign(SignEnd))]
  }

  /** The shared state while the signature waits for a touch. */
  function AwaitingTouch(): Shared {
    SigningProgress.Prepared(Unlocked(), KEY)
  }

  lemma AwaitingTouchFacts()
    ensures AwaitingTouch().app.phase == WaitingForTouch && AwaitingTouch().generation == 0
  {
    UnlockedFacts();
    hide Unlocked, Signable, Find;
  }

  const RETURNED := SignReturned(KEY, 0, Some(FAILURE))
  const JUDGED := SignJudged(KEY, false, Some(FAILURE))

  /** The hardware call, and the states after each of the late steps. */
  function Late(i: nat): Sys
    requires i <= 4
  {
    match i
    case 0 => Sys(AwaitingTouch(), map[0 := Signing(KEY, 0, Authorized(Some(PIN)))])
    case 1 => Sys(AwaitingTouch(), map[0 := RETURNED])
    case 2 => Sys(AwaitingTouch(), map[0 := JUDGED])
    case 3 => Sys(DismissAuth(AwaitingTouch()), map[0 := JUDGED])
    case _ => Sys(SignFinish(DismissAuth(AwaitingTouch()), Fido2, false, Some(FAILURE)), map[])
  }

  lemma LateStep(i: nat)
    requires i < 4
    ensures Enabled(Late(i), LateLabels()[i]) && After(Late(i), LateLabels()[i]) == Late(i + 1)
  {
    hide Enabled, After, AwaitingTouch, DismissAuth;
    AwaitingTouchFacts();
    if i == 0 {
      StepBeside(AwaitingTouch(), map[], 0, Some(Signing(KEY, 0, Authorized(Some(PIN)))),
                 Sign(Hardware(Some(FAILURE))));
    } else if i == 1 {
      StepBeside(AwaitingTouch(), map[], 0, Some(RETURNED), Sign(SignJudge));
    } else if i == 2 {
      StepBeside(AwaitingTouch(), map[0 := JUDGED], 1, None, Handle(Dismiss));
    } else {
      StepBeside(DismissAuth(AwaitingTouch()), map[], 0, Some(JUDGED), Sign(SignEnd));
    }
  }

  lemma LateLeads(j: nat)
    requires j <= 4
    ensures Leads(Late(0), LateLabels()[..j], Late(j))
  {
    hide Enabled, After, Leads, Late;
    var states := seq(j + 1, i requires 0 <= i <= 4 => Late(i));
    forall i | 0 <= i < j
      ensures Enabled(states[i], LateLabels()[i]) && states[i + 1] == After(states[i], LateLabels()[i])
    {
      LateStep(i);
    }
    ChainLeads(states, LateLabels()[..j]);
  }

  /** The run up to the hardware call. */
  function ToHardware(): seq<Label> {
    UnlockLabels() + Steps(0, KEY)
  }

  lemma ReachesLate()
    ensures Leads(Sys(START, map[]), ToHardware(), Late(0))
  {
    hide Enabled, After, Leads, Unlocked, UnlockLabels, Steps, Signable;
    ReachesUnlocked();
    UnlockedFacts();
    AwaitingTouchFacts();
    SignableReachesHardware(Unlocked(), map[], 0, KEY);
    LeadsThrough(Sys(START, map[]), UnlockLabels(), Sys(Unlocked(), map[]), Steps(0, KEY), Late(0));
  }

  /** There is a run in which a FIDO2 key signs with the PIN that unlocked its device. */
  lemma SigningRun()
    ensures ValidRun(RunOf(ToHardware()))
    ensures InHardware(RunOf(ToHardware()).states[|ToHardware()|], 0, KEY, Some(PIN))
  {
    hide Initial, ValidRun, Enabled, After, Leads, Trace, ToHardware, AwaitingTouch;
    Starts();
    ReachesLate();
    TraceIsRun(Sys(START, map[]), ToHardware(), Late(0));
    TraceAt(Sys(START, map[]), ToHardware(), Late(0), []);
    assert ToHardware() + [] == ToHardware();
  }

  function LateRun(): Run {
    RunOf(ToHardware() + LateLabels())
  }

  lemma LateRunStates(i: nat)
    requires i <= 4
    ensures ValidRun(LateRun())
    ensures LateRun().states[|ToHardware()| + i] == Late(i)
    ensures i < 4 ==> LateRun().labels[|ToHardware()| + i] == LateLabels()[i]
  {
    hide Initial, Enabled, After, Leads, Trace, Late, ToHardware, AwaitingTouch;
    Starts();
    ReachesLate();
    LateLeads(4);
    LateLeads(i);
    assert LateLabels()[..4] == LateLabels();
    var s0, labels := Sys(START, map[]), ToHardware() + LateLabels();
    LeadsThrough(s0, ToHardware(), Late(0), LateLabels(), Late(4));
    TraceIsRun(s0, labels, Late(4));
    LeadsThrough(s0, ToHardware(), Late(0), LateLabels()[..i], Late(i));
    TraceAt(s0, ToHardware() + LateLabels()[..i], Late(i), LateLabels()[i..]);
    assert ToHardware() + LateLabels()[..i] + LateLabels()[i..] == labels;
  }

  /** The request was dated by its second step and by no later one. */
  lemma LateRequest()
    ensures var d, c := |UnlockLabels()| + 1, |ToHardware()| + 1; DatedBy(LateRun(), d, c)
  {
    hide Trace, UnlockLabels;
    var labels := ToHardware() + LateLabels();
    assert Steps(0, KEY)[1] == Label(0, Sign(SignDate));
    assert labels[|UnlockLabels()| + 1] == Steps(0, KEY)[1];
    forall k | |UnlockLabels()| + 1 < k < |ToHardware()| + 1 ensures labels[k] != Label(0, Sign(SignDate)) {
      if k < |ToHardware()| { assert labels[k] == Steps(0, KEY)[k - |UnlockLabels()|]; }
    }
  }

  /**
   * There is a run in which the prompt of a failing signature is dismissed, and yet the error is shown: the
   * dismissal falls between the thread's look for one and its end.
   */
  lemma DismissalTooLate()
    ensures var r, d, c := LateRun(), |UnlockLabels()| + 1, |ToHardware()| + 1;
            && ValidRun(r) && Concludes(r, d, c, c + 2, KEY, Some(FAILURE))
            && r.labels[c + 1] == Label(1, Handle(Dismiss)) && Dismisses(r.states[c + 1], r.labels[c + 1])
            && r.states[c + 3].shared.app.error == Some(FAILURE)
            && r.states[c + 3].shared.app.phase == Error
  {
    AwaitingTouchFacts();
    LateRequest();
    hide Trace, UnlockLabels, ToHardware, AwaitingTouch, ValidRun, DismissAuth, DatedBy;
    LateRunStates(1);
    LateRunStates(2);
    LateRunStates(3);
    LateRunStates(4);
    var r, c := LateRun(), |ToHardware()| + 1;
    assert TaskOf(r.states[c], 0) == Some(SignReturned(KEY, 0, Some(FAILURE)));
  }
}
