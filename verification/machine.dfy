/**
 * The interleaving of every thread that touches the shared state: agent connections, the device
 * scanner, the auto-lock timer, the lifecycle thread and the IPC commands.
 *
 * A step is one critical section of one thread, or the taking of one lock, or the return of one
 * hardware call. A thread between two steps is a `Task`; the mutexes it keeps while it waits are
 * `Held(task)`. A step that needs a mutex can happen only while no thread holds it. Hardware,
 * Keychain and file answers are the arguments of the actions.
 */
module Machine {
  import opened Common
  import opened State
  import opened Session
  import opened SessionInvariants

  type Tid = nat

  datatype Lock = FidoDevice | Enclave | SigningGate | PinCache | AppState

  /** Where `provider::sign` is. `Authorized` is the hardware call, made under every guard. */
  datatype Stage = Waiting | OnDevice | AtGate | AtPins | PinRead(pin: Pin) | Authorized(credential: Option<Pin>)

  /** Where `set_agent_locked` is, always behind the signing gate. */
  datatype LockStep = GateTaken | PinsGone(wasUnlocked: bool) | SessionGone

  datatype OperationStep = Prepared | Busy | Answered(outcome: Result<seq<SshKey>, Failure>)

  datatype ScanStep = Looked | Detecting | Detected(result: Result<seq<DeviceInfo>, Failure>)

  datatype EnclaveWork = CreateKey(key: SshKey) | DeleteKey(fingerprint: string)

  datatype Task =
    | SignRequested(blob: Bytes)
    | SignDated(blob: Bytes, generation: nat)
    | Signing(key: SshKey, generation: nat, stage: Stage)
    | SignReturned(key: SshKey, generation: nat, failure: Option<Failure>)
    | SignJudged(key: SshKey, dismissed: bool, failure: Option<Failure>)
    | AgentLocking(target: bool, lockStep: LockStep)
    | SessionLocking(reason: LockReason, wasUnlocked: bool)
    | Deactivating(condition: Condition)
    | Dismissing(condition: Condition)
    | Deactivated(condition: Condition)
    | Recovering
    | Toggling(fingerprint: string, enabled: bool)
    | Operating(op: Operation, opStep: OperationStep)
    | RenameFound(key: SshKey, name: string)
    | RenameChecked(key: SshKey, name: string, mustAsk: bool)
    | RenameReady(key: SshKey, name: string)
    | RenameBusy(key: SshKey, name: string)
    | RenameAnswered(key: SshKey, name: string, updated: Result<SshKey, Failure>)
    | Scanning(earlier: seq<Path>, initial: bool, scanStep: ScanStep)
    | EnclaveBusy(work: EnclaveWork)
    | EnclaveAnswered(work: EnclaveWork)

  datatype SignAction =
    | SignCheck(blob: Bytes) | SignDate | SignPrepare
    | TakeDevice | TakeGate | TakePins | ReadPin | Authorize
    | Unsupported(failure: Failure) | Hardware(answer: Option<Failure>) | SignJudge | SignEnd

  datatype LockAction =
    | AgentLockStart(target: bool) | AgentLockPins | AgentLockSession | AgentLockCommit
    | SessionLockPins(reason: LockReason) | SessionLockApp
    | Deactivate(condition: Condition) | DeactivateCount | DeactivateRequests
    | Reactivate(condition: Condition) | Recovery(failure: Option<Failure>)
    | ToggleStart(fingerprint: string, enabled: bool) | ToggleEnd(saved: bool)

  datatype OperationAction =
    | OpBegin(pin: Pin) | OpTakeDevice | OpAnswer(outcome: Result<seq<SshKey>, Failure>) | OpEnd

  datatype RenameAction =
    | RenameFind(fingerprint: string, name: string) | RenameCheck | RenameAsk | RenameLoad
    | RenameTake | RenameRefused | RenameAnswer(updated: Result<SshKey, Failure>) | RenameEnd

  datatype ScanAction =
    | ScanLook | ScanTake | ScanAnswer(result: Result<seq<DeviceInfo>, Failure>) | ScanEnd

  datatype Request =
    | Unlock
    | DeviceUnlock(path: Path)
    | SetLabel(path: Path, name: Option<string>, saved: bool)
    | Dismiss
    | Create(keyName: string, algorithm: Algorithm, devicePath: Option<Path>)
    | Delete(fingerprint: string)
    | Reload

  datatype EnclaveAction = EnclaveTake(work: EnclaveWork) | EnclaveAnswer(accepted: bool) | EnclaveEnd

  datatype Action =
    | Sign(sign: SignAction)
    | Lock(lock: LockAction)
    | Operate(operate: OperationAction)
    | Rename(rename: RenameAction)
    | Scan(scan: ScanAction)
    | Handle(request: Request)
    | EnclaveStep(enclave: EnclaveAction)
    | SetPolicy(policy: Policy)

  datatype Label = Label(tid: Tid, action: Action)

  datatype Sys = Sys(shared: Shared, tasks: map<Tid, Task>)

  // ----- locks

  /** The mutexes a thread keeps between two steps. */
  function Held(task: Task): set<Lock> {
    match task
    case Signing(key, _, stage) =>
      var device := if key.backend == Fido2 then FidoDevice else Enclave;
      (match stage
       case Waiting => {}
       case OnDevice => {device}
       case AtGate => {device, SigningGate}
       case AtPins => {device, SigningGate, PinCache}
       case PinRead(_) => {device, SigningGate, PinCache}
       case Authorized(_) =>
         if key.backend == Fido2 then {device, SigningGate, PinCache, AppState} else {device, SigningGate, AppState})
    case AgentLocking(_, _) => {SigningGate}
    case Toggling(_, _) => {SigningGate}
    case Operating(_, Busy) => {FidoDevice}
    case RenameBusy(key, _) =>
      if key.backend == Fido2 then {FidoDevice, PinCache} else if key.backend == SecureEnclave then {Enclave} else {}
    case Scanning(_, _, Detecting) => {FidoDevice}
    case EnclaveBusy(_) => {Enclave}
    case _ => {}
  }

  predicate Free(s: Sys, lock: Lock) {
    forall t | t in s.tasks :: lock !in Held(s.tasks[t])
  }

  // ----- signing: agent/server.rs sign_request and provider/mod.rs

  function SignNeeds(task: Option<Task>, a: SignAction): set<Lock> {
    match a
    case SignCheck(_) => {AppState}
    case SignPrepare => {AppState, PinCache}
    case TakeDevice =>
      if task.Some? && task.value.Signing? && task.value.key.backend == Fido2 then {FidoDevice} else {Enclave}
    case TakeGate => {SigningGate}
    case TakePins => {PinCache}
    case Authorize => {AppState}
    case SignEnd => {AppState}
    case _ => {}
  }

  predicate SignFits(s: Shared, task: Option<Task>, a: SignAction) {
    match (task, a)
    case (None, SignCheck(_)) => !s.app.flags.agentLocked
    case (Some(SignRequested(_)), SignDate) => true
    case (Some(SignDated(_, _)), SignPrepare) => true
    case (Some(Signing(key, _, Waiting)), TakeDevice) => key.backend != Tpm
    case (Some(Signing(key, _, Waiting)), Unsupported(_)) => key.backend == Tpm
    case (Some(Signing(_, _, OnDevice)), TakeGate) => true
    case (Some(Signing(key, _, AtGate)), TakePins) => key.backend == Fido2
    case (Some(Signing(_, _, AtPins)), ReadPin) => true
    case (Some(Signing(key, _, AtGate)), Authorize) => key.backend == SecureEnclave
    case (Some(Signing(_, _, PinRead(_))), Authorize) => true
    case (Some(Signing(_, _, Authorized(_))), Hardware(_)) => true
    case (Some(SignReturned(_, _, _)), SignJudge) => true
    case (Some(SignJudged(_, _, _)), SignEnd) => true
    case _ => false
  }

  function SignShared(s: Shared, task: Option<Task>, a: SignAction): Shared {
    match (task, a)
    case (Some(SignDated(blob, _)), SignPrepare) =>
      var found := Find(s.app.keys, EnabledBlob(blob));
      if found.Some? && found.value.backend == Fido2 && found.value.devicePath.Some?
      then SignTarget(s, found.value.devicePath.value) else s
    case (Some(SignJudged(key, dismissed, failure)), SignEnd) => SignFinish(s, key.backend, dismissed, failure)
    case _ => s
  }

  const AGENT_LOCKED := Message("locked")
  const KEY_UNAVAILABLE := Message("unavailable")

  function SignTask(s: Shared, task: Option<Task>, a: SignAction): Option<Task> {
    match (task, a)
    case (None, SignCheck(blob)) => Some(SignRequested(blob))
    case (Some(SignRequested(blob)), SignDate) => Some(SignDated(blob, s.generation))
    case (Some(SignDated(blob, generation)), SignPrepare) =>
      var found := Find(s.app.keys, EnabledBlob(blob));
      if found.None? || (found.value.backend == Fido2 && found.value.devicePath.None?) then None
      else Some(Signing(found.value, generation, Waiting))
    case (Some(Signing(key, generation, Waiting)), TakeDevice) => Some(Signing(key, generation, OnDevice))
    case (Some(Signing(key, generation, Waiting)), Unsupported(failure)) =>
      Some(SignReturned(key, generation, Some(failure)))
    case (Some(Signing(key, generation, OnDevice)), TakeGate) => Some(Signing(key, generation, AtGate))
    case (Some(Signing(key, generation, AtGate)), TakePins) => Some(Signing(key, generation, AtPins))
    case (Some(Signing(key, generation, AtPins)), ReadPin) =>
      if key.devicePath.Some? && key.devicePath.value in s.pins
      then Some(Signing(key, generation, PinRead(s.pins[key.devicePath.value])))
      else Some(SignReturned(key, generation, Some(PinNotCached)))
    case (Some(Signing(key, generation, stage)), Authorize) =>
      if Authorizes(s.app, key)
      then Some(Signing(key, generation, Authorized(if stage.PinRead? then Some(stage.pin) else None)))
      else Some(SignReturned(key, generation, Some(if s.app.flags.agentLocked then AGENT_LOCKED else KEY_UNAVAILABLE)))
    case (Some(Signing(key, generation, Authorized(_))), Hardware(answer)) =>
      Some(SignReturned(key, generation, answer))
    case (Some(SignReturned(key, generation, failure)), SignJudge) =>
      Some(SignJudged(key, s.generation != generation, failure))
    case _ => None
  }

  // ----- locking: settings.rs, lifecycle.rs and set_key_enabled

  function LockNeeds(a: LockAction): set<Lock> {
    match a
    case AgentLockStart(_) => {SigningGate}
    case AgentLockPins => {PinCache}
    case AgentLockSession => {AppState}
    case AgentLockCommit => {AppState}
    case SessionLockPins(_) => {PinCache}
    case SessionLockApp => {AppState}
    case DeactivateRequests => {AppState}
    case Recovery(_) => {AppState}
    case ToggleStart(_, _) => {SigningGate}
    case ToggleEnd(_) => {AppState}
    case _ => {}
  }

  predicate LockFits(s: Shared, task: Option<Task>, a: LockAction) {
    match (task, a)
    case (None, AgentLockStart(_)) => true
    case (Some(AgentLocking(true, GateTaken)), AgentLockPins) => true
    case (Some(AgentLocking(_, PinsGone(_))), AgentLockSession) => true
    case (Some(AgentLocking(false, GateTaken)), AgentLockCommit) => true
    case (Some(AgentLocking(_, SessionGone)), AgentLockCommit) => true
    case (None, SessionLockPins(reason)) => reason == Inactivity
    case (Some(Deactivated(condition)), SessionLockPins(reason)) => reason == System(condition)
    case (Some(SessionLocking(_, _)), SessionLockApp) => true
    case (None, Deactivate(_)) => true
    case (Some(Deactivating(_)), DeactivateCount) => true
    case (Some(Dismissing(_)), DeactivateRequests) => true
    case (None, Reactivate(_)) => true
    case (Some(Recovering), Recovery(_)) => true
    case (None, ToggleStart(_, _)) => true
    case (Some(Toggling(_, _)), ToggleEnd(_)) => true
    case _ => false
  }

  function LockShared(s: Shared, task: Option<Task>, a: LockAction): Shared {
    match (task, a)
    case (Some(AgentLocking(_, _)), AgentLockPins) => LockPins(s)
    case (Some(AgentLocking(_, PinsGone(wasUnlocked))), AgentLockSession) => LockApp(s, Manual, wasUnlocked)
    case (Some(AgentLocking(target, _)), AgentLockCommit) => SetAgentLocked(s, target)
    case (_, SessionLockPins(_)) => LockPins(s)
    case (Some(SessionLocking(reason, wasUnlocked)), SessionLockApp) => LockApp(s, reason, wasUnlocked)
    case (_, Deactivate(condition)) => s.(outstanding := s.outstanding + {condition})
    case (_, DeactivateCount) => s.(generation := s.generation + 1)
    case (_, DeactivateRequests) => DeactivateClear(s)
    case (_, Reactivate(condition)) => s.(outstanding := s.outstanding - {condition})
    case (_, Recovery(None)) => Recovered(s)
    case (_, Recovery(Some(failure))) => RecoveryFailed(s, failure)
    case (Some(Toggling(fingerprint, enabled)), ToggleEnd(saved)) =>
      if saved then SetKeyEnabled(s, fingerprint, enabled).state else s
    case _ => s
  }

  function LockTask(s: Shared, task: Option<Task>, a: LockAction): Option<Task> {
    match (task, a)
    case (None, AgentLockStart(target)) => Some(AgentLocking(target, GateTaken))
    case (Some(AgentLocking(target, GateTaken)), AgentLockPins) => Some(AgentLocking(target, PinsGone(s.pins != map[])))
    case (Some(AgentLocking(target, PinsGone(_))), AgentLockSession) => Some(AgentLocking(target, SessionGone))
    case (_, SessionLockPins(reason)) => Some(SessionLocking(reason, s.pins != map[]))
    case (_, Deactivate(condition)) => if s.outstanding == {} then Some(Deactivating(condition)) else None
    case (Some(Deactivating(condition)), DeactivateCount) => Some(Dismissing(condition))
    case (Some(Dismissing(condition)), DeactivateRequests) => Some(Deactivated(condition))
    case (_, Reactivate(condition)) =>
      if condition in s.outstanding && s.outstanding - {condition} == {} then Some(Recovering) else None
    case (_, ToggleStart(fingerprint, enabled)) => Some(Toggling(fingerprint, enabled))
    case _ => None
  }

  // ----- perform_fido_operation

  function OperationNeeds(a: OperationAction): set<Lock> {
    match a
    case OpBegin(_) => {AppState}
    case OpTakeDevice => {FidoDevice}
    case OpAnswer(_) => {}
    case OpEnd => {AppState, PinCache}
  }

  predicate OperationFits(s: Shared, task: Option<Task>, a: OperationAction) {
    match (task, a)
    case (None, OpBegin(pin)) => BeginOperation(s, pin).Begun?
    case (Some(Operating(_, Prepared)), OpTakeDevice) => true
    case (Some(Operating(op, Busy)), OpAnswer(outcome)) => outcome.Ok? ==> LoadedFrom(op.path, outcome.value)
    case (Some(Operating(_, Answered(_))), OpEnd) => true
    case _ => false
  }

  function OperationShared(s: Shared, task: Option<Task>, a: OperationAction): Shared {
    match (task, a)
    case (_, OpBegin(pin)) => (var b := BeginOperation(s, pin); if b.Begun? then b.state else s)
    case (Some(Operating(op, Answered(outcome))), OpEnd) => FinishOperation(s, op, outcome)
    case _ => s
  }

  function OperationTask(s: Shared, task: Option<Task>, a: OperationAction): Option<Task> {
    match (task, a)
    case (_, OpBegin(pin)) =>
      (var b := BeginOperation(s, pin); if b.Begun? then Some(Operating(b.op, Prepared)) else None)
    case (Some(Operating(op, Prepared)), OpTakeDevice) => Some(Operating(op, Busy))
    case (Some(Operating(op, Busy)), OpAnswer(outcome)) => Some(Operating(op, Answered(outcome)))
    case _ => None
  }

  // ----- rename_key

  function RenameNeeds(task: Option<Task>, a: RenameAction): set<Lock> {
    match a
    case RenameFind(_, _) => {AppState}
    case RenameCheck => {PinCache}
    case RenameAsk => {AppState, PinCache}
    case RenameLoad => {AppState}
    case RenameTake =>
      (match task
       case Some(RenameReady(key, name)) => Held(RenameBusy(key, name))
       case _ => {})
    case RenameRefused => {}
    case RenameAnswer(_) => {}
    case RenameEnd => {AppState}
  }

  predicate RenameFits(s: Shared, task: Option<Task>, a: RenameAction) {
    match (task, a)
    case (None, RenameFind(fingerprint, _)) => Find(s.app.keys, HasFingerprint(fingerprint)).Some?
    case (Some(RenameFound(_, _)), RenameCheck) => true
    case (Some(RenameChecked(key, _, mustAsk)), RenameAsk) => mustAsk && key.devicePath.Some?
    case (Some(RenameChecked(_, _, mustAsk)), RenameLoad) => !mustAsk
    case (Some(RenameReady(_, _)), RenameTake) => true
    // without Touch ID approval the command ends at once and leaves the phase at Loading
    case (Some(RenameBusy(key, _)), RenameRefused) => key.backend == SecureEnclave
    // the hardware hands back the same key, or the registry entry rebuilt for it
    case (Some(RenameBusy(key, _)), RenameAnswer(updated)) =>
      updated.Ok? ==> updated.value.backend == key.backend && updated.value.devicePath == key.devicePath
    case (Some(RenameAnswered(_, _, _)), RenameEnd) => true
    case _ => false
  }

  function RenameShared(s: Shared, task: Option<Task>, a: RenameAction): Shared {
    match (task, a)
    case (Some(RenameChecked(key, name, _)), RenameAsk) =>
      if key.devicePath.Some? then RenamePrompt(s, key.devicePath.value, key.fingerprint, name).state else s
    case (_, RenameLoad) => RenameLoading(s)
    case (Some(RenameAnswered(key, _, updated)), RenameEnd) => RenameFinish(s, key.fingerprint, updated).state
    case _ => s
  }

  function RenameTask(s: Shared, task: Option<Task>, a: RenameAction): Option<Task> {
    match (task, a)
    case (_, RenameFind(fingerprint, name)) =>
      var found := Find(s.app.keys, HasFingerprint(fingerprint));
      if found.None? || (found.value.backend == Fido2 && found.value.devicePath.None?) then None
      else Some(RenameFound(found.value, name))
    case (Some(RenameFound(key, name)), RenameCheck) =>
      var mustAsk := key.backend == Fido2
        && (s.policy.requireForRename || key.devicePath.None? || key.devicePath.value !in s.pins);
      Some(RenameChecked(key, name, mustAsk))
    case (Some(RenameChecked(key, name, _)), RenameLoad) => Some(RenameReady(key, name))
    case (Some(RenameReady(key, name)), RenameTake) => Some(RenameBusy(key, name))
    case (Some(RenameBusy(key, name)), RenameAnswer(updated)) => Some(RenameAnswered(key, name, updated))
    case _ => None
  }

  // ----- device/watcher.rs

  function ScanNeeds(a: ScanAction): set<Lock> {
    match a
    case ScanLook => {AppState}
    case ScanTake => {FidoDevice}
    case ScanAnswer(_) => {}
    case ScanEnd => {AppState, PinCache}
  }

  /** One scanner thread: a scan starts only when the previous one is over. */
  predicate ScanFits(s: Sys, task: Option<Task>, a: ScanAction) {
    match (task, a)
    case (None, ScanLook) => forall t | t in s.tasks :: !s.tasks[t].Scanning?
    case (Some(Scanning(_, _, Looked)), ScanTake) => true
    case (Some(Scanning(_, _, Detecting)), ScanAnswer(_)) => true
    case (Some(Scanning(_, _, Detected(_))), ScanEnd) => true
    case _ => false
  }

  function ScanShared(s: Shared, task: Option<Task>, a: ScanAction): Shared {
    match (task, a)
    case (_, ScanLook) => s.(scanCompleted := true)
    case (Some(Scanning(earlier, initial, Detected(result))), ScanEnd) => ScanApply(s, earlier, initial, result)
    case _ => s
  }

  function ScanTask(s: Shared, task: Option<Task>, a: ScanAction): Option<Task> {
    match (task, a)
    case (_, ScanLook) => Some(Scanning(Paths(s.app.devices), !s.scanCompleted, Looked))
    case (Some(Scanning(earlier, initial, Looked)), ScanTake) => Some(Scanning(earlier, initial, Detecting))
    case (Some(Scanning(earlier, initial, Detecting)), ScanAnswer(result)) =>
      Some(Scanning(earlier, initial, Detected(result)))
    case _ => None
  }

  // ----- commands that are one critical section, and Secure Enclave keys

  function HandleShared(s: Shared, request: Request): Shared {
    match request
    case Unlock => RequestUnlock(s).state
    case DeviceUnlock(path) => RequestDeviceUnlock(s, path).state
    case SetLabel(path, name, saved) => SetSecurityKeyLabel(s, path, name, saved).state
    case Dismiss => DismissAuth(s)
    case Create(name, algorithm, devicePath) => RequestCreation(s, name, algorithm, devicePath).state
    case Delete(fingerprint) => RequestDeletion(s, fingerprint).state
    case Reload => TrayReload(s)
  }

  function EnclaveNeeds(a: EnclaveAction): set<Lock> {
    match a
    case EnclaveTake(_) => {Enclave}
    case EnclaveAnswer(_) => {}
    case EnclaveEnd => {AppState}
  }

  predicate EnclaveFits(task: Option<Task>, a: EnclaveAction) {
    match (task, a)
    case (None, EnclaveTake(work)) => work.CreateKey? ==> work.key.backend == SecureEnclave
    case (Some(EnclaveBusy(_)), EnclaveAnswer(_)) => true
    case (Some(EnclaveAnswered(_)), EnclaveEnd) => true
    case _ => false
  }

  function EnclaveShared(s: Shared, task: Option<Task>, a: EnclaveAction): Shared {
    match (task, a)
    case (Some(EnclaveAnswered(CreateKey(key))), EnclaveEnd) => EnclaveCreated(s, key)
    case (Some(EnclaveAnswered(DeleteKey(fingerprint))), EnclaveEnd) => EnclaveDeleted(s, fingerprint)
    case _ => s
  }

  function EnclaveTask(task: Option<Task>, a: EnclaveAction): Option<Task> {
    match (task, a)
    case (_, EnclaveTake(work)) => Some(EnclaveBusy(work))
    case (Some(EnclaveBusy(work)), EnclaveAnswer(accepted)) => if accepted then Some(EnclaveAnswered(work)) else None
    case _ => None
  }

  // ----- the step relation

  function Needs(task: Option<Task>, a: Action): set<Lock> {
    match a
    case Sign(b) => SignNeeds(task, b)
    case Lock(b) => LockNeeds(b)
    case Operate(b) => OperationNeeds(b)
    case Rename(b) => RenameNeeds(task, b)
    case Scan(b) => ScanNeeds(b)
    case Handle(_) => {AppState, PinCache}
    case EnclaveStep(b) => EnclaveNeeds(b)
    case SetPolicy(_) => {}
  }

  predicate Fits(s: Sys, task: Option<Task>, a: Action) {
    match a
    case Sign(b) => SignFits(s.shared, task, b)
    case Lock(b) => LockFits(s.shared, task, b)
    case Operate(b) => OperationFits(s.shared, task, b)
    case Rename(b) => RenameFits(s.shared, task, b)
    case Scan(b) => ScanFits(s, task, b)
    case Handle(_) => task.None?
    case EnclaveStep(b) => EnclaveFits(task, b)
    case SetPolicy(_) => task.None?
  }

  function NextShared(s: Shared, task: Option<Task>, a: Action): Shared {
    match a
    case Sign(b) => SignShared(s, task, b)
    case Lock(b) => LockShared(s, task, b)
    case Operate(b) => OperationShared(s, task, b)
    case Rename(b) => RenameShared(s, task, b)
    case Scan(b) => ScanShared(s, task, b)
    case Handle(request) => HandleShared(s, request)
    case EnclaveStep(b) => EnclaveShared(s, task, b)
    case SetPolicy(policy) => s.(policy := policy)
  }

  function NextTask(s: Shared, task: Option<Task>, a: Action): Option<Task> {
    match a
    case Sign(b) => SignTask(s, task, b)
    case Lock(b) => LockTask(s, task, b)
    case Operate(b) => OperationTask(s, task, b)
    case Rename(b) => RenameTask(s, task, b)
    case Scan(b) => ScanTask(s, task, b)
    case EnclaveStep(b) => EnclaveTask(task, b)
    case _ => None
  }

  function TaskOf(s: Sys, t: Tid): Option<Task> {
    if t in s.tasks then Some(s.tasks[t]) else None
  }

  predicate Enabled(s: Sys, l: Label) {
    var task := TaskOf(s, l.tid);
    Fits(s, task, l.action) && forall lock | lock in Needs(task, l.action) :: Free(s, lock)
  }

  function After(s: Sys, l: Label): Sys {
    var task := TaskOf(s, l.tid);
    var next := NextTask(s.shared, task, l.action);
    Sys(NextShared(s.shared, task, l.action),
        if next.Some? then s.tasks[l.tid := next.value] else s.tasks - {l.tid})
  }

  /** Start-up: no device seen yet, no FIDO2 key loaded, nobody at work. */
  predicate Initial(s: Sys) {
    && s.tasks == map[]
    && s.shared.pins == map[]
    && s.shared.generation == 0
    && s.shared.outstanding == {}
    && !s.shared.scanCompleted
    && (forall k | k in s.shared.app.keys :: k.backend == SecureEnclave)
    && s.shared.app == DEFAULT_APP.(
      flags := DEFAULT_APP.flags.(agentRunning := s.shared.app.flags.agentRunning),
      securityNotice := s.shared.app.securityNotice,
      keys := s.shared.app.keys,
      phase := if s.shared.app.keys != [] then Ready else WaitingForDevice)
  }

  /** A run: the states it passes through and the label of each step. */
  datatype Run = Run(states: seq<Sys>, labels: seq<Label>)

  ghost predicate ValidRun(r: Run) {
    && |r.states| == |r.labels| + 1
    && Initial(r.states[0])
    && (forall i | 0 <= i < |r.labels| ::
          Enabled(r.states[i], r.labels[i]) && r.states[i + 1] == After(r.states[i], r.labels[i]))
  }
}
