/**
 * The security settings and their two copies: the settings file and the Keychain item.
 * What files, the Keychain and Touch ID answer is decided by an oracle, call by call.
 */
module Settings {
  import opened Common

  datatype PinSettings = PinSettings(
    promptOnStartup: bool,
    promptOnDeviceConnection: bool,
    promptAfterMacUnlock: bool,
    requireForCreate: bool,
    requireForRename: bool,
    requireForDelete: bool)

  datatype TouchIdSettings = TouchIdSettings(requireForCreate: bool, requireForRename: bool)

  /** The part of the settings that is mirrored to the Keychain. */
  datatype Security = Security(autoLockMinutes: nat, pin: PinSettings, touchId: TouchIdSettings)

  datatype Settings = Settings(launchAtLogin: bool, requiresApproval: bool, preferred: nat, security: Security)

  const DEFAULT_SECURITY :=
    Security(15, PinSettings(false, true, true, true, true, true), TouchIdSettings(true, true))
  const DEFAULT_SETTINGS := Settings(false, false, 0, DEFAULT_SECURITY)

  type Labels = map<string, string>

  datatype File = Missing | Garbage | Stored(settings: Settings)

  /** The Keychain item: none yet, bytes that are no policy, or a policy with the device names. */
  datatype Item = Absent | Invalid | Valid(policy: Security, labels: Labels)

  /** Both copies, and the policy that the running program enforces. */
  datatype Store = Store(file: File, item: Item, applied: Security)

  /** How the outside answers during one `load` or `save`. */
  datatype Weather = Weather(
    fileReads: bool,
    fileWrites: bool,
    policyReads: bool,
    policyReadsAgain: bool,
    policyWrites: bool,
    autostart: int)

  // ----- loading and saving

  /** `write_security_policy`: reads the old item first and writes nothing when that fails. */
  function WritePolicy(s: Store, security: Security, w: Weather): Store {
    if !w.policyReadsAgain || s.item.Invalid? || !w.policyWrites then s
    else s.(item := Valid(security, if s.item.Valid? then s.item.labels else map[]))
  }

  /** `save`: whether the file was written; the Keychain may fail silently. */
  function Save(s: Store, settings: Settings, w: Weather): (Store, bool) {
    if !w.fileWrites then (s, false)
    else (WritePolicy(s.(file := Stored(settings)), settings.security, w), true)
  }

  function ReadFile(s: Store, w: Weather): Option<Settings> {
    if !w.fileReads || s.file.Garbage? then None
    else Some(if s.file.Stored? then s.file.settings else DEFAULT_SETTINGS)
  }

  /** The settings of the file, with the Keychain's policy over them where one can be read. */
  function Merge(s: Store, settings: Settings, w: Weather): Settings {
    if w.policyReads && s.item.Valid? then settings.(security := s.item.policy) else settings
  }

  /** `load`: an absent Keychain item is created from the file, and the file is written again. */
  function Load(s: Store, w: Weather): (Store, Option<Settings>) {
    var read := ReadFile(s, w);
    if read.None? then (s, None)
    else
      var merged := Merge(s, read.value, w);
      var s1 := if w.policyReads && s.item.Absent? then WritePolicy(s, merged.security, w) else s;
      var settings := merged.(launchAtLogin := w.autostart == 1, requiresApproval := w.autostart == 2);
      if !w.fileWrites then (s1, None) else (s1.(file := Stored(settings)), Some(settings))
  }

  /**
   * After a successful `save`, a successful `load` returns the saved policy in every case but one: an older
   * policy that differs was in the Keychain, was not replaced, and can be read again.
   */
  lemma LoadAfterSave(s: Store, settings: Settings, w: Weather, v: Weather)
    requires Save(s, settings, w).1 && Load(Save(s, settings, w).0, v).1.Some?
    ensures Load(Save(s, settings, w).0, v).1.value.security == settings.security
       <==> !(s.item.Valid? && s.item.policy != settings.security
              && !(w.policyReadsAgain && w.policyWrites) && v.policyReads)
    ensures Load(Save(s, settings, w).0, v).1.value.preferred == settings.preferred
  {
  }

  // ----- weaker settings

  predicate PinWeakened(current: PinSettings, next: PinSettings) {
    || (current.promptOnStartup && !next.promptOnStartup)
    || (current.promptOnDeviceConnection && !next.promptOnDeviceConnection)
    || (current.promptAfterMacUnlock && !next.promptAfterMacUnlock)
    || (current.requireForCreate && !next.requireForCreate)
    || (current.requireForRename && !next.requireForRename)
    || (current.requireForDelete && !next.requireForDelete)
  }

  predicate TouchIdWeakened(current: TouchIdSettings, next: TouchIdSettings) {
    || (current.requireForCreate && !next.requireForCreate)
    || (current.requireForRename && !next.requireForRename)
  }

  predicate AutoLockWeakened(current: nat, next: nat) {
    next == 0 || (current != 0 && next > current)
  }

  /** The protections a policy can switch on. */
  datatype Protection =
    | StartupPrompt | ConnectionPrompt | UnlockPrompt
    | CreatePin | RenamePin | DeletePin
    | CreateTouchId | RenameTouchId

  predicate On(s: Security, p: Protection) {
    match p
    case StartupPrompt => s.pin.promptOnStartup
    case ConnectionPrompt => s.pin.promptOnDeviceConnection
    case UnlockPrompt => s.pin.promptAfterMacUnlock
    case CreatePin => s.pin.requireForCreate
    case RenamePin => s.pin.requireForRename
    case DeletePin => s.pin.requireForDelete
    case CreateTouchId => s.touchId.requireForCreate
    case RenameTouchId => s.touchId.requireForRename
  }

  /** Everything that was on is still on, and the session still locks no later; 0 is never. */
  ghost predicate AtLeast(next: Security, current: Security) {
    && (forall p :: On(current, p) ==> On(next, p))
    && (current.autoLockMinutes != 0 ==> 0 < next.autoLockMinutes <= current.autoLockMinutes)
  }

  /** The PIN and Touch ID checks ask for approval exactly when a protection would go off. */
  lemma WeakenedExactly(current: Security, next: Security)
    ensures PinWeakened(current.pin, next.pin) || TouchIdWeakened(current.touchId, next.touchId)
       <==> exists p :: On(current, p) && !On(next, p)
  {
    var lost := [StartupPrompt, ConnectionPrompt, UnlockPrompt, CreatePin, RenamePin, DeletePin,
                 CreateTouchId, RenameTouchId];
    assert forall i | 0 <= i < |lost| && On(current, lost[i]) && !On(next, lost[i]) ::
        exists p :: On(current, p) && !On(next, p);
    assert lost[0] == StartupPrompt && lost[1] == ConnectionPrompt && lost[2] == UnlockPrompt && lost[3] == CreatePin;
    assert lost[4] == RenamePin && lost[5] == DeletePin && lost[6] == CreateTouchId && lost[7] == RenameTouchId;
  }

  // ----- the commands

  datatype Change =
    | AutoLock(minutes: nat)
    | Pin(pin: PinSettings)
    | TouchId(touchId: TouchIdSettings)
    | Preferred(backend: nat)
    | Autostart(accepted: bool)

  predicate Weakens(c: Change, current: Security) {
    match c
    case AutoLock(minutes) => AutoLockWeakened(current.autoLockMinutes, minutes)
    case Pin(pin) => PinWeakened(current.pin, pin)
    case TouchId(touchId) => TouchIdWeakened(current.touchId, touchId)
    case _ => false
  }

  function ChangeSecurity(c: Change, security: Security): Security {
    match c
    case AutoLock(minutes) => security.(autoLockMinutes := minutes)
    case Pin(pin) => security.(pin := pin)
    case TouchId(touchId) => security.(touchId := touchId)
    case _ => security
  }

  function ChangeSettings(c: Change, settings: Settings): Settings {
    var changed := settings.(security := ChangeSecurity(c, settings.security));
    if c.Preferred? then changed.(preferred := c.backend) else changed
  }

  /** What is refused before anything is read. */
  predicate Acceptable(c: Change) {
    match c
    case AutoLock(minutes) => minutes in {0, 5, 15, 30, 60}
    case Autostart(accepted) => accepted
    case _ => true
  }

  /** The answers during one command: while loading, while saving, and of Touch ID. */
  datatype Oracle = Oracle(load: Weather, save: Weather, approves: bool)

  /** What `set_auto_lock`, `set_pin_settings` and the others hand to `save`, if they get that far. */
  function Proposal(s: Store, c: Change, o: Oracle): Option<Settings> {
    var loaded := Load(s, o.load).1;
    if !Acceptable(c) || loaded.None? then None
    else if Weakens(c, loaded.value.security) && !o.approves then None
    else Some(ChangeSettings(c, loaded.value))
  }

  function SetSettings(s: Store, c: Change, o: Oracle): (Store, Option<Settings>) {
    if !Acceptable(c) then (s, None)
    else
      var s1 := Load(s, o.load).0;
      var proposal := Proposal(s, c, o);
      if proposal.None? then (s1, None)
      else
        var (s2, saved) := Save(s1, proposal.value, o.save);
        if !saved then (s2, None)
        else (s2.(applied := ChangeSecurity(c, s2.applied)), proposal)
  }

  /** Start-up: the loaded policy is put in force, or the defaults when it cannot be loaded. */
  function Restart(s: Store, w: Weather): Store {
    var (s1, loaded) := Load(s, w);
    s1.(applied := if loaded.Some? then loaded.value.security else DEFAULT_SECURITY)
  }

  /** `set_device_label`, after its own file was written: the Keychain item is rewritten with the names. */
  function SetLabels(s: Store, labels: Labels, w: Weather): Store {
    if !w.policyReadsAgain || s.item.Invalid? || !w.policyWrites then s
    else s.(item := Valid(if s.item.Valid? then s.item.policy else DEFAULT_SECURITY, labels))
  }

  // ----- the program over these functions

  /** The store as the program changes it: each method performs one of the functions above. */
  class SettingsStore {
    var file: File
    var item: Item
    var applied: Security

    function View(): Store
      reads this
    {
      Store(file, item, applied)
    }

    constructor (file: File, item: Item)
      ensures View() == Store(file, item, DEFAULT_SECURITY)
    {
      this.file, this.item, this.applied := file, item, DEFAULT_SECURITY;
    }

    method WriteSecurityPolicy(security: Security, w: Weather)
      modifies this`item
      ensures View() == WritePolicy(old(View()), security, w)
    {
      if !w.policyReadsAgain || item.Invalid? { return; }
      var labels := if item.Valid? then item.labels else map[];
      if !w.policyWrites { return; }
      item := Valid(security, labels);
    }

    method SaveSettings(settings: Settings, w: Weather) returns (saved: bool)
      modifies this`file, this`item
      ensures (View(), saved) == Save(old(View()), settings, w)
    {
      if !w.fileWrites { return false; }
      file := Stored(settings);
      WriteSecurityPolicy(settings.security, w);
      return true;
    }

    method LoadSettings(w: Weather) returns (r: Option<Settings>)
      modifies this`file, this`item
      ensures (View(), r) == Load(old(View()), w)
    {
      if !w.fileReads || file.Garbage? { return None; }
      var settings := if file.Stored? then file.settings else DEFAULT_SETTINGS;
      if w.policyReads {
        match item {
          case Valid(policy, _) =>
            settings := settings.(security := policy);
          case Absent =>
            WriteSecurityPolicy(settings.security, w);
          case Invalid =>
        }
      }
      settings := settings.(launchAtLogin := w.autostart == 1, requiresApproval := w.autostart == 2);
      if !w.fileWrites { return None; }
      file := Stored(settings);
      return Some(settings);
    }

    method Set(c: Change, o: Oracle) returns (r: Option<Settings>)
      modifies this
      ensures (View(), r) == SetSettings(old(View()), c, o)
    {
      hide Load, Save, Weakens;
      if !Acceptable(c) { return None; }
      var loaded := LoadSettings(o.load);
      if loaded.None? { return None; }
      if Weakens(c, loaded.value.security) && !o.approves { return None; }
      var settings := ChangeSettings(c, loaded.value);
      var saved := SaveSettings(settings, o.save);
      if !saved { return None; }
      applied := ChangeSecurity(c, applied);
      return Some(settings);
    }

    method Start(w: Weather)
      modifies this
      ensures View() == Restart(old(View()), w)
    {
      hide Load;
      var loaded := LoadSettings(w);
      applied := if loaded.Some? then loaded.value.security else DEFAULT_SECURITY;
    }

    method MirrorLabels(labels: Labels, w: Weather)
      modifies this`item
      ensures View() == SetLabels(old(View()), labels, w)
    {
      if !w.policyReadsAgain || item.Invalid? { return; }
      var policy := if item.Valid? then item.policy else DEFAULT_SECURITY;
      if w.policyWrites { item := Valid(policy, labels); }
    }
  }

  // ----- whole runs

  datatype Step =
    | Set(change: Change, oracle: Oracle)
    | Starting(weather: Weather)
    | Naming(labels: Labels, answers: Weather)

  function After(s: Store, step: Step): Store {
    match step
    case Set(c, o) => SetSettings(s, c, o).0
    case Starting(w) => Restart(s, w)
    case Naming(labels, w) => SetLabels(s, labels, w)
  }

  function AfterAll(s: Store, run: seq<Step>): Store {
    if run == [] then s else After(AfterAll(s, run[..|run| - 1]), run[|run| - 1])
  }

  /** The policy of the file; a missing file stands for the defaults. */
  function Policy(s: Store): Security {
    if s.file.Stored? then s.file.settings.security else DEFAULT_SECURITY
  }

  /** The file is readable as such, a valid Keychain item says the same, and that policy is in force. */
  predicate Coherent(s: Store) {
    && !s.file.Garbage?
    && (s.item.Valid? ==> s.item.policy == Policy(s))
    && s.applied == Policy(s)
  }

  /** The Keychain keeps an older policy although the file got a new one. */
  predicate LeavesOldPolicy(s: Store, c: Change, o: Oracle) {
    var proposal := Proposal(s, c, o);
    var s1 := Load(s, o.load).0;
    && proposal.Some? && o.save.fileWrites
    && s1.item.Valid? && s1.item.policy != proposal.value.security
    && !(o.save.policyReadsAgain && o.save.policyWrites)
  }

  /** A device name is saved while no Keychain item exists, which creates one with the default policy. */
  predicate ResetsPolicy(s: Store, w: Weather) {
    s.item.Absent? && w.policyReadsAgain && w.policyWrites && Policy(s) != DEFAULT_SECURITY
  }

  /** The settings cannot be loaded at start-up, and the defaults in force are not the stored policy. */
  predicate FallsBack(s: Store, w: Weather) {
    Load(s, w).1.None? && Policy(s) != DEFAULT_SECURITY
  }

  predicate Exceptional(s: Store, step: Step) {
    match step
    case Set(c, o) => LeavesOldPolicy(s, c, o)
    case Starting(w) => FallsBack(s, w)
    case Naming(_, w) => ResetsPolicy(s, w)
  }

  predicate Approved(step: Step) {
    step.Set? && step.oracle.approves
  }

  lemma LoadKeepsPolicy(s: Store, w: Weather)
    requires Coherent(s)
    ensures var (s1, r) := Load(s, w);
            Coherent(s1) && Policy(s1) == Policy(s) && (r.Some? ==> r.value.security == Policy(s))
  {
  }

  /** From a coherent store, a step leaves both copies and the policy in force at odds in exactly three cases. */
  lemma CoherentExactly(s: Store, step: Step)
    requires Coherent(s)
    ensures Coherent(After(s, step)) <==> !Exceptional(s, step)
  {
    hide Weakens, ChangeSecurity, Load, DEFAULT_SECURITY, DEFAULT_SETTINGS;
    match step {
      case Set(c, o) => LoadKeepsPolicy(s, o.load);
      case Starting(w) => LoadKeepsPolicy(s, w);
      case Naming(labels, w) =>
    }
  }

  lemma UnapprovedChangeKeeps(c: Change, current: Security)
    requires Acceptable(c) && !Weakens(c, current)
    ensures AtLeast(ChangeSecurity(c, current), current)
  {
    WeakenedExactly(current, ChangeSecurity(c, current));
  }

  lemma AtLeastTransitive(a: Security, b: Security, c: Security)
    requires AtLeast(a, b) && AtLeast(b, c)
    ensures AtLeast(a, c)
  {
    hide On;
  }

  lemma AtLeastReflexive(a: Security)
    ensures AtLeast(a, a)
  {
  }

  lemma AtLeastAntisymmetric(a: Security, b: Security)
    requires AtLeast(a, b) && AtLeast(b, a)
    ensures a == b
  {
    WeakenedExactly(a, b);
    WeakenedExactly(b, a);
  }

  /** A change that leads one policy to at least `b` leads no policy that is at least `b` below it. */
  lemma ChangeByParts(c: Change, loaded: Security, applied: Security, b: Security)
    requires AtLeast(applied, b) && AtLeast(ChangeSecurity(c, loaded), b)
    ensures AtLeast(ChangeSecurity(c, applied), b)
  {
    var next, changed := ChangeSecurity(c, applied), ChangeSecurity(c, loaded);
    forall p | On(b, p) ensures On(next, p) {
      assert On(applied, p) && On(changed, p);
    }
  }

  // ----- what one call does

  /** A fresh installation asks for every operation, for no PIN at start-up, and locks after 15 minutes. */
  lemma DefaultsAreSafe()
    ensures forall p :: On(DEFAULT_SECURITY, p) <==> p != StartupPrompt
    ensures DEFAULT_SECURITY.autoLockMinutes == 15
  {
  }

  /** The settings in the file, or the defaults without one. */
  function InFile(s: Store): Settings
    requires !s.file.Garbage?
  {
    match s.file
    case Stored(settings) => settings
    case Missing => DEFAULT_SETTINGS
  }

  /**
   * A `load` succeeds exactly when the file can be read and written. It returns the file's settings, with the
   * Keychain's policy where one can be read, and leaves both copies with what it returns where it can.
   */
  lemma LoadMeans(s: Store, w: Weather)
    ensures Load(s, w).1.Some? <==> w.fileReads && !s.file.Garbage? && w.fileWrites
    ensures Load(s, w).1.Some? ==>
              var (s1, r) := Load(s, w);
              && s1.file == Stored(r.value) && s1.applied == s.applied
              && r.value.security == (if w.policyReads && s.item.Valid? then s.item.policy else InFile(s).security)
              && r.value.preferred == InFile(s).preferred
              && (r.value.launchAtLogin <==> w.autostart == 1) && (r.value.requiresApproval <==> w.autostart == 2)
              && s1.item == (if s.item.Absent? && w.policyReads && w.policyReadsAgain && w.policyWrites
                             then Valid(r.value.security, map[]) else s.item)
  {
  }

  /** A `save` succeeds exactly when the file can be written; the Keychain follows where it can, names kept. */
  lemma SaveMeans(s: Store, settings: Settings, w: Weather)
    ensures Save(s, settings, w).1 == w.fileWrites
    ensures !w.fileWrites ==> Save(s, settings, w).0 == s
    ensures w.fileWrites ==>
              var s1 := Save(s, settings, w).0;
              && s1.file == Stored(settings) && s1.applied == s.applied
              && (if w.policyReadsAgain && w.policyWrites && !s.item.Invalid? then
                    && s1.item.Valid? && s1.item.policy == settings.security
                    && s1.item.labels == (if s.item.Valid? then s.item.labels else map[])
                  else s1.item == s.item)
  {
  }

  /** Approval is asked for a change exactly when it takes something away, or switches the auto-lock off. */
  lemma WeakensExactly(c: Change, current: Security)
    ensures Weakens(c, current) <==> c == AutoLock(0) || !AtLeast(ChangeSecurity(c, current), current)
  {
    WeakenedExactly(current, ChangeSecurity(c, current));
  }

  /** The policy `after` is `before` with the changed part as it was asked for. */
  predicate IsChanged(c: Change, before: Security, after: Security) {
    match c
    case AutoLock(minutes) =>
      after.autoLockMinutes == minutes && after.pin == before.pin && after.touchId == before.touchId
    case Pin(pin) =>
      after.pin == pin && after.touchId == before.touchId && after.autoLockMinutes == before.autoLockMinutes
    case TouchId(touchId) =>
      after.touchId == touchId && after.pin == before.pin && after.autoLockMinutes == before.autoLockMinutes
    case Preferred(_) => after == before
    case Autostart(_) => after == before
  }

  /**
   * When a change is accepted, and what it leaves: the loaded settings with the part that was asked for
   * changed are returned and in the file, and that part of the policy is in force.
   */
  lemma ChangeMeans(s: Store, c: Change, o: Oracle)
    ensures var loaded := Load(s, o.load).1;
            SetSettings(s, c, o).1.Some?
            <==> && (c.AutoLock? ==> c.minutes in [0, 5, 15, 30, 60])
                 && (c.Autostart? ==> c.accepted)
                 && loaded.Some? && o.save.fileWrites && (Weakens(c, loaded.value.security) ==> o.approves)
    ensures SetSettings(s, c, o).1.Some? ==>
              var (s1, r) := SetSettings(s, c, o);
              var loaded := Load(s, o.load).1.value;
              && s1.file == Stored(r.value)
              && IsChanged(c, loaded.security, r.value.security) && IsChanged(c, s.applied, s1.applied)
              && r.value.preferred == (if c.Preferred? then c.backend else loaded.preferred)
    ensures SetSettings(s, c, o).1.None? ==> SetSettings(s, c, o).0.applied == s.applied
  {
    hide Load, Weakens, WritePolicy;
    LoadApplied(s, o.load);
    PolicyAside(s, o);
    if SetSettings(s, c, o).1.Some? {
      SaveMeans(Load(s, o.load).0, SetSettings(s, c, o).1.value, o.save);
    }
  }

  /** Saving names keeps the policy that is in the Keychain, or puts the defaults there, and leaves the rest alone. */
  lemma NamingMeans(s: Store, labels: Labels, w: Weather)
    ensures var s1 := SetLabels(s, labels, w);
            && s1.file == s.file && s1.applied == s.applied
            && (if w.policyReadsAgain && w.policyWrites && !s.item.Invalid? then
                  && s1.item.Valid? && s1.item.labels == labels
                  && s1.item.policy == (match s.item case Valid(policy, _) => policy case _ => DEFAULT_SECURITY)
                else s1.item == s.item)
  {
    hide DEFAULT_SECURITY;
  }

  lemma PolicyAside(s: Store, o: Oracle)
    ensures forall s1, security :: WritePolicy(s1, security, o.save).applied == s1.applied
  {
  }

  // ----- a policy that nothing falls below

  /** The policy in force and both copies are at least `b`. */
  ghost predicate Holds(s: Store, b: Security) {
    && !s.file.Garbage?
    && AtLeast(s.applied, b)
    && AtLeast(Policy(s), b)
    && (s.item.Valid? ==> AtLeast(s.item.policy, b))
  }

  const FAIR := Weather(true, true, true, true, true, 0)

  /** What that says: the policy in force is at least `b`, and so it is after every start that can load. */
  lemma HoldsMeans(s: Store, b: Security)
    requires !s.file.Garbage?
    ensures Holds(s, b)
       <==> AtLeast(s.applied, b) && forall w | Load(s, w).1.Some? :: AtLeast(Restart(s, w).applied, b)
  {
    hide On, DEFAULT_SECURITY;
    if forall w | Load(s, w).1.Some? :: AtLeast(Restart(s, w).applied, b) {
      assert Load(s, FAIR).1.Some?;
      assert Load(s, FAIR.(policyReads := false)).1.Some?;
      assert Restart(s, FAIR.(policyReads := false)).applied == Policy(s);
      assert s.item.Valid? ==> Restart(s, FAIR).applied == s.item.policy;
    }
  }

  /**
   * The default policy comes into force or into the Keychain: a start that cannot load, or a device named
   * while no Keychain item exists.
   */
  predicate BringsDefaults(s: Store, step: Step) {
    match step
    case Set(_, _) => false
    case Starting(w) => Load(s, w).1.None?
    case Naming(_, w) => s.item.Absent? && w.policyReadsAgain && w.policyWrites
  }

  lemma LoadHolds(s: Store, w: Weather, b: Security)
    requires Holds(s, b)
    ensures var (s1, r) := Load(s, w); Holds(s1, b) && (r.Some? ==> AtLeast(r.value.security, b))
  {
    hide On, DEFAULT_SECURITY;
  }

  lemma SetHolds(s: Store, c: Change, o: Oracle, b: Security)
    requires Holds(s, b) && !o.approves
    ensures Holds(SetSettings(s, c, o).0, b)
  {
    hide On, Load, Weakens, ChangeSecurity, AtLeast;
    LoadHolds(s, o.load, b);
    var proposal := Proposal(s, c, o);
    if proposal.Some? {
      var loaded := Load(s, o.load).1.value.security;
      UnapprovedChangeKeeps(c, loaded);
      AtLeastTransitive(proposal.value.security, loaded, b);
      ChangeByParts(c, loaded, s.applied, b);
      LoadApplied(s, o.load);
    }
  }

  lemma LoadApplied(s: Store, w: Weather)
    ensures Load(s, w).0.applied == s.applied
  {
  }

  /** Without approval, a step takes anything below `b` exactly when it brings defaults that are below `b`. */
  lemma StepHoldsExactly(s: Store, step: Step, b: Security)
    requires Holds(s, b) && !Approved(step)
    ensures Holds(After(s, step), b) <==> !BringsDefaults(s, step) || AtLeast(DEFAULT_SECURITY, b)
  {
    hide On, Load, SetSettings, AtLeast, DEFAULT_SECURITY;
    match step {
      case Set(c, o) => SetHolds(s, c, o, b);
      case Starting(w) => LoadHolds(s, w, b);
      case Naming(labels, w) =>
    }
  }

  ghost predicate Unapproved(run: seq<Step>) {
    forall i | 0 <= i < |run| :: !Approved(run[i])
  }

  ghost predicate DefaultsSuffice(s: Store, run: seq<Step>, b: Security) {
    AtLeast(DEFAULT_SECURITY, b) || forall i | 0 <= i < |run| :: !BringsDefaults(AfterAll(s, run[..i]), run[i])
  }

  lemma AfterNext(s: Store, run: seq<Step>, i: nat)
    requires i < |run|
    ensures AfterAll(s, run[..i + 1]) == After(AfterAll(s, run[..i]), run[i])
  {
    assert run[..i + 1][..i] == run[..i];
  }

  lemma {:induction false} HoldsUpTo(s: Store, run: seq<Step>, b: Security, i: nat)
    requires Holds(s, b) && Unapproved(run) && DefaultsSuffice(s, run, b) && i <= |run|
    ensures Holds(AfterAll(s, run[..i]), b)
  {
    hide Holds, After, AtLeast, BringsDefaults, Approved, DEFAULT_SECURITY;
    if i > 0 {
      HoldsUpTo(s, run, b, i - 1);
      AfterNext(s, run, i - 1);
      StepHoldsExactly(AfterAll(s, run[..i - 1]), run[i - 1], b);
    }
  }

  /**
   * Over any run without approval: the policy in force and every later start stay at `b` or above in every
   * state of the run exactly when the default policy is that strong, or no step brings it in.
   */
  lemma HoldsExactly(s: Store, run: seq<Step>, b: Security)
    requires Holds(s, b) && Unapproved(run)
    ensures (forall i | 0 <= i <= |run| :: Holds(AfterAll(s, run[..i]), b)) <==> DefaultsSuffice(s, run, b)
  {
    hide Holds, After, AtLeast, BringsDefaults, Approved, AfterAll, DEFAULT_SECURITY;
    if DefaultsSuffice(s, run, b) {
      forall i | 0 <= i <= |run| ensures Holds(AfterAll(s, run[..i]), b) { HoldsUpTo(s, run, b, i); }
    } else if forall i | 0 <= i <= |run| :: Holds(AfterAll(s, run[..i]), b) {
      var i :| 0 <= i < |run| && BringsDefaults(AfterAll(s, run[..i]), run[i]);
      StepHoldsExactly(AfterAll(s, run[..i]), run[i], b);
      AfterNext(s, run, i);
      assert false;
    }
  }

  lemma CoherentHolds(s: Store)
    requires Coherent(s)
    ensures Holds(s, s.applied)
  {
  }

  /**
   * Over any run of changes, restarts and renamed devices without Touch ID approval, every protection that
   * was on stays on and in force, and the session locks no later, unless a step brings in default settings
   * that are weaker.
   */
  lemma ProtectionNeverLost(s: Store, run: seq<Step>)
    requires Coherent(s) && Unapproved(run) && DefaultsSuffice(s, run, s.applied)
    ensures Holds(AfterAll(s, run), s.applied) && AtLeast(AfterAll(s, run).applied, s.applied)
  {
    hide AfterAll, AtLeast, BringsDefaults, Approved, DefaultsSuffice, Coherent;
    CoherentHolds(s);
    HoldsUpTo(s, run, s.applied, |run|);
    assert run[..|run|] == run;
  }

  // ----- single steps, from a coherent store

  /** A start keeps the protections in force exactly when it can load, or the defaults are as strong. */
  lemma StartKeepsExactly(s: Store, w: Weather)
    requires Coherent(s)
    ensures AtLeast(Restart(s, w).applied, s.applied)
       <==> Load(s, w).1.Some? || AtLeast(DEFAULT_SECURITY, Policy(s))
  {
    hide Load, On, DEFAULT_SECURITY;
    LoadKeepsPolicy(s, w);
  }

  /** Every later start that can load keeps the protections now in force. */
  ghost predicate StartsKeep(s: Store, b: Security) {
    forall w | Load(s, w).1.Some? :: AtLeast(Restart(s, w).applied, b)
  }

  /** Naming a device is harmless exactly when it does not create the Keychain item, or the defaults are as strong. */
  lemma NamingKeepsExactly(s: Store, labels: Labels, w: Weather)
    requires Coherent(s)
    ensures StartsKeep(SetLabels(s, labels, w), s.applied)
       <==> !BringsDefaults(s, Naming(labels, w)) || AtLeast(DEFAULT_SECURITY, Policy(s))
  {
    hide Load, Restart, AtLeast, On, DEFAULT_SECURITY;
    CoherentHolds(s);
    HoldsMeans(SetLabels(s, labels, w), s.applied);
    StepHoldsExactly(s, Naming(labels, w), s.applied);
    AtLeastReflexive(s.applied);
  }

  /** A change saved without approval survives every later start exactly when no older policy stays behind. */
  lemma ChangeKeepsExactly(s: Store, c: Change, o: Oracle)
    requires Coherent(s) && !o.approves && SetSettings(s, c, o).1.Some?
    ensures var s1 := SetSettings(s, c, o).0; StartsKeep(s1, s1.applied) <==> !LeavesOldPolicy(s, c, o)
  {
    hide Load, Restart, AtLeast, On, Weakens, ChangeSecurity, DEFAULT_SECURITY;
    var s1 := SetSettings(s, c, o).0;
    CoherentExactly(s, Set(c, o));
    HoldsMeans(s1, s1.applied);
    AtLeastReflexive(s1.applied);
    if LeavesOldPolicy(s, c, o) {
      LoadKeepsPolicy(s, o.load);
      UnapprovedChangeKeeps(c, Policy(s));
      if AtLeast(Policy(s), s1.applied) { AtLeastAntisymmetric(Policy(s), s1.applied); }
    } else {
      CoherentHolds(s1);
    }
  }

  // ----- what is lost in the exceptions

  lemma AfterTwo(s: Store, first: Step, second: Step)
    ensures AfterAll(s, [first, second][..1]) == After(s, first)
    ensures AfterAll(s, [first, second]) == After(After(s, first), second)
  {
    assert [first, second][..1] == [first] && [first][..0] == [];
  }

  /** A stricter setting that did not reach the Keychain is gone after a restart, without any approval. */
  lemma OldPolicyComesBack(s: Store, pin: PinSettings)
    requires Coherent(s) && s.file.Stored? && s.item.Valid? && !s.applied.pin.promptOnStartup
    requires pin == s.applied.pin.(promptOnStartup := true)
    ensures var run := [Set(Pin(pin), Oracle(FAIR, FAIR.(policyWrites := false), false)), Starting(FAIR)];
            && On(AfterAll(s, run[..1]).applied, StartupPrompt)
            && !On(AfterAll(s, run).applied, StartupPrompt)
  {
    AfterTwo(s, Set(Pin(pin), Oracle(FAIR, FAIR.(policyWrites := false), false)), Starting(FAIR));
    hide AfterAll;
  }

  /** Naming a device before the Keychain item exists loses at the next start what the defaults lack. */
  lemma NamingLoses(s: Store, labels: Labels, p: Protection)
    requires Coherent(s) && s.file.Stored? && s.item.Absent? && On(s.applied, p) && !On(DEFAULT_SECURITY, p)
    ensures var run := [Naming(labels, FAIR), Starting(FAIR)];
            AfterAll(s, run).applied == DEFAULT_SECURITY && !On(AfterAll(s, run).applied, p)
  {
    AfterTwo(s, Naming(labels, FAIR), Starting(FAIR));
    hide AfterAll, On, DEFAULT_SECURITY;
  }

  /** A start that cannot read the settings file loses at once what the defaults lack, until one can. */
  lemma FallingBackLoses(s: Store, p: Protection)
    requires Coherent(s) && On(s.applied, p) && !On(DEFAULT_SECURITY, p)
    ensures var run := [Starting(FAIR.(fileReads := false)), Starting(FAIR)];
            && AfterAll(s, run[..1]).applied == DEFAULT_SECURITY && !On(AfterAll(s, run[..1]).applied, p)
            && On(AfterAll(s, run).applied, p)
  {
    AfterTwo(s, Starting(FAIR.(fileReads := false)), Starting(FAIR));
    hide AfterAll, On, DEFAULT_SECURITY;
  }

  const STRICT := Security(5, PinSettings(true, true, true, true, true, true), TouchIdSettings(true, true))
  const STRICT_STORE := Store(Stored(Settings(false, false, 0, STRICT)), Absent, STRICT)

  /** Such a store has every protection on and no Keychain item yet. Both runs lose the startup prompt. */
  lemma StrictStoreLoses()
    ensures Coherent(STRICT_STORE) && On(STRICT_STORE.applied, StartupPrompt)
    ensures !On(AfterAll(STRICT_STORE, [Naming(map[], FAIR), Starting(FAIR)]).applied, StartupPrompt)
    ensures !On(AfterAll(STRICT_STORE, [Starting(FAIR.(fileReads := false))]).applied, StartupPrompt)
  {
    NamingLoses(STRICT_STORE, map[], StartupPrompt);
    FallingBackLoses(STRICT_STORE, StartupPrompt);
    assert [Starting(FAIR.(fileReads := false)), Starting(FAIR)][..1] == [Starting(FAIR.(fileReads := false))];
    hide AfterAll;
  }
}
