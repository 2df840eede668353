/** The signing gate does not refuse what it should grant: an authorised request reaches the hardware. */
module SigningProgress {
  import opened Common
  import opened State
  import opened Session
  import opened Machine
  import opened MachineInvariant
  import opened SigningSafety
  import opened Executions

  /** What the caller of `sign_request` needs: an unlocked agent, the key, and for FIDO2 its device's PIN. */
  predicate Signable(s: Shared, key: SshKey) {
    && !s.app.flags.agentLocked
    && Find(s.app.keys, EnabledBlob(key.publicBlob)) == Some(key)
    && key.backend != Tpm
    && (key.backend == Fido2 ==> key.devicePath.Some? && key.devicePath.value in s.pins)
  }

  /** The mutexes on the way to the hardware. */
  function Wanted(key: SshKey): set<Lock> {
    {if key.backend == Fido2 then FidoDevice else Enclave, SigningGate, PinCache, AppState}
  }

  /** No other thread holds a mutex on the way of thread `t`. */
  predicate Unhindered(others: map<Tid, Task>, t: Tid, key: SshKey) {
    t !in others && forall u | u in others :: Held(others[u]) !! Wanted(key)
  }

  function Credential(s: Shared, key: SshKey): Option<Pin> {
    if key.backend == Fido2 && key.devicePath.Some? && key.devicePath.value in s.pins
    then Some(s.pins[key.devicePath.value]) else None
  }

  /** The requested key is the first enabled one with its blob, so `authorize` finds it again. */
  lemma SignableIsAuthorized(s: Shared, key: SshKey)
    requires Signable(s, key)
    ensures Authorizes(s.app, key) && key in s.app.keys && key.enabled
  {
    assert EnabledBlob(key.publicBlob)(key);
  }

  /** The state once the request has found its key. */
  function Prepared(s: Shared, key: SshKey): Shared {
    if key.backend == Fido2 && key.devicePath.Some? then SignTarget(s, key.devicePath.value) else s
  }

  /** What is left of the steps behind the signing gate. */
  function LastSteps(t: Tid, key: SshKey): seq<Label> {
    (if key.backend == Fido2 then [Label(t, Sign(TakePins)), Label(t, Sign(ReadPin))] else [])
    + [Label(t, Sign(Authorize))]
  }

  function Steps(t: Tid, key: SshKey): seq<Label> {
    [Label(t, Sign(SignCheck(key.publicBlob))), Label(t, Sign(SignDate)), Label(t, Sign(SignPrepare)),
     Label(t, Sign(TakeDevice)), Label(t, Sign(TakeGate))]
    + LastSteps(t, key)
  }

  /** One step of an unhindered request. */
  lemma SignStep(s: Shared, others: map<Tid, Task>, t: Tid, key: SshKey, task: Option<Task>, a: SignAction)
    requires Unhindered(others, t, key) && SignFits(s, task, a)
    requires SignNeeds(task, a) <= Wanted(key) && SignNeeds(task, a) !! HeldBy(task)
    ensures Enabled(Sys(s, With(others, t, task)), Label(t, Sign(a)))
    ensures After(Sys(s, With(others, t, task)), Label(t, Sign(a)))
         == Sys(SignShared(s, task, a), With(others, t, SignTask(s, task, a)))
  {
    hide SignFits, SignNeeds, SignShared, SignTask, Held;
    StepBeside(s, others, t, task, Sign(a));
  }

  /** The request in its stage, beside the others. */
  function At(s: Shared, others: map<Tid, Task>, t: Tid, key: SshKey, generation: nat, stage: Stage): Sys {
    Sys(s, With(others, t, Some(Signing(key, generation, stage))))
  }

  /** The three steps of `sign_request` up to the key. */
  lemma FindsKey(s: Shared, others: map<Tid, Task>, t: Tid, key: SshKey)
    requires Signable(s, key) && Unhindered(others, t, key)
    ensures Leads(Sys(s, others), Steps(t, key)[..3], At(Prepared(s, key), others, t, key, s.generation, Waiting))
  {
    hide Find, Enabled, After, Leads, Unhindered;
    var blob := key.publicBlob;
    var dated := Some(SignDated(blob, s.generation));
    SignStep(s, others, t, key, None, SignCheck(blob));
    SignStep(s, others, t, key, Some(SignRequested(blob)), SignDate);
    SignStep(s, others, t, key, dated, SignPrepare);
    var a, b, c := Label(t, Sign(SignCheck(blob))), Label(t, Sign(SignDate)), Label(t, Sign(SignPrepare));
    var end := At(Prepared(s, key), others, t, key, s.generation, Waiting);
    LeadsOnce(Sys(s, With(others, t, dated)), c);
    LeadsFurther(Sys(s, With(others, t, Some(SignRequested(blob)))), [c], b, end);
    LeadsFurther(Sys(s, others), [b] + [c], a, end);
    assert Steps(t, key)[..3] == [a] + ([b] + [c]);
  }

  function PinOf(stage: Stage): Option<Pin> {
    if stage.PinRead? then Some(stage.pin) else None
  }

  lemma PassesCheck(s: Shared, others: map<Tid, Task>, t: Tid, key: SshKey, generation: nat, stage: Stage)
    requires Authorizes(s.app, key) && SignFits(s, Some(Signing(key, generation, stage)), Authorize)
    requires Unhindered(others, t, key)
    ensures Leads(At(s, others, t, key, generation, stage), [Label(t, Sign(Authorize))],
                  At(s, others, t, key, generation, Authorized(PinOf(stage))))
  {
    hide Enabled, After, Authorizes, Leads, Unhindered;
    SignStep(s, others, t, key, Some(Signing(key, generation, stage)), Authorize);
    LeadsOnce(At(s, others, t, key, generation, stage), Label(t, Sign(Authorize)));
  }

  lemma PassesPins(s: Shared, others: map<Tid, Task>, t: Tid, key: SshKey, generation: nat)
    requires Authorizes(s.app, key) && key.backend == Fido2 && key.devicePath.Some? && key.devicePath.value in s.pins
    requires Unhindered(others, t, key)
    ensures Leads(At(s, others, t, key, generation, AtGate), LastSteps(t, key),
                  At(s, others, t, key, generation, Authorized(Credential(s, key))))
  {
    hide Enabled, After, Authorizes, Leads, Unhindered;
    var pin := s.pins[key.devicePath.value];
    var end := At(s, others, t, key, generation, Authorized(Some(pin)));
    var pins, read, go := Label(t, Sign(TakePins)), Label(t, Sign(ReadPin)), Label(t, Sign(Authorize));
    SignStep(s, others, t, key, Some(Signing(key, generation, AtGate)), TakePins);
    SignStep(s, others, t, key, Some(Signing(key, generation, AtPins)), ReadPin);
    PassesCheck(s, others, t, key, generation, PinRead(pin));
    LeadsFurther(At(s, others, t, key, generation, AtPins), [go], read, end);
    LeadsFurther(At(s, others, t, key, generation, AtGate), [read] + [go], pins, end);
    assert LastSteps(t, key) == [pins] + ([read] + [go]);
  }

  /** From the key through every lock to the hardware call. */
  lemma PassesGate(s: Shared, others: map<Tid, Task>, t: Tid, key: SshKey, generation: nat)
    requires Authorizes(s.app, key) && key.backend != Tpm
    requires key.backend == Fido2 ==> key.devicePath.Some? && key.devicePath.value in s.pins
    requires Unhindered(others, t, key)
    ensures Leads(At(s, others, t, key, generation, Waiting), Steps(t, key)[3..],
                  At(s, others, t, key, generation, Authorized(Credential(s, key))))
  {
    hide Enabled, After, Authorizes, Leads, Unhindered;
    var end := At(s, others, t, key, generation, Authorized(Credential(s, key)));
    var device, gate := Label(t, Sign(TakeDevice)), Label(t, Sign(TakeGate));
    SignStep(s, others, t, key, Some(Signing(key, generation, Waiting)), TakeDevice);
    SignStep(s, others, t, key, Some(Signing(key, generation, OnDevice)), TakeGate);
    if key.backend == Fido2 {
      PassesPins(s, others, t, key, generation);
    } else {
      PassesCheck(s, others, t, key, generation, AtGate);
      assert LastSteps(t, key) == [Label(t, Sign(Authorize))];
    }
    LeadsFurther(At(s, others, t, key, generation, OnDevice), LastSteps(t, key), gate, end);
    LeadsFurther(At(s, others, t, key, generation, Waiting), [gate] + LastSteps(t, key), device, end);
    assert Steps(t, key)[3..] == [device] + ([gate] + LastSteps(t, key));
  }

  /**
   * Whatever the other threads are at, if none of them holds a mutex on its way, a request for a signable
   * key reaches the hardware call under all guards, with the cached PIN of the key's device: the checks
   * refuse nothing that they should let through.
   */
  lemma SignableReachesHardware(s: Shared, others: map<Tid, Task>, t: Tid, key: SshKey)
    requires Signable(s, key) && Unhindered(others, t, key)
    ensures var q := At(Prepared(s, key), others, t, key, s.generation, Authorized(Credential(s, key)));
            Leads(Sys(s, others), Steps(t, key), q) && InHardware(q, t, key, Credential(s, key))
  {
    hide Find, Enabled, After, Leads, Unhindered;
    SignableIsAuthorized(s, key);
    var p := Prepared(s, key);
    FindsKey(s, others, t, key);
    assert Authorizes(p.app, key) && p.pins == s.pins;
    PassesGate(p, others, t, key, s.generation);
    LeadsThrough(Sys(s, others), Steps(t, key)[..3], At(p, others, t, key, s.generation, Waiting),
                 Steps(t, key)[3..], At(p, others, t, key, s.generation, Authorized(Credential(p, key))));
    assert Steps(t, key) == Steps(t, key)[..3] + Steps(t, key)[3..];
  }
}
