# Verified model of Keynoxis

Keynoxis is an SSH agent whose keys live in FIDO2 security keys and in the Secure Enclave. This project models its
shared session state with all the threads that touch it, its agent protocol, its encodings and its settings, and
proves what the program is for.

**The session.** `session.dfy` gives every critical section of the handlers as a function on the shared state;
`runtime.dfy` is the class whose methods perform the sections field by field and are proved to agree with them.
`machine.dfy` interleaves the threads: agent connections, the device scanner, the auto-lock timer, the lifecycle
thread and the commands. A step is one critical section, one mutex taken, or one answer of the hardware. Mutexes are
held across steps, as the guards are in the source: a signature keeps `fido` (or `secure_enclave`), `signing_gate`,
`pins` and `app` during the hardware call. The theorems speak of every run from start-up: `signing_safety.dfy`
(no signature without authority, and with which PIN), `key_switch.dfy` (none with a key that is switched off),
`signing_progress.dfy` (nothing is refused without reason), `session_consistency.dfy`, `session_races.dfy` and
`stranded_keys.dfy` (exactly when cache, unlocked paths and loaded keys come apart), `dismissal.dfy`,
`device_watcher.dfy` and `unlock_sequence.dfy`. What each request, operation, scan and lock promises by itself is in
`request_results.dfy`, `operation_results.dfy`, `scan_results.dfy` and `lock_results.dfy`. `executions.dfy` and `witness_runs.dfy` build runs that show what can
happen. The inductive invariant behind the theorems is in `session_invariants.dfy` and `machine_invariant.dfy`.

**The protocol.** `wire.dfy`, `framing.dfy`, `connection.dfy`, `identities.dfy`, `server.dfy` and `serving.dfy` follow
draft-miller-ssh-agent and the session-bind extension of OpenSSH's PROTOCOL.agent: from bytes on the socket to bytes
on the socket, over any sequence of requests. `agent_runs.dfy` puts them on top of the session machine.

**The rest.** `der.dfy` (X.690, RFC 4251, RFC 5656), `credentials.dfy` (OpenSSH's PROTOCOL.u2f), `ssh_config.dfy`,
`lifecycle.dfy` and `settings.dfy`. `common.dfy` and `state.dfy` hold the shared datatypes and list operations.

What the outside answers is a parameter: hardware, Keychain, files and Touch ID (arguments of actions, `Weather` and
`Oracle` in the settings), signature and key verification (`Verifier`), the state that one request of a connection
meets (`Moment`), and UTF-8 and lower-casing (`Text`). Lengths that the source casts with `as u32` are taken modulo
2^32; the round trips ask for lengths below that.

Where the code promises less than one might expect, the exact condition is proved, with a run or an input that
shows the failure:

- a cached PIN does not always mean an unlocked path (`SessionRaces`), and a loaded FIDO2 key does not always mean an
  unlocked device (`StrandedKeys`); `WitnessRuns` has a run from start-up for each;
- a dismissal is lost when it arrives after the thread of the signature has looked for one (`Dismissal`, with a run in
  `WitnessRuns`);
- migration of the ssh_config is idempotent exactly without a kept line that ends in a carriage return (`SshConfig`);
- bytes behind s inside a DER SEQUENCE are ignored (`Der`);
- the settings can lose a protection without approval (`Settings`). From a store whose copies agree, a single step does
  so in exactly three ways: a start that cannot load falls back to weaker defaults; naming a device while no Keychain
  item exists yet writes an item with weaker defaults, which the next start prefers to the file; a change that did not
  reach the Keychain is undone by the next start that reads the older item. Over whole runs, only the first two can take
  away what was on when the run began.

`dafny verify dfyconfig.toml` checks the project.

## Model

| member | source | states |
|---|---|---|
| Runtime.RuntimeState.constructor | src-tauri/src/state/mod.rs:244-271 | the start-up state: no device, empty PIN cache, the stored Secure Enclave keys |
| Runtime.RuntimeState.LockSessionPins | src-tauri/src/settings.rs:472-477 | first critical section of `lock_fido_session`: empties the PIN cache and reports whether it held anything |
| Runtime.RuntimeState.LockSessionApp | src-tauri/src/settings.rs:478-498 | second critical section: exactly the state of `Session.LockApp`, with the system notice only for a session that was protected |
| Runtime.RuntimeState.CommitAgentLock | src-tauri/src/settings.rs:540-547 | sets the agent lock and nothing else |
| Runtime.RuntimeState.ClearRequests | src-tauri/src/lifecycle.rs:79-85 | a new system condition forgets every pending request and the error |
| Runtime.RuntimeState.Recover | src-tauri/src/lifecycle.rs:151-171 | recovery asks for the first FIDO2 device when the session is locked, otherwise settles |
| Runtime.RuntimeState.SwitchKey | src-tauri/src/ipc/commands.rs:31-41 | switches the first key with the fingerprint, or answers an error and changes nothing |
| Runtime.RuntimeState.StartUnlock | src-tauri/src/ipc/commands.rs:142-170 | `request_unlock` on every path, including the error exit after the state was cleared |
| Runtime.RuntimeState.StartDeviceUnlock | src-tauri/src/ipc/commands.rs:185-216 | `request_device_unlock`: unloads one device and targets it |
| Runtime.RuntimeState.LabelDevice | src-tauri/src/ipc/commands.rs:230-258 | the new label is in every device with the path and in the active one, or nothing changes |
| Runtime.RuntimeState.ForgetRequest | src-tauri/src/ipc/commands.rs:286-312 | first half of `dismiss_auth`: the request, and the session it was discarding, are gone |
| Runtime.RuntimeState.DismissPrompt | src-tauri/src/ipc/commands.rs:285-327 | `dismiss_auth` as a whole |
| Runtime.RuntimeState.StartCreation | src-tauri/src/ipc/commands.rs:675-752 | `request_fido_key_creation` with its five refusals; two of them leave the chosen device selected |
| Runtime.RuntimeState.StartDeletion | src-tauri/src/ipc/commands.rs:766-816 | `request_fido_key_deletion`; a refusal for a missing device deselects the device |
| Runtime.RuntimeState.AskRenamePin | src-tauri/src/ipc/commands.rs:863-890 | the branch of `rename_key` that ends the device session and asks for its PIN |
| Runtime.RuntimeState.BeginFido | src-tauri/src/ipc/commands.rs:385-433 | begin half of `perform_fido_operation`: refusals, phase, and what is taken along |
| Runtime.RuntimeState.FinishFido | src-tauri/src/ipc/commands.rs:490-548 | successful finish: PIN cached, keys replaced, next locked device targeted |
| Runtime.RuntimeState.FailFido | src-tauri/src/ipc/commands.rs:596-619 | failed finish: session of the device dropped; which requests survive which error |
| Runtime.RuntimeState.Prune | src-tauri/src/device/watcher.rs:35-51 | a scan drops PINs, unlocked paths and keys of devices that are gone, and only those |
| Runtime.RuntimeState.Adopt | src-tauri/src/device/watcher.rs:95-106 | a scan records devices, active device and the session flag |
| Runtime.RuntimeState.Announce | src-tauri/src/device/watcher.rs:107-159 | the phase a scan ends in, and when it starts an unlock sequence |
| Runtime.RuntimeState.ApplyScan | src-tauri/src/device/watcher.rs:26-159 | a whole successful scan under the `app` mutex |
| Runtime.RuntimeState.Authorize | src-tauri/src/provider/mod.rs:70-88 | `authorize` by a loop: unlocked, and an enabled key with equal fingerprint, blob and backend exists |
| Runtime.RuntimeState.TargetDevice | src-tauri/src/agent/server.rs:231-254 | a sign request targets its device and asks for touch or PIN |
| Runtime.RuntimeState.EndSignature | src-tauri/src/agent/server.rs:294-324 | phase and error after a signature attempt |
| Runtime.RuntimeState.Reload | src-tauri/src/lib.rs:254-265 | the tray entry asks for the PIN while a device is connected |
| Runtime.RuntimeState.HandleRequest | src-tauri/src/lib.rs:322-346 | every command that is one section makes exactly the step of the session machine, and keeps shape and cache whatever it answers |
| RequestResults.CreationAccepted | src-tauri/src/ipc/commands.rs:664-720 | a creation is accepted exactly for one of the two algorithms, a connected target that supports it, and a name no FIDO2 key has |
| RequestResults.CreationPrompts | src-tauri/src/ipc/commands.rs:721-752 | an accepted creation waits with the name, algorithm and device asked for; it uses the session exactly when the setting is off and the PIN is cached, and otherwise ends the session of that device and asks for the PIN |
| RequestResults.CreationNeedsPin | src-tauri/src/ipc/commands.rs:725-751 | in every run, with the setting on an accepted creation leaves no PIN of its device cached |
| RequestResults.CreationRefused | src-tauri/src/ipc/commands.rs:675-720 | a refused creation changes nothing but which device is selected |
| RequestResults.DeletionAccepted | src-tauri/src/ipc/commands.rs:766-788 | a deletion is accepted exactly for a FIDO2 key whose device is connected |
| RequestResults.DeletionPrompts | src-tauri/src/ipc/commands.rs:790-816 | an accepted deletion waits for its key on its device, with the same rule for the session; keys stay listed |
| RequestResults.DeletionRefused | src-tauri/src/ipc/commands.rs:766-788 | a refused deletion changes nothing, or deselects the device |
| RequestResults.RenameAsksExactly | src-tauri/src/ipc/commands.rs:849-862 | a rename asks for a PIN exactly for a FIDO2 key when the setting is on or no PIN is cached |
| RequestResults.RenamePrompts | src-tauri/src/ipc/commands.rs:863-890 | the rename prompt is accepted exactly with the device connected, and what it leaves |
| RequestResults.RenameEnds | src-tauri/src/ipc/commands.rs:938-970 | the end of a rename puts the new entry in the place of the old one, or shows the error |
| RequestResults.UnlockAccepted | src-tauri/src/ipc/commands.rs:142-159 | an unlock is accepted exactly when a FIDO2 device is connected |
| RequestResults.UnlockPrompts | src-tauri/src/ipc/commands.rs:146-170 | it turns to a FIDO2 device that is not unlocked, in sequence; only if all were unlocked the session ends first |
| RequestResults.UnlockRefused | src-tauri/src/ipc/commands.rs:142-159 | a refused unlock changes nothing, but has ended the session when only other devices are connected |
| RequestResults.DeviceUnlockPrompts | src-tauri/src/ipc/commands.rs:185-216 | unlocking one device targets the path asked for, and reloads it and only it |
| RequestResults.DismissalEnds | src-tauri/src/ipc/commands.rs:285-327 | a dismissal forgets every request, and which phase it ends in |
| RequestResults.DismissalEndsSession | src-tauri/src/ipc/commands.rs:299-312 | only the dismissal of a deletion or rename ends a session, that of the selected device |
| RequestResults.SwitchSets | src-tauri/src/ipc/commands.rs:31-41 | switching sets the first entry with the fingerprint to what was asked, and nothing else |
| RequestResults.SwitchRefused | src-tauri/src/ipc/commands.rs:31-41 | a fingerprint that is not listed is refused, and nothing changes |
| RequestResults.ToggleEnds | src-tauri/src/ipc/commands.rs:25-41 | a switch takes effect exactly when its preference was saved |
| RequestResults.SwitchedOnIsListed | src-tauri/src/ipc/commands.rs:31-41 | a listed key that is switched on has an enabled entry at its place |
| RequestResults.LabelSets | src-tauri/src/ipc/commands.rs:230-258 | a label is set exactly when the device is connected and the store took it, on every entry of the path |
| RequestResults.ReloadPrompts | src-tauri/src/lib.rs:254-265 | the tray entry asks for the PIN exactly while a device is connected |
| OperationResults.BeginTakesAlong | src-tauri/src/ipc/commands.rs:385-433 | an operation begins exactly with a target and the pending key still listed, and takes along device, name, algorithm and that key |
| OperationResults.FailedEnd | src-tauri/src/ipc/commands.rs:596-619 | a wrong PIN leaves every request, the target and the prompt; another error drops a creation, and a deletion or rename it was not about |
| OperationResults.WrongPinRetries | src-tauri/src/ipc/commands.rs:385-433 | after a wrong PIN the next PIN begins the very same operation as long as target, keys and requests stay |
| OperationResults.SucceededEnd | src-tauri/src/ipc/commands.rs:490-548 | the end of a successful operation: PIN cached, requests done, the next locked device or Ready |
| ScanResults.ScanLeavesFound | src-tauri/src/device/watcher.rs:31-106 | after a scan exactly the keys, paths and PINs of the found devices are left, keys and paths in order, PINs with their value |
| ScanResults.ScanStepLeavesFound | src-tauri/src/device/watcher.rs:26-159 | the same for every step in which the scanner thread ends a scan |
| ScanResults.RescanLosesNothing | src-tauri/src/device/watcher.rs:31-106 | seeing the same devices again unloads nothing, forgets no PIN and locks nothing |
| ScanResults.FailedScan | src-tauri/src/device/watcher.rs:119-132 | a failed scan changes nothing while a device is connected, and else shows its error |
| ScanResults.ScanSettles | src-tauri/src/device/watcher.rs:107-159 | with nothing in progress, the phase after a scan follows from devices, keys and the prompt rule |
| ScanResults.ScanTurnsTo | src-tauri/src/device/watcher.rs:61-99 | a scan turns to a new FIDO2 device, else stays, else to a locked one, else to any |
| ScanResults.InitialScanIsFirst | src-tauri/src/device/watcher.rs:12-22 | exactly the first scan of a run is the initial one, which the start-up setting governs |
| LockResults.LockLeaves | src-tauri/src/settings.rs:478-498 | after the second half of a lock no FIDO2 key and no unlocked path is left; the notice appears exactly for a system condition that ended a protected session |
| LockResults.FirstHalfRemembers | src-tauri/src/settings.rs:472-477 | the first half empties the cache and its thread remembers whether it held anything |
| LockResults.LockHasReason | src-tauri/src/settings.rs:578-590 | a session lock is for inactivity or for the condition its thread recorded |
| LockResults.RecoveryAsks | src-tauri/src/lifecycle.rs:151-171 | what a recovery asks for, by the setting; the session itself is not touched |
| LockResults.RecoveryFailureShows | src-tauri/src/lifecycle.rs:182-189 | a failed recovery stops the agent and shows why |
| LockResults.DeactivationForgets | src-tauri/src/lifecycle.rs:79-85 | a first system condition forgets requests and error and nothing of the session |
| LockResults.SignTurnsTo | src-tauri/src/agent/server.rs:231-254 | a sign request turns to the device of its key and waits for a touch exactly if its PIN is cached |
| LockResults.EnclaveCreationAdds | src-tauri/src/ipc/commands.rs:1080-1084 | a created Secure Enclave key is listed last |
| LockResults.EnclaveDeletionLeaves | src-tauri/src/ipc/commands.rs:1036-1041 | a deleted one is gone and all others stay in order |
| SessionInvariants.LockAppKeeps | src-tauri/src/settings.rs:478-498 | the lock keeps the shape, leaves other keys alone, and afterwards every unlocked path is cached |
| SessionInvariants.RequestUnlockKeeps | src-tauri/src/ipc/commands.rs:138-177 | every exit of `request_unlock` keeps shape, cache and the other keys |
| SessionInvariants.RequestDeviceUnlockKeeps | src-tauri/src/ipc/commands.rs:180-221 | the same for one device |
| SessionInvariants.SetSecurityKeyLabelKeeps | src-tauri/src/ipc/commands.rs:224-278 | relabelling keeps the active device among the devices, label included, and all paths |
| SessionInvariants.DismissKeeps | src-tauri/src/ipc/commands.rs:281-333 | dismissal keeps shape, cache and the other keys |
| SessionInvariants.RequestCreationKeeps | src-tauri/src/ipc/commands.rs:657-758 | a creation request on every path keeps shape, cache and the other keys |
| SessionInvariants.RequestDeletionKeeps | src-tauri/src/ipc/commands.rs:761-822 | a deletion request keeps shape and cache and no key is removed yet |
| SessionInvariants.RenamePromptKeeps | src-tauri/src/ipc/commands.rs:849-890 | the PIN prompt of a rename keeps shape and cache and all keys |
| SessionInvariants.RenameFinishKeeps | src-tauri/src/ipc/commands.rs:938-970 | the end of a rename keeps the shape |
| SessionInvariants.FinishReplacesDeviceKeys | src-tauri/src/ipc/commands.rs:497-501 | a successful operation replaces exactly the keys of its device |
| SessionInvariants.FinishSucceededKeeps | src-tauri/src/ipc/commands.rs:490-548 | a successful finish keeps the shape and adds no duplicate path |
| SessionInvariants.FinishFailedKeeps | src-tauri/src/ipc/commands.rs:596-619 | a failed finish keeps the shape and unloads no key |
| SessionInvariants.ScanKeeps | src-tauri/src/device/watcher.rs:30-159 | a scan, successful or not, keeps shape, cache and the other keys |
| MachineInvariant.ExclusiveKept | src-tauri/src/provider/mod.rs:21-58 | no step lets a mutex be held by two threads |
| MachineInvariant.StepGuarded | src-tauri/src/state/mod.rs:218-242 | `app` and `pins` change only in a step that has their mutex |
| MachineInvariant.StepCalm | src-tauri/src/ipc/commands.rs:490-496 | agent lock, PIN cache and device paths change only in the steps that may change them |
| MachineInvariant.InvariantStep | src-tauri/src/ipc/commands.rs:138-975 | every step of every thread keeps the whole invariant |
| MachineInvariant.InvariantAlways | src-tauri/src/state/mod.rs:168-242 | the invariant holds in every state of every run |
| SigningSafety.SignatureAuthorized | src-tauri/src/provider/mod.rs:14-88 | while a hardware signature is made, in any interleaving, the agent is unlocked and an equal enabled key is present; a FIDO2 one uses the PIN now cached |
| SigningSafety.HardwareFreezesState | src-tauri/src/provider/mod.rs:40-68 | during the hardware call no other thread changes the application state, nor the PIN cache for FIDO2 |
| SigningSafety.LockedUntilUnlocked | src-tauri/src/settings.rs:528-547 | a locked agent stays locked until an unlock commits |
| SigningSafety.NoSignatureWhileLocked | src-tauri/src/settings.rs:528-547 | no hardware signature between the commit of a lock and the next commit of an unlock |
| SigningSafety.PinOrigin | src-tauri/src/ipc/commands.rs:490-509 | every cached PIN is that of the latest successful operation on its path, never removed since |
| SigningSafety.PinProvenance | src-tauri/src/provider/mod.rs:45-59 | a FIDO2 signature uses exactly that PIN |
| SigningSafety.LockEndsSession | src-tauri/src/settings.rs:472-477 | after the PIN half of a lock a FIDO2 signature needs a newer successful operation |
| SigningSafety.NoSignatureDuringSwitch | src-tauri/src/settings.rs:528-547 | from the first to the last step of a lock, an unlock or the switching of a key no hardware signature is being made |
| SigningSafety.LockEndsSessionFirst | src-tauri/src/settings.rs:537-547 | in every run the agent lock commits only after its thread emptied the PIN cache and then ended the session |
| SigningProgress.SignableIsAuthorized | src-tauri/src/provider/mod.rs:70-88 | the key a request finds passes `authorize` while nothing changes |
| SigningProgress.SignableReachesHardware | src-tauri/src/agent/server.rs:195-264 | a request for a signable key reaches the hardware call with the cached PIN, whatever other threads are at, if none of them holds a mutex on its way |
| KeySwitch.SwitchOffExactly | src-tauri/src/ipc/commands.rs:31-41 | after switching a key off it can sign exactly if another enabled entry of it stands behind the first |
| KeySwitch.OnlyTheseSwitchOn | src-tauri/src/ipc/commands.rs:18-59 | only a switch-on, or the end of an operation, rename or creation with an enabled entry of the key, lets it sign again |
| KeySwitch.NoSignatureWhileOff | src-tauri/src/provider/mod.rs:70-88 | in every run a key without an enabled entry signs only after one of these steps |
| Dismissal.GenerationCounts | src-tauri/src/lifecycle.rs:76-78 | the generation counts exactly the dismissals, by the user and by system conditions, in every step |
| Dismissal.GenerationTells | src-tauri/src/agent/server.rs:307 | the generation is the same at two points of a run exactly when nothing was dismissed in between |
| Dismissal.KeepsDate | src-tauri/src/agent/server.rs:230 | a request keeps the generation it was dated with until it ends |
| Dismissal.ErrorShownExactly | src-tauri/src/agent/server.rs:307-324 | a failed signature shows its error if and only if nothing was dismissed from the date of its request until its thread looked for that |
| Dismissal.DismissedSignatureIsQuiet | src-tauri/src/agent/server.rs:307-324 | a signature dismissed after its request was dated ends without error, whatever the hardware answers |
| Dismissal.FailureIsShown | src-tauri/src/agent/server.rs:307-324 | with no dismissal since the date a failure shows its error, or asks for the missing PIN |
| WitnessRuns.SigningRun | src-tauri/src/provider/mod.rs:40-68 | a run from start-up in which a FIDO2 key signs with the PIN that unlocked its device |
| WitnessRuns.DismissalTooLate | src-tauri/src/agent/server.rs:307-324 | a run in which the prompt is dismissed between the look and the end, and the error is shown after all |
| SessionConsistency.AlwaysConsistent | src-tauri/src/state/mod.rs:168-192 | in every reachable state: no duplicate unlocked path, the session flag implies all FIDO2 devices unlocked, the active device is a connected one, FIDO2 keys have paths |
| SessionConsistency.OneRequestPending | src-tauri/src/ipc/commands.rs:721-724 | at most one pending request, an algorithm exactly with a creation |
| SessionConsistency.UnlockedMeansCached | src-tauri/src/settings.rs:472-498 | outside the halves of a lock every unlocked path has a cached PIN |
| SessionConsistency.UnlockedSessionIsComplete | src-tauri/src/ipc/commands.rs:543-547 | the session flag then means a cached PIN for every connected FIDO2 device |
| SessionConsistency.OtherKeysUntouched | src-tauri/src/ipc/commands.rs:497-501 | locks, unlocks, scans, dismissals and FIDO2 operations leave the list of other keys as it was |
| SessionConsistency.OperationReplacesItsKeys | src-tauri/src/ipc/commands.rs:491-501 | in every run an operation replaces exactly the keys of its device, and a failed one none |
| SessionRaces.PinsUnlockedExactly | src-tauri/src/settings.rs:472-498 | a step leaves a PIN behind for a locked path exactly when it is the second half of a lock and the cache is not empty |
| SessionRaces.CachedMeansUnlocked | src-tauri/src/settings.rs:472-498 | up to the first such step of a run, only unlocked paths have cached PINs |
| SessionRaces.OvertakenByOperation | src-tauri/src/ipc/commands.rs:493-509 | a PIN in the cache after the first half of a lock came from an operation that ended after it |
| SessionRaces.FinishOvertakesLock | src-tauri/src/settings.rs:472-498 | from every state behind the first half of a lock with a finished operation and free mutexes, both steps can be made, and a PIN of a locked path stays behind |
| WitnessRuns.OvertakenRun | src-tauri/src/settings.rs:472-498 | a run from start-up in which an operation ends between the halves |
| StrandedKeys.KeysUnlockedExactly | src-tauri/src/ipc/commands.rs:790-815 | a step leaves a loaded key on a locked device exactly when it is an accepted deletion request without session, a rename prompt or a failed operation on a device with listed keys, or the end of a rename whose device was locked |
| StrandedKeys.DeletionKeys | src-tauri/src/ipc/commands.rs:790-815 | for deletion requests: exactly when accepted without using the session |
| StrandedKeys.RenamePromptKeys | src-tauri/src/ipc/commands.rs:863-890 | for rename prompts: exactly when accepted while a key of the path is listed |
| StrandedKeys.FinishFailedKeys | src-tauri/src/ipc/commands.rs:596-609 | for failed operations: exactly when a key of the path is listed |
| StrandedKeys.RenameFinishKeys | src-tauri/src/ipc/commands.rs:938-970 | for the end of a rename: exactly when its key is put back and its device is not unlocked |
| StrandedKeys.LoadedMeansUnlocked | src-tauri/src/state/mod.rs:168-192 | up to the first such step of a run a loaded FIDO2 key means an unlocked device, and that step ends it |
| WitnessRuns.StrandingRun | src-tauri/src/ipc/commands.rs:790-815 | a run from start-up in which a deletion request does so |
| DeviceWatcher.ScanKeepsTarget | src-tauri/src/device/watcher.rs:56-94 | one scan during an operation keeps target, phase, error and requests |
| DeviceWatcher.ScansKeepTarget | src-tauri/src/device/watcher.rs:52-116 | the same for any number of scans, successful or failed, while the device stays connected |
| DeviceWatcher.ScanPromptsExactly | src-tauri/src/device/watcher.rs:107-159 | a scan starts a PIN prompt if and only if nothing is in progress, a new FIDO2 device appeared, no condition is outstanding and the setting is on |
| DeviceWatcher.ScanPromptsInRuns | src-tauri/src/device/watcher.rs:10-159 | the same in every run, with the sequence flag set and a newly connected FIDO2 device targeted, although the scanner looks at the devices before it asks the hardware |
| UnlockSequence.RightPinAdvances | src-tauri/src/ipc/commands.rs:502-548 | a right PIN takes exactly its device off the locked ones; the last completes the sequence |
| UnlockSequence.WrongPinUnderWay | src-tauri/src/ipc/commands.rs:596-609 | a wrong PIN leaves the sequence at the same device |
| UnlockSequence.RescanUnderWay | src-tauri/src/device/watcher.rs:52-116 | a scan of the same devices leaves it there too |
| UnlockSequence.SequentialUnlock | src-tauri/src/ipc/commands.rs:138-177 | with any number of wrong PINs and scans, each success unlocks one more device and the last one completes: Ready, sequence over, all unlocked |
| UnlockSequence.NeverStuck | src-tauri/src/ipc/commands.rs:512-537 | there is always a PIN to enter or an answer to wait for |
| Wire.StrAt | src-tauri/src/agent/server.rs:394-397 | a length-prefixed string is read back from wherever it stands, with what follows it |
| Wire.StrRead | src-tauri/src/agent/server.rs:429-437 | whatever was read as a string stands there as it is written |
| Wire.StrUnique | src-tauri/src/agent/server.rs:394-397 | two strings at the same place are equal, and so is what follows |
| Wire.StrShape | src-tauri/src/agent/server.rs:394-397 | four bytes of length, then the value |
| Wire.Reader.U32 | src-tauri/src/agent/server.rs:409-418 | reads a big-endian integer and advances, or fails and stays |
| Wire.Reader.Byte | src-tauri/src/agent/server.rs:420-427 | reads one byte and advances, or fails and stays |
| Wire.Reader.String | src-tauri/src/agent/server.rs:429-437 | reads a string; a missing body leaves the cursor behind the length |
| Wire.Reader.IsEmpty | src-tauri/src/agent/server.rs:439-441 | whether all bytes were read |
| Connection.ConnectionContext.HandleExtension | src-tauri/src/agent/server.rs:85-134 | `extension`: context and answer of every request, complete, malformed, repeated or conflicting |
| Connection.ConnectionContext.Consult | src-tauri/src/agent/server.rs:109-120 | the loop over the recorded bindings |
| Connection.ReadPayload | src-tauri/src/agent/server.rs:86-99 | reads a payload with the cursor, error by error |
| Connection.BindExactly | src-tauri/src/agent/server.rs:86-99 | a payload is read as a bind request exactly when it is that request byte for byte |
| Connection.JudgeFresh | src-tauri/src/agent/server.rs:109-120 | a request adds a binding only if all others forward and none has its session id |
| Connection.BindSucceedsExactly | src-tauri/src/agent/server.rs:92-133 | an attempt succeeds exactly when it proves its session and repeats a forwarding binding or adds one, and adds the binding it names |
| Connection.ExtensionKeepsShape | src-tauri/src/agent/server.rs:85-134 | one request keeps the shape of the bindings |
| Connection.ShapeAlways | src-tauri/src/agent/server.rs:85-134 | after any history: at most 16 bindings, distinct verified session ids of 1 to 128 bytes, all but the last forwarding, and `forwarded` iff one forwards |
| Connection.BindingsGrow | src-tauri/src/agent/server.rs:109-130 | the list only grows, and is final once a binding does not forward |
| Connection.FlagMeansLastAttemptFailed | src-tauri/src/agent/server.rs:90-133 | `binding_failed` says exactly that the most recent attempt of the history failed |
| Connection.GateExactly | src-tauri/src/agent/server.rs:210-228 | signing is possible exactly if binding was never attempted, or the last attempt recorded the only binding, verified and not forwarding |
| Connection.SecondAttemptCloses | src-tauri/src/agent/server.rs:109-112 | a bound connection that may sign refuses a further binding and may not sign afterwards |
| Identities.AnswerIdentities | src-tauri/src/agent/server.rs:145-180 | `identities`: the reply for the offered keys in order, empty while locked |
| Identities.FindKey | src-tauri/src/agent/server.rs:353-360 | `find_key`: the first enabled key with the blob |
| Identities.SortKeysStable | src-tauri/src/agent/server.rs:156-166 | sorted by preferred backend, then lower-case comment; a permutation; equal keys keep their order |
| Identities.StableSortUnique | src-tauri/src/agent/server.rs:156-166 | there is only one such order, so the library sort cannot give another |
| Identities.PreferredFirst | src-tauri/src/agent/server.rs:182-187 | with 0 every Secure Enclave key, with 1 every FIDO2 key is listed before all others |
| Identities.CommentsInOrder | src-tauri/src/agent/server.rs:156-166 | within the preferred keys and within the others the lower-case comments are in order |
| Identities.BytesLeqMeans | src-tauri/src/agent/server.rs:160-164 | that order is the one of texts: a prefix first, else the first byte that differs |
| Identities.ListedAt | src-tauri/src/agent/server.rs:169-178 | the entry at each place is the blob and comment of the key there, or the fallback |
| Identities.ReplyRoundTrip | src-tauri/src/agent/server.rs:167-178 | a reply is read back entry for entry, to its last byte |
| Identities.ReplyInjective | src-tauri/src/agent/server.rs:167-178 | no two lists of entries have the same reply |
| Identities.AnswerMeaning | src-tauri/src/agent/server.rs:145-180 | what a client reads is the stable-sorted enabled keys |
| Identities.ListedExactlySignable | src-tauri/src/agent/server.rs:353-360 | the listed blobs are exactly those a sign request finds a key for |
| Framing.Stream.ReadMessage | src-tauri/src/agent/server.rs:362-385 | `read_message`: a request, the end of the stream, or an error, for every input |
| Framing.Stream.WriteMessage | src-tauri/src/agent/server.rs:387-392 | `write_message`: the whole frame, or what fitted before the write failed |
| Framing.FramesRoundTrip | src-tauri/src/agent/server.rs:362-392 | a concatenation of frames is decoded into exactly its messages, whatever follows |
| Framing.DecodeIsPrefix | src-tauri/src/agent/server.rs:362-385 | what is decoded are frames at the start of the input, of 1 to 2^20 bytes |
| Framing.DecodeStops | src-tauri/src/agent/server.rs:362-385 | decoding goes on as long as there is a frame, and ends in order exactly at a closed connection with less than a length left |
| Framing.FrameIsString | src-tauri/src/agent/server.rs:387-392 | a frame is laid out like any other string |
| Server.ReadSign | src-tauri/src/agent/server.rs:203-209 | reads a sign request: blob, data, ignored flags, nothing more |
| Server.SignExactly | src-tauri/src/agent/server.rs:203-209 | a request is read as this blob and this data exactly when it is them, written in this order, with four bytes of flags |
| Server.SignRequest | src-tauri/src/agent/server.rs:189-264 | the checks of `sign_request` in order, and its reply |
| Server.WriteSignature | src-tauri/src/agent/server.rs:339-351 | `signature_response` byte by byte |
| Server.Handle | src-tauri/src/agent/server.rs:71-83 | one request, also an empty one: its reply and the context it leaves |
| Server.Serve | src-tauri/src/agent/server.rs:43-69 | the loop sends exactly the stream of all replies, cut only where a write fails, and ends in order exactly when nothing failed |
| Server.RepliesPrefix | src-tauri/src/agent/server.rs:59-68 | earlier replies do not depend on later requests |
| Serving.OneReplyPerRequest | src-tauri/src/agent/server.rs:59-68 | framed requests in, one framed reply each out, in order, which a client can take apart |
| Serving.RepliesFit | src-tauri/src/agent/server.rs:71-83 | each reply is not empty and starts with 5, 6, 12 or 14 as its request type allows |
| Serving.ContextFollowsExtensions | src-tauri/src/agent/server.rs:71-83 | the connection context depends on the extension requests alone |
| Serving.SignedExactly | src-tauri/src/agent/server.rs:189-264 | a signature leaves the connection if and only if it was asked for, the agent was unlocked, the binding history allows it and the hardware signed with the enabled key of that blob |
| Serving.WrittenRequestAnswered | src-tauri/src/agent/server.rs:189-264 | a written request gets the hardware's signature over just its data with just the first enabled key of its blob, exactly when unlocked, bound and signed; else the failure message |
| Serving.WrittenRequestReadBack | src-tauri/src/agent/server.rs:339-351 | and the client reads back that key's algorithm, that signature and its fields |
| Serving.OtherSignRequestsFail | src-tauri/src/agent/server.rs:203-233 | any other sign request fails |
| Serving.IdentitiesAnswered | src-tauri/src/agent/server.rs:145-180 | an unlocked agent lists the enabled keys in their only stable order |
| Serving.BindAnswered | src-tauri/src/agent/server.rs:85-134 | a session-bind request of a connection is answered with success exactly when it proves its session and repeats or adds a binding |
| Serving.LockedAnswers | src-tauri/src/agent/server.rs:147-149 | a locked agent lists nothing and signs nothing |
| Serving.SignatureReadBack | src-tauri/src/agent/server.rs:339-351 | a client reads back algorithm, signature and provider fields |
| AgentRuns.SuccessCameFromHardware | src-tauri/src/provider/mod.rs:40-68 | in every run a request comes back with success only out of the hardware call of its own thread |
| AgentRuns.ResponseMeansHardware | src-tauri/src/agent/server.rs:264-336 | a sign response leaves a connection only if its thread made a hardware signature with the key of that blob, unlocked and enabled at that moment |
| Der.PutMpint | src-tauri/src/ssh.rs:78-90 | appends the mpint of the unsigned value of the bytes |
| Der.ReadLength | src-tauri/src/ssh.rs:60-76 | `read_der_len` with its loop, for every input |
| Der.LengthsBigEndian | src-tauri/src/ssh.rs:47-50 | lengths on the wire are big-endian unsigned numbers |
| Der.DerEcdsaToSsh | src-tauri/src/ssh.rs:26-45 | `der_ecdsa_to_ssh`, never out of bounds |
| Der.MpintCanonical | src-tauri/src/ssh.rs:78-90 | the mpint body of a number is the one canonical body with its value |
| Der.ConvertExactly | src-tauri/src/ssh.rs:26-90 | accepted are exactly SEQUENCEs that begin with two INTEGERs; the output is the mpints of their unsigned values, r first |
| Der.EncodedConverts | src-tauri/src/ssh.rs:26-45 | for all r and s whose SEQUENCE body fits two length bytes, the DER encoding converts to mpint(r) then mpint(s) |
| Der.MpintsInjective | src-tauri/src/ssh.rs:41-44 | different r or s give different output |
| Der.ExtraIgnored | src-tauri/src/ssh.rs:38-44 | bytes behind s inside the SEQUENCE do not matter |
| Der.ExtraAccepted | src-tauri/src/ssh.rs:38-44 | a concrete input with such a byte is accepted |
| Credentials.MakePoint | src-tauri/src/fido/credentials.rs:51-63 | `ecdsa_point`: 65 bytes with a leading 4, 64 bytes with the 4 added, or an error |
| Credentials.MakeBlob | src-tauri/src/fido/credentials.rs:10-33 | `public_blob` for both algorithms and its errors |
| Credentials.BlobReadBack | src-tauri/src/fido/credentials.rs:10-33 | a reader recovers algorithm, curve, key and application |
| Credentials.SameBlobExactly | src-tauri/src/fido/credentials.rs:10-63 | two keys share a blob exactly when they differ in nothing but the form of one ECDSA point |
| Credentials.MakeEnclaveBlob | src-tauri/src/ssh.rs:8-17 | `ecdsa_public_blob` and its error |
| Credentials.EnclaveReadBack | src-tauri/src/ssh.rs:8-17 | a reader recovers algorithm, curve and point, exactly for a point of 65 bytes with a leading 4 |
| Credentials.EnclaveBlobInjective | src-tauri/src/ssh.rs:8-17 | different points have different blobs |
| Credentials.BlobsDisjoint | src-tauri/src/ssh.rs:8-17 | no Secure Enclave key has the blob of a security key |
| SshConfig.MigratedLayout | src-tauri/src/agent/integration.rs:39-55 | the output is the include line and, behind an empty line, the kept lines |
| SshConfig.IncludeOnceAndFirst | src-tauri/src/agent/integration.rs:39-55 | the include line comes first and is the only managed line |
| SshConfig.NoOtherInclude | src-tauri/src/agent/integration.rs:39-55 | no other line includes the current or the former file |
| SshConfig.OtherLinesStay | src-tauri/src/agent/integration.rs:39-55 | every other line that is not empty is in the output |
| SshConfig.UserLinesSurvive | src-tauri/src/agent/integration.rs:39-55 | on every input the other lines survive in order, from the first that is not empty, each without one carriage return at its end |
| SshConfig.MigratedLines | src-tauri/src/agent/integration.rs:39-55 | on every input: each kept line, without one carriage return at its end |
| SshConfig.IdempotentExactly | src-tauri/src/agent/integration.rs:39-55 | a second migration changes nothing exactly when no kept line ends in a carriage return |
| SshConfig.IdempotentOnPlainLines | src-tauri/src/agent/integration.rs:39-55 | in particular when no line of the input does |
| SshConfig.NotAlwaysIdempotent | src-tauri/src/agent/integration.rs:39-55 | a concrete input on which it is not idempotent |
| Lifecycle.LifecycleFlags.HandleEvent | src-tauri/src/lifecycle.rs:47-66 | one event number: new conditions and what is triggered |
| Lifecycle.LifecycleFlags.Deactivate | src-tauri/src/lifecycle.rs:69-73 | `fetch_or` refines adding a condition; locks only for the first |
| Lifecycle.LifecycleFlags.Reactivate | src-tauri/src/lifecycle.rs:124-128 | `fetch_and` refines removing a condition; recovers only for the last |
| Lifecycle.LifecycleFlags.HandleAll | src-tauri/src/lifecycle.rs:29-33 | the receiver loop over any event numbers: each bit is set exactly if its number occurs and the clearing one does not after it |
| Lifecycle.OutstandingByNumber | src-tauri/src/lifecycle.rs:47-66 | for every sequence of event numbers: a condition is outstanding exactly if its odd number occurs and its even one does not after it |
| Lifecycle.LocksByNumber | src-tauri/src/lifecycle.rs:47-73 | locking runs exactly at a number 1, 3 or 5 that finds nothing held, for the condition of that number |
| Lifecycle.RecoversByNumber | src-tauri/src/lifecycle.rs:47-128 | recovery runs exactly at a number 2, 4 or 6 whose condition alone is held |
| Lifecycle.OtherNumbersIgnored | src-tauri/src/lifecycle.rs:47-66 | any other number changes and triggers nothing |
| Lifecycle.BitFollowsLastEvent | src-tauri/src/lifecycle.rs:69-128 | a bit is set exactly when the last event of its class was a deactivation |
| Lifecycle.RunsAlternate | src-tauri/src/lifecycle.rs:69-128 | lock runs minus recovery runs is 1 if a condition is outstanding and 0 otherwise |
| Lifecycle.RunsExactly | src-tauri/src/lifecycle.rs:69-128 | recovery runs exactly when the last condition clears, locking exactly when the first is set |
| Lifecycle.MachineTakesTheseSteps | src-tauri/src/lifecycle.rs:69-128 | the session machine takes the same steps on a set of conditions |
| Settings.SettingsStore.WriteSecurityPolicy | src-tauri/src/settings.rs:166-172 | writes the Keychain item only if the old one can be read |
| Settings.SettingsStore.SaveSettings | src-tauri/src/settings.rs:158-164 | `save`: file first, Keychain silently |
| Settings.SettingsStore.LoadSettings | src-tauri/src/settings.rs:122-156 | `load` in every case of file and Keychain |
| Settings.SettingsStore.Set | src-tauri/src/settings.rs:320-385 | the setters: refusals, approval, saving, and what is put in force |
| Settings.SettingsStore.Start | src-tauri/src/lib.rs:127-134 | start-up with the loaded policy, or the defaults |
| Settings.SettingsStore.MirrorLabels | src-tauri/src/settings.rs:228-233 | the Keychain half of saving device names |
| Settings.LoadAfterSave | src-tauri/src/settings.rs:122-172 | `load` after `save` returns the saved policy if and only if no older differing policy stayed readable |
| Settings.DefaultsAreSafe | src-tauri/src/settings.rs:44-91 | the defaults ask for every operation and lock after 15 minutes |
| Settings.LoadMeans | src-tauri/src/settings.rs:122-156 | when a load succeeds, what it returns, and what it leaves in both copies |
| Settings.SaveMeans | src-tauri/src/settings.rs:158-172 | when a save succeeds and what it leaves; names in the Keychain are kept |
| Settings.ChangeMeans | src-tauri/src/settings.rs:320-385 | when a change is accepted, and that exactly the part asked for changes in what is returned, stored and in force |
| Settings.WeakensExactly | src-tauri/src/settings.rs:387-403 | approval is asked exactly when a change takes something away or switches the auto-lock off |
| Settings.NamingMeans | src-tauri/src/settings.rs:228-233 | saving names keeps the policy of the Keychain, or puts the defaults there |
| Settings.WeakenedExactly | src-tauri/src/settings.rs:387-399 | approval is asked exactly when some protection would go off |
| Settings.CoherentExactly | src-tauri/src/settings.rs:122-235 | a step leaves file, Keychain and policy in force at odds exactly in three named cases |
| Settings.HoldsMeans | src-tauri/src/settings.rs:122-156 | what it is for both copies and the policy in force to be at least some policy: no start that can load goes below it |
| Settings.StepHoldsExactly | src-tauri/src/settings.rs:122-403 | without approval a step takes one of them below exactly when it brings in default settings that are below |
| Settings.HoldsExactly | src-tauri/src/settings.rs:122-403 | over any run without approval nothing goes below in any state if and only if the defaults suffice or no step brings them in |
| Settings.ProtectionNeverLost | src-tauri/src/settings.rs:320-403 | so protections that were on stay on and in force and the timeout does not grow, 0 counting as never |
| Settings.StartKeepsExactly | src-tauri/src/lib.rs:127-134 | a start keeps the protections exactly when it can load or the defaults are as strong |
| Settings.NamingKeepsExactly | src-tauri/src/settings.rs:228-233 | naming a device keeps them through every later start exactly when it does not create the Keychain item or the defaults are as strong |
| Settings.ChangeKeepsExactly | src-tauri/src/settings.rs:158-172 | a change saved without approval survives every later start exactly when no older policy stays behind |
| Settings.OldPolicyComesBack | src-tauri/src/settings.rs:158-172 | a run: a stricter setting that missed the Keychain is gone after a restart |
| Settings.NamingLoses | src-tauri/src/settings.rs:228-233 | a run: naming a device before the Keychain item exists loses what the defaults lack |
| Settings.FallingBackLoses | src-tauri/src/lib.rs:127-134 | a run: a start that cannot read the file loses what the defaults lack, until one can |
| Settings.StrictStoreLoses | src-tauri/src/settings.rs:122-235 | a concrete store on which both of these lose the startup prompt |

## Left out

- Lock order: `app` with `pins` nested inside is one step of the machine, so the possible deadlock of `pins` then `app` against `app` then `pins` is not visible; the code does not exclude it.
- Mutex poisoning, panics and failed thread joins.
- libfido2, the Secure Enclave bridge, Touch ID, SHA-256, base64 and the parsing of keys and signatures are parameters.
- The deletion confirmation signature of a FIDO2 operation is part of the hardware answer, not an SSH signature.
- The agent socket, its restart and health check, the connection limit and the activity log; a failed recovery or agent start is an answer of the outside.
- The PIN cache is cleared when the application exits; the model has no exit step.
- Validation of names and PINs, trimming, device identities and labels of the scan result; the label is whatever the store returns.
- Device details that no handler reads, key handles and printable key lines.
- Texts of errors and notices: the ones the code compares or that matter here are constructors, all others are one.
- Tray, windows and events.
- Signature flags of a FIDO2 answer are the opaque provider fields of the reply.
- Server.SignRequest: states the reply only; what a sign request does to the shared state is in the session machine, where other threads can interleave.
- UnlockSequence.SequentialUnlock: a PIN is entered while the window asks for one and one operation runs at a time; a second overlapping operation belongs to the machine's theorems.
- SigningProgress.SignableReachesHardware: says nothing about a thread that has to wait because another one holds a mutex on its way; whether it gets it at last is a matter of the scheduler.
- AgentRuns.ResponseMeansHardware: takes from the caller that the signature a request gets is what its thread came back with; how a connection is assigned to a thread is not modelled.
- The partial write of a settings file, its permissions and its JSON; a file is missing, unreadable, or holds settings.
