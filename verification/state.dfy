/** The values of src-tauri/src/state/mod.rs that the session machine ranges over. */
module State {
  import opened Common

  newtype byte = x: int | 0 <= x < 256

  type Bytes = seq<byte>
  type Path = string
  type Pin = string

  datatype Phase = WaitingForDevice | NeedsPin | Loading | WaitingForTouch | Ready | Error

  datatype KeyBackend = Fido2 | SecureEnclave | Tpm

  datatype SshKey = SshKey(
    algorithm: string,
    fingerprint: string,
    comment: Option<string>,
    backend: KeyBackend,
    enabled: bool,
    devicePath: Option<Path>,
    publicBlob: Bytes)

  datatype DeviceInfo = DeviceInfo(
    deviceLabel: Option<string>,
    product: Option<string>,
    path: Path,
    fido2: bool,
    algorithms: seq<Algorithm>)

  /** The two algorithms the application creates keys for, and any other name. */
  datatype Algorithm = Ed25519Sk | EcdsaSk | Other(name: string)

  /** The error texts the code compares against, and any other text. */
  datatype Failure = InvalidPin | PinNotCached | Message(text: string)

  /** The security notices the handlers put up. */
  datatype Notice = LockedBy(condition: Condition) | AgentNotRestored

  datatype PendingRename = PendingRename(fingerprint: string, name: string)

  /** The boolean fields of `AppState`. */
  datatype Flags = Flags(
    yubikeyConnected: bool,
    agentRunning: bool,
    agentLocked: bool,
    fidoSessionUnlocked: bool,
    unlockSequence: bool)

  /** `AppState`: what the `app` mutex protects. */
  datatype App = App(
    phase: Phase,
    flags: Flags,
    keys: seq<SshKey>,
    device: Option<DeviceInfo>,
    devices: seq<DeviceInfo>,
    error: Option<Failure>,
    pendingCreation: Option<string>,
    pendingAlgorithm: Option<Algorithm>,
    pendingDeletion: Option<string>,
    pendingRename: Option<PendingRename>,
    unlockedPaths: seq<Path>,
    securityNotice: Option<Notice>)

  const DEFAULT_APP := App(WaitingForDevice, Flags(false, false, false, false, false), [], None, [], None,
                           None, None, None, None, [], None)

  /** The user-settable atomics that the handlers read. */
  datatype Policy = Policy(
    promptOnStartup: bool,
    promptOnDeviceConnection: bool,
    promptAfterMacUnlock: bool,
    requireForCreate: bool,
    requireForRename: bool,
    requireForDelete: bool)

  /** The system conditions of src-tauri/src/lifecycle.rs. */
  datatype Condition = ScreenLocked | Sleeping | SessionInactive

  /** The whole shared state: the `app` and `pins` mutex contents and the atomics. */
  datatype Shared = Shared(
    app: App,
    pins: map<Path, Pin>,
    outstanding: set<Condition>,
    generation: nat,
    scanCompleted: bool,
    policy: Policy)

  datatype LockReason = Manual | Inactivity | System(condition: Condition)

  // Conditions passed to Filter and Find, named so that equal uses are equal values.

  function NotFido(): SshKey -> bool {
    (key: SshKey) => key.backend != Fido2
  }

  /** Everything except the FIDO2 keys of the device at `path`. */
  function OffPath(path: Path): SshKey -> bool {
    (key: SshKey) => key.backend != Fido2 || key.devicePath != Some(path)
  }

  /** The FIDO2 keys of the device at `path`. */
  function OnPath(path: Path): SshKey -> bool {
    (key: SshKey) => key.backend == Fido2 && key.devicePath == Some(path)
  }

  /** Everything except FIDO2 keys whose device is not in `paths`. */
  function StillConnected(paths: seq<Path>): SshKey -> bool {
    (key: SshKey) => key.backend != Fido2 || (key.devicePath.Some? && key.devicePath.value in paths)
  }

  function HasFingerprint(fingerprint: string): SshKey -> bool {
    (key: SshKey) => key.fingerprint == fingerprint
  }

  function LacksFingerprint(fingerprint: string): SshKey -> bool {
    (key: SshKey) => key.fingerprint != fingerprint
  }

  function FidoFingerprint(fingerprint: string): SshKey -> bool {
    (key: SshKey) => key.fingerprint == fingerprint && key.backend == Fido2
  }

  function EnabledBlob(blob: Bytes): SshKey -> bool {
    (key: SshKey) => key.enabled && key.publicBlob == blob
  }

  function IsEnabled(): SshKey -> bool {
    (key: SshKey) => key.enabled
  }

  function AtPath(path: Path): DeviceInfo -> bool {
    (device: DeviceInfo) => device.path == path
  }

  function FidoAt(path: Path): DeviceInfo -> bool {
    (device: DeviceInfo) => device.path == path && device.fido2
  }

  function IsFidoDevice(): DeviceInfo -> bool {
    (device: DeviceInfo) => device.fido2
  }

  /** A FIDO2 device that is not among the unlocked paths. */
  function StillLocked(unlocked: seq<Path>): DeviceInfo -> bool {
    (device: DeviceInfo) => device.fido2 && device.path !in unlocked
  }

  /** A FIDO2 device whose path was not among the earlier ones. */
  function NewFido(earlier: seq<Path>): DeviceInfo -> bool {
    (device: DeviceInfo) => device.fido2 && device.path !in earlier
  }

  function OtherPath(path: Path): Path -> bool {
    (other: Path) => other != path
  }

  function Among(paths: seq<Path>): Path -> bool {
    (path: Path) => path in paths
  }

  function Paths(devices: seq<DeviceInfo>): (r: seq<Path>)
    ensures |r| == |devices|
    ensures forall p :: p in r <==> exists d | d in devices :: d.path == p
  {
    if devices == [] then []
    else
      assert forall d :: d in devices <==> d == devices[0] || d in devices[1..];
      [devices[0].path] + Paths(devices[1..])
  }

  predicate AllUnlocked(devices: seq<DeviceInfo>, unlocked: seq<Path>) {
    forall d | d in devices && d.fido2 :: d.path in unlocked
  }
}
