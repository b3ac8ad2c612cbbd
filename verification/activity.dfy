/**
 * The activity's USB session: scanning the attached devices, the permission
 * broadcast, connecting to the dongle, and the apply button that sends the
 * volume. The platform's answers (permission held, the descriptor of an opened
 * connection) are inputs; calls into the native library and permission
 * requests are recorded in logs.
 */
module Activity {
  import opened DeviceMatch
  import opened HexCodec
  import DeviceLabel

  const ActionUsbPermission: string := "com.android.example.USB_PERMISSION"
  /** The preference key under which the last applied volume is stored. */
  const VolumeKey: string := "volume"
  /** The text the volume field shows when no volume has been stored. */
  const DefaultVolume: string := "007f"
  /** deviceDescriptor while no device has been connected. */
  const NoDescriptor: int := -1

  datatype Option<T> = None | Some(value: T)

  /** A call into the native library. */
  datatype NativeCall =
    | InitializeNativeDevice(fd: int)
    | SetDeviceVolume(fd: int, volume: seq<uint8>)

  /** How a handler ends: normally, or with the IllegalArgumentException of a rejected volume. */
  datatype Outcome = Returned | ThrewIllegalArgument

  /** One entry of the device list, with what the platform answers about it. */
  datatype Attached = Attached(device: UsbDevice, hasPermission: bool, fd: nat)

  /** What the scan does with one device. */
  datatype ScanAction = Connect(device: UsbDevice, fd: nat) | RequestPermission(device: UsbDevice)

  /** Everything the handlers read or change, as one value. */
  datatype Snapshot = Snapshot(
    deviceDescriptor: int,
    deviceLabel: string,
    volInput: string,
    autoApply: bool,
    quitAfterApply: bool,
    finishing: bool,
    prefs: map<string, string>,
    prefEdits: nat,
    native: seq<NativeCall>,
    requested: seq<UsbDevice>)

  /** The state a handler leaves behind and how it ended. */
  datatype Step = Step(state: Snapshot, outcome: Outcome)

  /** SharedPreferences.getString. */
  function GetString(prefs: map<string, string>, key: string, otherwise: string): string {
    if key in prefs then prefs[key] else otherwise
  }

  /** The state onCreate sets up before it scans. */
  function Initial(prefs: map<string, string>, autoApply: bool, quitAfterApply: bool): Snapshot {
    Snapshot(NoDescriptor, "", GetString(prefs, VolumeKey, DefaultVolume),
             autoApply, quitAfterApply, false, prefs, 0, [], [])
  }

  /** setDeviceVolume(fd): reject the text field unless it is a volume token, otherwise send its bytes. */
  function AfterSetVolume(s: Snapshot, fd: int): Step {
    if !IsVolumeToken(s.volInput) then Step(s, ThrewIllegalArgument)
    else Step(s.(native := s.native + [SetDeviceVolume(fd, Pack(s.volInput))]), Returned)
  }

  /**
   * connectDevice: show the label, initialise the native side with the opened
   * connection's descriptor, remember it, and apply the volume when auto-apply is on.
   */
  function AfterConnect(s: Snapshot, device: UsbDevice, fd: nat): Step {
    var connected := s.(deviceLabel := DeviceLabel.Label(device),
                     native := s.native + [InitializeNativeDevice(fd)],
                     deviceDescriptor := fd);
    if !connected.autoApply then Step(connected, Returned)
    else
      var sent := AfterSetVolume(connected, fd);
      if sent.outcome == Returned && sent.state.quitAfterApply then Step(sent.state.(finishing := true), Returned)
      else sent
  }

  function AfterAction(s: Snapshot, a: ScanAction): Step {
    match a
    case Connect(d, fd) => AfterConnect(s, d, fd)
    case RequestPermission(d) => Step(s.(requested := s.requested + [d]), Returned)
  }

  /** Performs the actions in order; an exception ends the run. */
  function Run(s: Snapshot, actions: seq<ScanAction>): Step
    decreases |actions|
  {
    if actions == [] then Step(s, Returned)
    else
      var step := AfterAction(s, actions[0]);
      if step.outcome == ThrewIllegalArgument then step else Run(step.state, actions[1..])
  }

  /** Connect when permission is already held, otherwise ask for it. */
  function ActionFor(a: Attached): ScanAction {
    if a.hasPermission then Connect(a.device, a.fd) else RequestPermission(a.device)
  }

  /** What checkUsbDevices does, device by device: it returns at the first device that does not match. */
  function ScanPlan(devices: seq<Attached>): seq<ScanAction> {
    if devices == [] || !IsAppleDongle(devices[0].device) then []
    else [ActionFor(devices[0])] + ScanPlan(devices[1..])
  }

  /** Index of the first device that is not the dongle, or the list's length. */
  function FirstMismatch(devices: seq<Attached>): (k: nat)
    ensures k <= |devices|
    ensures forall i :: 0 <= i < k ==> IsAppleDongle(devices[i].device)
    ensures k < |devices| ==> !IsAppleDongle(devices[k].device)
  {
    if devices == [] || !IsAppleDongle(devices[0].device) then 0
    else 1 + FirstMismatch(devices[1..])
  }

  /** The permission receiver: connect only on a grant for a present, matching device. */
  function AfterPermission(s: Snapshot, action: string, device: Option<UsbDevice>, granted: bool, fd: nat): Step {
    if action != ActionUsbPermission then Step(s, Returned)
    else if granted && device.Some? && IsAppleDongle(device.value) then AfterConnect(s, device.value, fd)
    else Step(s, Returned)
  }

  /**
   * applyButtonPressed: nothing without a session; a rejected token clears the
   * text field; an accepted one is stored unless it is already the stored value.
   */
  function AfterApply(s: Snapshot): Snapshot {
    var volume := s.volInput;
    if s.deviceDescriptor < 0 then s
    else
      var sent := AfterSetVolume(s, s.deviceDescriptor);
      if sent.outcome == ThrewIllegalArgument then sent.state.(volInput := "")
      else if GetString(sent.state.prefs, VolumeKey, "") != volume then
        sent.state.(prefs := sent.state.prefs[VolumeKey := volume], prefEdits := sent.state.prefEdits + 1)
      else sent.state
  }

  // ---------------------------------------------------------------------------
  // The native-call invariant

  /** Descriptor of the most recent native initialisation, or NoDescriptor. */
  function LastInitFd(log: seq<NativeCall>): int {
    if log == [] then NoDescriptor
    else if log[|log| - 1].InitializeNativeDevice? then log[|log| - 1].fd
    else LastInitFd(log[..|log| - 1])
  }

  /**
   * A call is well-formed after the calls before it: initialisation gets an open
   * descriptor; a volume goes to the most recently initialised descriptor and is two bytes.
   */
  predicate CallWf(before: seq<NativeCall>, call: NativeCall) {
    match call
    case InitializeNativeDevice(fd) => fd >= 0
    case SetDeviceVolume(fd, volume) => fd >= 0 && fd == LastInitFd(before) && |volume| == 2
  }

  predicate NativeLogWf(log: seq<NativeCall>) {
    forall i :: 0 <= i < |log| ==> CallWf(log[..i], log[i])
  }

  /** The session field always holds the descriptor the native side was last initialised with. */
  predicate Wf(s: Snapshot) {
    s.deviceDescriptor == LastInitFd(s.native) && NativeLogWf(s.native)
  }

  lemma AppendCall(log: seq<NativeCall>, call: NativeCall)
    requires NativeLogWf(log) && CallWf(log, call)
    ensures NativeLogWf(log + [call])
    ensures LastInitFd(log + [call]) == if call.InitializeNativeDevice? then call.fd else LastInitFd(log)
  {
    var log' := log + [call];
    assert log'[..|log|] == log;
    forall i | 0 <= i < |log| ensures CallWf(log'[..i], log'[i]) {
      assert log'[..i] == log[..i];
    }
  }

  lemma InitialWf(prefs: map<string, string>, autoApply: bool, quitAfterApply: bool)
    ensures Wf(Initial(prefs, autoApply, quitAfterApply))
  {
  }

  lemma SetVolumeKeepsWf(s: Snapshot, fd: int)
    requires Wf(s) && fd == s.deviceDescriptor >= 0
    ensures Wf(AfterSetVolume(s, fd).state)
  {
    if IsVolumeToken(s.volInput) {
      VolumeTokenPayload(s.volInput);
      AppendCall(s.native, SetDeviceVolume(fd, Pack(s.volInput)));
    }
  }

  lemma ConnectKeepsWf(s: Snapshot, device: UsbDevice, fd: nat)
    requires Wf(s)
    ensures Wf(AfterConnect(s, device, fd).state)
  {
    AppendCall(s.native, InitializeNativeDevice(fd));
    var connected := s.(deviceLabel := DeviceLabel.Label(device),
                     native := s.native + [InitializeNativeDevice(fd)],
                     deviceDescriptor := fd);
    if connected.autoApply {
      SetVolumeKeepsWf(connected, fd);
    }
  }

  lemma ActionKeepsWf(s: Snapshot, a: ScanAction)
    requires Wf(s)
    ensures Wf(AfterAction(s, a).state)
  {
    if a.Connect? {
      ConnectKeepsWf(s, a.device, a.fd);
    }
  }

  lemma {:induction false} RunKeepsWf(s: Snapshot, actions: seq<ScanAction>)
    requires Wf(s)
    ensures Wf(Run(s, actions).state)
    decreases |actions|
  {
    if actions != [] {
      var step := AfterAction(s, actions[0]);
      ActionKeepsWf(s, actions[0]);
      if step.outcome == Returned {
        RunKeepsWf(step.state, actions[1..]);
      }
    }
  }

  lemma PermissionKeepsWf(s: Snapshot, action: string, device: Option<UsbDevice>, granted: bool, fd: nat)
    requires Wf(s)
    ensures Wf(AfterPermission(s, action, device, granted, fd).state)
  {
    if action == ActionUsbPermission && granted && device.Some? && IsAppleDongle(device.value) {
      ConnectKeepsWf(s, device.value, fd);
    }
  }

  lemma ApplyKeepsWf(s: Snapshot)
    requires Wf(s)
    ensures Wf(AfterApply(s))
  {
    if s.deviceDescriptor >= 0 {
      SetVolumeKeepsWf(s, s.deviceDescriptor);
    }
  }

  // ---------------------------------------------------------------------------
  // Properties of the session

  lemma DropLastCallWf(log: seq<NativeCall>)
    requires NativeLogWf(log) && log != []
    ensures NativeLogWf(log[..|log| - 1])
  {
    var init := log[..|log| - 1];
    forall i | 0 <= i < |init| ensures CallWf(init[..i], init[i]) {
      assert init[..i] == log[..i];
    }
  }

  lemma {:induction false} NoInitMeansNoDescriptor(log: seq<NativeCall>)
    requires NativeLogWf(log)
    ensures LastInitFd(log) < 0 <==> forall i :: 0 <= i < |log| ==> !log[i].InitializeNativeDevice?
  {
    if log != [] {
      var init := log[..|log| - 1];
      DropLastCallWf(log);
      NoInitMeansNoDescriptor(init);
      assert log[|log| - 1].InitializeNativeDevice? ==> CallWf(log[..|log| - 1], log[|log| - 1]);
      assert forall i :: 0 <= i < |init| ==> init[i] == log[i];
    }
  }

  /**
   * deviceDescriptor is the sentinel exactly until the native side has been
   * initialised with a connection, and afterwards an open descriptor.
   */
  lemma DescriptorMarksSession(s: Snapshot)
    requires Wf(s)
    ensures s.deviceDescriptor == NoDescriptor || s.deviceDescriptor >= 0
    ensures s.deviceDescriptor < 0 <==> forall i :: 0 <= i < |s.native| ==> !s.native[i].InitializeNativeDevice?
  {
    NoInitMeansNoDescriptor(s.native);
    LastInitFdRange(s.native);
  }

  lemma {:induction false} LastInitFdRange(log: seq<NativeCall>)
    requires NativeLogWf(log)
    ensures LastInitFd(log) == NoDescriptor || LastInitFd(log) >= 0
  {
    if log != [] {
      var init := log[..|log| - 1];
      DropLastCallWf(log);
      LastInitFdRange(init);
      assert CallWf(log[..|log| - 1], log[|log| - 1]);
    }
  }

  /** Connecting leaves the connection's descriptor in the session field and initialises the native side with it. */
  lemma ConnectOpensSession(s: Snapshot, device: UsbDevice, fd: nat)
    ensures var r := AfterConnect(s, device, fd).state;
      && r.deviceDescriptor == fd
      && r.deviceLabel == DeviceLabel.Label(device)
      && |r.native| > |s.native| && r.native[|s.native|] == InitializeNativeDevice(fd)
      && r.native[..|s.native|] == s.native
      && r.requested == s.requested && r.prefs == s.prefs && r.volInput == s.volInput
  {
  }

  /**
   * The permission broadcast changes nothing unless it grants permission for a
   * present, matching device; then it connects to that device.
   */
  lemma PermissionConnectsOnlyOnGrant(s: Snapshot, action: string, device: Option<UsbDevice>, granted: bool, fd: nat)
    ensures var grant := action == ActionUsbPermission && granted && device.Some? && IsAppleDongle(device.value);
      && (!grant ==> AfterPermission(s, action, device, granted, fd) == Step(s, Returned))
      && (grant ==> (AfterPermission(s, action, device, granted, fd) == AfterConnect(s, device.value, fd)
                     && AfterPermission(s, action, device, granted, fd).state.deviceDescriptor == fd
                     && AfterPermission(s, action, device, granted, fd).state.deviceLabel == "Apple Dongle"))
  {
    if device.Some? {
      DeviceLabel.LabelNamesOnlyTheDongle(device.value);
    }
  }

  /** A volume reaches the device only as the encoding of a valid token, sent to the current descriptor. */
  lemma SetVolumeSendsOnlyTokens(s: Snapshot, fd: int)
    ensures var r := AfterSetVolume(s, fd);
      && (r.outcome == ThrewIllegalArgument <==> !IsVolumeToken(s.volInput))
      && (r.outcome == ThrewIllegalArgument ==> r.state == s)
      && (r.outcome == Returned ==> (r.state == s.(native := s.native + [SetDeviceVolume(fd, Pack(s.volInput))])
                                   && Pack(s.volInput)[0] as int * 256 + Pack(s.volInput)[1] as int == HexValue(s.volInput)))
  {
    if IsVolumeToken(s.volInput) {
      VolumeTokenPayload(s.volInput);
    }
  }

  /**
   * The apply button: without a session nothing changes; a rejected token clears
   * the text field and changes nothing else; an accepted token is sent once and
   * stored, with a preference write only when it differs from the stored value.
   */
  lemma ApplyEffects(s: Snapshot)
    ensures s.deviceDescriptor < 0 ==> AfterApply(s) == s
    ensures s.deviceDescriptor >= 0 && !IsVolumeToken(s.volInput) ==> AfterApply(s) == s.(volInput := "")
    ensures s.deviceDescriptor >= 0 && IsVolumeToken(s.volInput) ==>
      AfterApply(s) == s.(native := s.native + [SetDeviceVolume(s.deviceDescriptor, Pack(s.volInput))],
                          prefs := s.prefs[VolumeKey := s.volInput],
                          prefEdits := if VolumeKey in s.prefs && s.prefs[VolumeKey] == s.volInput then s.prefEdits else s.prefEdits + 1)
  {
    if s.deviceDescriptor >= 0 && IsVolumeToken(s.volInput) && GetString(s.prefs, VolumeKey, "") == s.volInput {
      assert VolumeKey in s.prefs;
      assert s.prefs[VolumeKey := s.volInput] == s.prefs;
    }
  }

  /** Pressing apply twice with the same token sends it twice; only the first press may write the preference. */
  lemma ApplyTwiceSendsTwice(s: Snapshot)
    requires s.deviceDescriptor >= 0 && IsVolumeToken(s.volInput)
    ensures var call := SetDeviceVolume(s.deviceDescriptor, Pack(s.volInput));
      && AfterApply(AfterApply(s)).native == s.native + [call, call]
      && AfterApply(AfterApply(s)).prefEdits == AfterApply(s).prefEdits
  {
    ApplyEffects(s);
    ApplyEffects(AfterApply(s));
  }

  // ---------------------------------------------------------------------------
  // Properties of the scan

  /**
   * Each device before the first mismatch gets exactly one action (connect if
   * permission is held, otherwise a request), and no device after it gets any.
   */
  lemma {:induction false} ScanPlanShape(devices: seq<Attached>)
    ensures |ScanPlan(devices)| == FirstMismatch(devices)
    ensures forall i :: 0 <= i < |ScanPlan(devices)| ==> ScanPlan(devices)[i] == ActionFor(devices[i])
  {
    if devices != [] && IsAppleDongle(devices[0].device) {
      ScanPlanShape(devices[1..]);
    }
  }

  /** Devices listed after a non-matching one never influence the scan. */
  lemma {:induction false} ScanIgnoresDevicesAfterMismatch(devices: seq<Attached>, later: seq<Attached>)
    requires FirstMismatch(devices) < |devices|
    ensures ScanPlan(devices + later) == ScanPlan(devices)
  {
    assert (devices + later)[0] == devices[0];
    if IsAppleDongle(devices[0].device) {
      assert (devices + later)[1..] == devices[1..] + later;
      ScanIgnoresDevicesAfterMismatch(devices[1..], later);
    }
  }

  /** A foreign device listed first hides a dongle listed after it; listed the other way round, the dongle is connected. */
  lemma ScanExample()
    ensures var dongle := Attached(UsbDevice(0x05AC, 0x110A, "/dev/bus/usb/001/002"), true, 7);
      var foreign := Attached(UsbDevice(0x046D, 0xC52B, "/dev/bus/usb/001/003"), true, 8);
      && ScanPlan([foreign, dongle]) == []
      && ScanPlan([dongle, foreign]) == [Connect(dongle.device, 7)]
  {
    var dongle := Attached(UsbDevice(0x05AC, 0x110A, "/dev/bus/usb/001/002"), true, 7);
    var foreign := Attached(UsbDevice(0x046D, 0xC52B, "/dev/bus/usb/001/003"), true, 8);
    assert [dongle, foreign][1..] == [foreign];
  }

  /**
   * The scan connects only to matching devices, so the label it leaves is the
   * one shown before or "Apple Dongle"; the fallback label is never displayed.
   */
  lemma {:induction false} ScanShowsOnlyDongleLabel(s: Snapshot, devices: seq<Attached>)
    ensures var shown := Run(s, ScanPlan(devices)).state.deviceLabel;
      shown == s.deviceLabel || shown == "Apple Dongle"
    decreases |devices|
  {
    if devices != [] && IsAppleDongle(devices[0].device) {
      var step := AfterAction(s, ActionFor(devices[0]));
      DeviceLabel.LabelNamesOnlyTheDongle(devices[0].device);
      assert ScanPlan(devices)[1..] == ScanPlan(devices[1..]);
      if step.outcome == Returned {
        ScanShowsOnlyDongleLabel(step.state, devices[1..]);
      }
    }
  }

  /** Devices the scan asks permission for, in order. */
  function Requests(actions: seq<ScanAction>): seq<UsbDevice> {
    if actions == [] then []
    else (if actions[0].RequestPermission? then [actions[0].device] else []) + Requests(actions[1..])
  }

  /** Descriptor of the last connection among the actions, or the given one. */
  function LastConnectFd(actions: seq<ScanAction>, current: int): int {
    if actions == [] then current
    else LastConnectFd(actions[1..], if actions[0].Connect? then actions[0].fd else current)
  }

  lemma AppendAssociates<T>(a: seq<T>, b: seq<T>, c: seq<T>)
    ensures a + b + c == a + (b + c)
  {
  }

  /** One scan action, when an auto-apply cannot fail: it returns and does just its own part. */
  lemma ActionWithoutException(s: Snapshot, a: ScanAction)
    requires !s.autoApply || IsVolumeToken(s.volInput)
    ensures var r := AfterAction(s, a);
      && r.outcome == Returned
      && r.state.autoApply == s.autoApply && r.state.volInput == s.volInput
      && r.state.requested == s.requested + (if a.RequestPermission? then [a.device] else [])
      && r.state.deviceDescriptor == (if a.Connect? then a.fd else s.deviceDescriptor)
  {
  }

  /**
   * When the volume field cannot make an auto-apply fail, every action runs: all
   * requests are issued in order and the session field ends on the last connection.
   */
  lemma {:induction false} RunWithoutException(s: Snapshot, actions: seq<ScanAction>)
    requires !s.autoApply || IsVolumeToken(s.volInput)
    ensures Run(s, actions).outcome == Returned
    ensures Run(s, actions).state.requested == s.requested + Requests(actions)
    ensures Run(s, actions).state.deviceDescriptor == LastConnectFd(actions, s.deviceDescriptor)
    decreases |actions|
  {
    if actions != [] {
      var a, step := actions[0], AfterAction(s, actions[0]);
      ActionWithoutException(s, a);
      RunWithoutException(step.state, actions[1..]);
      AppendAssociates(s.requested, if a.RequestPermission? then [a.device] else [], Requests(actions[1..]));
    }
  }

  /** Index of the first connection among the actions, or the number of actions. */
  function FirstConnect(actions: seq<ScanAction>): (k: nat)
    ensures k <= |actions|
    ensures forall i :: 0 <= i < k ==> actions[i].RequestPermission?
    ensures k < |actions| ==> actions[k].Connect?
  {
    if actions == [] || actions[0].Connect? then 0 else 1 + FirstConnect(actions[1..])
  }

  /**
   * With auto-apply on and a malformed volume field, the first connection throws:
   * the scan ends there with the descriptor already set, nothing sent, and no
   * action taken for the devices after it.
   */
  lemma {:induction false} RunStopsAtFailedAutoApply(s: Snapshot, actions: seq<ScanAction>)
    requires s.autoApply && !IsVolumeToken(s.volInput)
    ensures var run := Run(s, actions);
      var r, outcome := run.state, run.outcome;
      var k := FirstConnect(actions);
      && (outcome == ThrewIllegalArgument <==> k < |actions|)
      && r.requested == s.requested + Requests(actions[..k])
      && (k < |actions| ==> (r.native == s.native + [InitializeNativeDevice(actions[k].fd)]
                             && r.deviceDescriptor == actions[k].fd))
      && (k == |actions| ==> r.native == s.native && r.deviceDescriptor == s.deviceDescriptor)
    decreases |actions|
  {
    if actions != [] {
      if actions[0].RequestPermission? {
        var next := s.(requested := s.requested + [actions[0].device]);
        RunStopsAtFailedAutoApply(next, actions[1..]);
        assert actions[..FirstConnect(actions)] == [actions[0]] + actions[1..][..FirstConnect(actions[1..])];
      } else {
        assert actions[..0] == [];
      }
    }
  }

  // ---------------------------------------------------------------------------
  // The activity object

  class MainActivity {
    var deviceDescriptor: int
    var deviceLabel: string
    var volInput: string
    var autoApply: bool
    var quitAfterApply: bool
    var finishing: bool
    var prefs: map<string, string>
    ghost var prefEdits: nat
    ghost var native: seq<NativeCall>
    ghost var requested: seq<UsbDevice>

    ghost function State(): Snapshot
      reads this
    {
      Snapshot(deviceDescriptor, deviceLabel, volInput, autoApply, quitAfterApply, finishing,
               prefs, prefEdits, native, requested)
    }

    ghost predicate Valid()
      reads this
    {
      Wf(State())
    }

    /** onCreate up to the scan: the text field and check boxes come from the stored preferences. */
    constructor (storedPrefs: map<string, string>, autoApplyPref: bool, quitAfterApplyPref: bool)
      ensures Valid()
      ensures State() == Initial(storedPrefs, autoApplyPref, quitAfterApplyPref)
    {
      deviceDescriptor := NoDescriptor;
      deviceLabel := "";
      volInput := GetString(storedPrefs, VolumeKey, DefaultVolume);
      autoApply := autoApplyPref;
      quitAfterApply := quitAfterApplyPref;
      finishing := false;
      prefs := storedPrefs;
      prefEdits := 0;
      native := [];
      requested := [];
    }

    /** The user edits the volume text field. */
    method EditVolume(text: string)
      requires Valid()
      modifies this
      ensures Valid()
      ensures State() == old(State()).(volInput := text)
    {
      volInput := text;
    }

    /** The user ticks or clears the auto-apply check box; connectDevice reads it on every connection. */
    method SetAutoApply(checked: bool)
      requires Valid()
      modifies this
      ensures Valid()
      ensures State() == old(State()).(autoApply := checked)
    {
      autoApply := checked;
    }

    /** The user ticks or clears the quit-after-apply check box. */
    method SetQuitAfterApply(checked: bool)
      requires Valid()
      modifies this
      ensures Valid()
      ensures State() == old(State()).(quitAfterApply := checked)
    {
      quitAfterApply := checked;
    }

    /** setDeviceVolume(int): validate the text field, pack it, and hand it to the native library. */
    method SetVolume(fd: int) returns (outcome: Outcome)
      requires Valid() && fd == deviceDescriptor && fd >= 0
      modifies this
      ensures Valid()
      ensures Step(State(), outcome) == AfterSetVolume(old(State()), fd)
    {
      var volume := volInput;
      if !IsVolumeToken(volume) {
        return ThrewIllegalArgument;
      }
      var bytes := HexStringToByteArray(volume);
      native := native + [NativeCall.SetDeviceVolume(fd, bytes[..])];
      outcome := Returned;
      SetVolumeKeepsWf(old(State()), fd);
    }

    /** connectDevice, given the descriptor of the connection the platform opened. */
    method ConnectDevice(device: UsbDevice, fd: nat) returns (outcome: Outcome)
      requires Valid()
      modifies this
      ensures Valid()
      ensures Step(State(), outcome) == AfterConnect(old(State()), device, fd)
    {
      deviceLabel := DeviceLabel.Label(device);
      AppendCall(native, InitializeNativeDevice(fd));
      native := native + [InitializeNativeDevice(fd)];
      deviceDescriptor := fd;
      ghost var connected := State();
      outcome := Returned;
      if autoApply {
        outcome := SetVolume(fd);
        assert Step(State(), outcome) == AfterSetVolume(connected, fd);
        if outcome == Returned && quitAfterApply {
          finishing := true;
        }
      }
    }

    /** checkUsbDevices over the device list the platform reports. */
    method CheckUsbDevices(deviceList: seq<Attached>) returns (outcome: Outcome)
      requires Valid()
      modifies this
      ensures Valid()
      ensures Step(State(), outcome) == Run(old(State()), ScanPlan(deviceList))
    {
      var i := 0;
      while i < |deviceList|
        invariant 0 <= i <= |deviceList|
        invariant Valid()
        invariant Run(old(State()), ScanPlan(deviceList)) == Run(State(), ScanPlan(deviceList[i..]))
      {
        var entry := deviceList[i];
        assert deviceList[i..][1..] == deviceList[i + 1..];
        if !IsAppleDongle(entry.device) {
          return Returned;
        }
        if entry.hasPermission {
          outcome := ConnectDevice(entry.device, entry.fd);
          if outcome == ThrewIllegalArgument {
            return;
          }
        } else {
          requested := requested + [entry.device];
        }
        i := i + 1;
      }
      return Returned;
    }

    /** The permission receiver's onReceive. */
    method OnReceive(action: string, device: Option<UsbDevice>, granted: bool, fd: nat) returns (outcome: Outcome)
      requires Valid()
      modifies this
      ensures Valid()
      ensures Step(State(), outcome) == AfterPermission(old(State()), action, device, granted, fd)
    {
      outcome := Returned;
      if action == ActionUsbPermission {
        if granted {
          if device.Some? && IsAppleDongle(device.value) {
            outcome := ConnectDevice(device.value, fd);
          }
        }
      }
    }

    /** applyButtonPressed. */
    method ApplyButtonPressed()
      requires Valid()
      modifies this
      ensures Valid()
      ensures State() == AfterApply(old(State()))
    {
      var volume := volInput;
      if deviceDescriptor < 0 {
        return;
      }
      var outcome := SetVolume(deviceDescriptor);
      if outcome == ThrewIllegalArgument {
        volInput := "";
        return;
      }
      if GetString(prefs, VolumeKey, "") != volume {
        prefs := prefs[VolumeKey := volume];
        prefEdits := prefEdits + 1;
      }
    }
  }
}
