# USB DAC volume: the activity's session and volume core

This project models the sequential core of the Android activity
`MainActivity` of the USB DAC volume app. The activity:

- recognises one USB device, the Apple USB-C headphone adapter (vendor 0x05AC,
  product 0x110A);
- scans the attached devices, connecting to the adapter when permission is held
  and asking for permission otherwise;
- connects when the permission broadcast grants access;
- remembers the opened connection's file descriptor in `deviceDescriptor`, whose
  sentinel -1 means "no session";
- shows a label for the connected device;
- validates the four-hex-digit volume typed by the user, packs it into two bytes
  and hands it to the native library, either on the apply button or automatically
  on connect.

Modules:

- `DeviceMatch` (device_match.dfy): the device record and `isAppleDongle`, with
  the decimal identifier texts and their parsed values.
- `HexCodec` (hex_codec.dfy): the volume token check (`[0-9A-Fa-f]{4}`),
  `Character.digit`, `hexStringToByteArray`, proved against a specification
  function `Pack`. It also holds the inverse printer `ToHex` and the round trips
  and value properties of `Pack`.
- `DeviceLabel` (device_label.dfy): `Integer.toHexString`, upper-casing, and the
  label `connectDevice` shows.
- `Activity` (activity.dfy): the class `MainActivity`, with the fields the
  handlers update in place (`deviceDescriptor`, the label, the volume text, the
  two check boxes, the preferences map), and its methods:
  - `ConnectDevice`
  - `CheckUsbDevices`
  - `EditVolume`, `SetAutoApply` and `SetQuitAfterApply`, the user changing the
    text field or a check box between events
  - `OnReceive`
  - `SetVolume`
  - `ApplyButtonPressed`

  Each method is proved to take the object's state (`State()`, a `Snapshot`
  value) to the result of a pure transition function (`AfterConnect`, `Run` of
  `ScanPlan`, `AfterPermission`, `AfterSetVolume`, `AfterApply`). Each method
  also keeps the invariant `Wf`. The properties are lemmas about those
  functions.

The model replaces platform and native effects as follows:

- Calls into the native library are recorded in a ghost log `native`:
  - `initializeNativeDevice(fd)` becomes `InitializeNativeDevice(fd)`;
  - `setDeviceVolume(fd, bytes)` becomes `SetDeviceVolume(fd, bytes)`.
- Permission requests are recorded in a ghost log `requested`.
- The platform's answers are inputs:
  - for each listed device, whether permission is held and the descriptor an
    opened connection would have (`Attached`);
  - for the broadcast, its action, device, grant flag and descriptor.
- An `IllegalArgumentException` thrown by `setDeviceVolume(int)` is the outcome
  `ThrewIllegalArgument`. It ends `connectDevice` and the scan that called it,
  as the uncaught exception does in the activity.

The invariant `Wf` says three things:

- the session field equals the descriptor the native side was last initialised
  with, or -1 before any initialisation;
- every initialisation got an open (non-negative) descriptor;
- every volume reached the native library as two bytes, addressed to the
  descriptor of the most recent initialisation.

Four behaviours of the code that a reader might not expect, kept as written:

- The fallback label is `"vendorId: 0x" + HEX + " productId:0x" + HEX`: a space
  after `vendorId:` and none after `productId:`, with upper-case digits and no
  zero padding. It is never displayed. `connectDevice` has two callers, and both
  call it only for a matching device: the receiver checks `isAppleDongle` first,
  and the scan has returned before reaching any other device. So the activity
  only ever shows "Apple Dongle". `ScanShowsOnlyDongleLabel` states this for the
  scan, and `PermissionConnectsOnlyOnGrant` for the receiver.
- The scan returns at the first device that is not the adapter instead of
  skipping it. `ScanIgnoresDevicesAfterMismatch` and `ScanExample` state this
  behaviour.
- No session is ever released or replaced with a release. A second connection
  overwrites `deviceDescriptor` and initialises the native side again.
- Without a session, the apply button only changes a colour and reports nothing.
  A rejected volume clears the text field.

## Model

| member | source | states |
|---|---|---|
| DeviceMatch.ConstantsAreAppleIds | app/src/main/java/com/example/libusbAndroidTest/MainActivity.java:55-59 | the decimal texts "1452" and "4362" parse to the adapter's vendor 0x05AC and product 0x110A |
| DeviceMatch.MatchesExactlyTheDongle | app/src/main/java/com/example/libusbAndroidTest/MainActivity.java:87-89 | a device matches iff its vendor and product identifiers equal the parsed constant texts |
| HexCodec.Digit | app/src/main/java/com/example/libusbAndroidTest/MainActivity.java:211-212 | Character.digit in base 16: a value in 0..15 exactly for hexadecimal characters, -1 otherwise |
| HexCodec.PackAt | app/src/main/java/com/example/libusbAndroidTest/MainActivity.java:210-213 | byte i of the packed string is digit(s[2i]) * 16 + digit(s[2i+1]) |
| HexCodec.HexStringToByteArray | app/src/main/java/com/example/libusbAndroidTest/MainActivity.java:207-215 | the loop stepping by two fills a fresh array of length n/2 whose contents are exactly Pack(s) |
| HexCodec.PackToHex | app/src/main/java/com/example/libusbAndroidTest/MainActivity.java:207-215 | packing the upper-case hexadecimal text of any bytes gives those bytes back |
| HexCodec.ToHexPack | app/src/main/java/com/example/libusbAndroidTest/MainActivity.java:207-215 | printing the packed bytes gives back the input up to letter case, so packing loses nothing but case |
| HexCodec.PackValue | app/src/main/java/com/example/libusbAndroidTest/MainActivity.java:207-215 | the packed bytes read big-endian have the numeric value of the hexadecimal text |
| HexCodec.HexValueIgnoresCase | app/src/main/java/com/example/libusbAndroidTest/MainActivity.java:227 | the accepted alphabet [0-9A-Fa-f] is case-insensitive: upper-casing keeps the text valid and its value unchanged |
| HexCodec.PackToken | app/src/main/java/com/example/libusbAndroidTest/MainActivity.java:227-231 | a valid four-character token packs into exactly two bytes, one per digit pair |
| HexCodec.VolumeTokenPayload | app/src/main/java/com/example/libusbAndroidTest/MainActivity.java:227-231 | a valid token yields two bytes with b0 * 256 + b1 equal to the token's 16-bit value, whatever its case |
| HexCodec.VolumeTokenExamples | app/src/main/java/com/example/libusbAndroidTest/MainActivity.java:149 | the default "007f" packs to [0x00, 0x7F]; "abcd" and "ABCD" both pack to [0xAB, 0xCD]; "12" and "12G4" are rejected |
| DeviceLabel.ToHexString | app/src/main/java/com/example/libusbAndroidTest/MainActivity.java:96-97 | Integer.toHexString of a non-negative value is non-empty hexadecimal text with that value and no leading zero |
| DeviceLabel.HexUpper | app/src/main/java/com/example/libusbAndroidTest/MainActivity.java:96-97 | the upper-case hexadecimal text of n is non-empty, hexadecimal, and has value n |
| DeviceLabel.HexUpperIsUpperCasedHexString | app/src/main/java/com/example/libusbAndroidTest/MainActivity.java:96-97 | that text is exactly Integer.toHexString(n).toUpperCase() |
| DeviceLabel.LabelFallback | app/src/main/java/com/example/libusbAndroidTest/MainActivity.java:96-99 | any other device is labelled "vendorId: 0x" + toHexString(vid).toUpperCase() + " productId:0x" + toHexString(pid).toUpperCase() |
| DeviceLabel.LabelNamesOnlyTheDongle | app/src/main/java/com/example/libusbAndroidTest/MainActivity.java:94-99 | the label is "Apple Dongle" iff the device matches |
| DeviceLabel.FallbackLabelIdentifiesDevice | app/src/main/java/com/example/libusbAndroidTest/MainActivity.java:96-99 | two non-matching devices with the same label have the same vendor and product identifiers |
| Activity.FirstMismatch | app/src/main/java/com/example/libusbAndroidTest/MainActivity.java:124-125 | the position of the first listed device that is not the adapter: every device before it matches |
| Activity.InitialWf | app/src/main/java/com/example/libusbAndroidTest/MainActivity.java:52 | the initial state, with deviceDescriptor -1 and no native call, satisfies the invariant |
| Activity.SetVolumeKeepsWf | app/src/main/java/com/example/libusbAndroidTest/MainActivity.java:224-231 | sending the volume to the current descriptor keeps the invariant: the payload is two bytes and goes to the last initialised descriptor |
| Activity.ConnectKeepsWf | app/src/main/java/com/example/libusbAndroidTest/MainActivity.java:103-115 | connecting, with or without auto-apply, keeps the invariant |
| Activity.ActionKeepsWf | app/src/main/java/com/example/libusbAndroidTest/MainActivity.java:126-132 | one scan action, a connection or a permission request, keeps the invariant |
| Activity.RunKeepsWf | app/src/main/java/com/example/libusbAndroidTest/MainActivity.java:124-133 | any sequence of scan actions keeps the invariant, including one cut short by an exception |
| Activity.PermissionKeepsWf | app/src/main/java/com/example/libusbAndroidTest/MainActivity.java:68-84 | the permission broadcast keeps the invariant |
| Activity.ApplyKeepsWf | app/src/main/java/com/example/libusbAndroidTest/MainActivity.java:169-192 | the apply button keeps the invariant |
| Activity.DescriptorMarksSession | app/src/main/java/com/example/libusbAndroidTest/MainActivity.java:52 | in a valid state deviceDescriptor is -1 or an open descriptor, and it is negative iff the native side has never been initialised |
| Activity.ConnectOpensSession | app/src/main/java/com/example/libusbAndroidTest/MainActivity.java:96-108 | connecting shows the device's label, initialises the native side with the connection's descriptor as its next call, and stores that descriptor; requests, preferences and the volume text are untouched |
| Activity.PermissionConnectsOnlyOnGrant | app/src/main/java/com/example/libusbAndroidTest/MainActivity.java:70-81 | a broadcast with another action, a denial, a missing device or a non-matching device changes nothing; a grant for the adapter is exactly AfterConnect with its descriptor, and shows "Apple Dongle" |
| Activity.SetVolumeSendsOnlyTokens | app/src/main/java/com/example/libusbAndroidTest/MainActivity.java:224-231 | setDeviceVolume throws iff the text is not a volume token and then changes nothing; otherwise the whole new state is the old one plus exactly one call carrying the token's big-endian bytes |
| Activity.ApplyEffects | app/src/main/java/com/example/libusbAndroidTest/MainActivity.java:169-192 | no session: nothing changes; rejected token: only the text field is cleared; accepted token: the whole new state is the old one plus one send of its bytes to the session, the token stored, and a preference write only when it differs from the stored value |
| Activity.ApplyTwiceSendsTwice | app/src/main/java/com/example/libusbAndroidTest/MainActivity.java:186-191 | pressing apply twice sends the payload twice, and the second press writes no preference |
| Activity.ScanPlanShape | app/src/main/java/com/example/libusbAndroidTest/MainActivity.java:124-133 | the scan takes one action per device before the first mismatch (connect if permission is held, otherwise a request) and none after it |
| Activity.ScanIgnoresDevicesAfterMismatch | app/src/main/java/com/example/libusbAndroidTest/MainActivity.java:125 | devices listed after a non-matching device never change what the scan does |
| Activity.ScanExample | app/src/main/java/com/example/libusbAndroidTest/MainActivity.java:124-128 | a foreign device listed before the adapter hides it; listed after it, it does not |
| Activity.ScanShowsOnlyDongleLabel | app/src/main/java/com/example/libusbAndroidTest/MainActivity.java:98-100 | the scan connects only to matching devices, so the label it leaves is the one shown before or "Apple Dongle"; the fallback label never appears |
| Activity.ActionWithoutException | app/src/main/java/com/example/libusbAndroidTest/MainActivity.java:126-132 | when auto-apply cannot fail, one scan action returns normally and adds only its own request or descriptor |
| Activity.RunWithoutException | app/src/main/java/com/example/libusbAndroidTest/MainActivity.java:124-133 | when auto-apply is off or the text is a valid token, the scan completes: every request is issued in order and the session field ends on the last connection |
| Activity.FirstConnect | app/src/main/java/com/example/libusbAndroidTest/MainActivity.java:126-128 | the position of the first connection among the scan's actions: every action before it is a request |
| Activity.RunStopsAtFailedAutoApply | app/src/main/java/com/example/libusbAndroidTest/MainActivity.java:110-133 | with auto-apply on and an invalid text, the first connection throws: the scan ends there with its descriptor stored, only the initialisation sent, and the requests before it issued |
| DeviceMatch.IsAppleDongle | app/src/main/java/com/example/libusbAndroidTest/MainActivity.java:87-89 | definition; its meaning is stated by MatchesExactlyTheDongle and ConstantsAreAppleIds |
| DeviceMatch.ParseInt | app/src/main/java/com/example/libusbAndroidTest/MainActivity.java:88 | the decimal value of one to nine digits, the texts Integer.parseInt accepts unsigned and without overflow; on "1452" and "4362", the only texts the activity parses, ConstantsAreAppleIds states the values |
| HexCodec.IsVolumeToken | app/src/main/java/com/example/libusbAndroidTest/MainActivity.java:227 | definition of the accepted text, four characters of [0-9A-Fa-f]; its meaning is stated by VolumeTokenPayload, SetVolumeSendsOnlyTokens and VolumeTokenExamples |
| HexCodec.Pack | app/src/main/java/com/example/libusbAndroidTest/MainActivity.java:207-215 | an even-length hexadecimal text packs into half as many bytes; the contents are stated by PackAt, PackValue, PackToHex and ToHexPack |
| HexCodec.UpperCase | app/src/main/java/com/example/libusbAndroidTest/MainActivity.java:96-97 | ASCII upper-casing, which is what String.toUpperCase does to hexadecimal text in every locale; its meaning is stated by HexValueIgnoresCase and ToHexPack |
| HexCodec.ToUpperCase | app/src/main/java/com/example/libusbAndroidTest/MainActivity.java:96-97 | the upper-cased text has the same length and is UpperCase applied at every position |
| HexCodec.ToHexPackIndex | app/src/main/java/com/example/libusbAndroidTest/MainActivity.java:207-215 | position j of the printed packed bytes is the upper-cased character j of the input |
| DeviceLabel.Label | app/src/main/java/com/example/libusbAndroidTest/MainActivity.java:94-99 | definition; its meaning is stated by LabelFallback, LabelNamesOnlyTheDongle and FallbackLabelIdentifiesDevice |
| Activity.GetString | app/src/main/java/com/example/libusbAndroidTest/MainActivity.java:149 | definition of SharedPreferences.getString (also at :187); its meaning is stated by the constructor and ApplyEffects |
| Activity.Initial | app/src/main/java/com/example/libusbAndroidTest/MainActivity.java:148-151 | definition of the state onCreate sets up; its meaning is stated by InitialWf and the constructor |
| Activity.AfterSetVolume | app/src/main/java/com/example/libusbAndroidTest/MainActivity.java:224-233 | definition; its meaning is stated by SetVolumeSendsOnlyTokens and SetVolumeKeepsWf |
| Activity.AfterConnect | app/src/main/java/com/example/libusbAndroidTest/MainActivity.java:91-116 | definition; its meaning is stated by ConnectOpensSession, ConnectKeepsWf and RunStopsAtFailedAutoApply |
| Activity.AfterAction | app/src/main/java/com/example/libusbAndroidTest/MainActivity.java:126-132 | definition of one loop iteration; its meaning is stated by ActionWithoutException and ActionKeepsWf |
| Activity.ActionFor | app/src/main/java/com/example/libusbAndroidTest/MainActivity.java:126-132 | definition of the choice between connecting and requesting permission; its meaning is stated by ScanPlanShape |
| Activity.Run | app/src/main/java/com/example/libusbAndroidTest/MainActivity.java:124-133 | definition; its meaning is stated by RunKeepsWf, RunWithoutException and RunStopsAtFailedAutoApply |
| Activity.ScanPlan | app/src/main/java/com/example/libusbAndroidTest/MainActivity.java:124-133 | definition; its meaning is stated by ScanPlanShape, ScanIgnoresDevicesAfterMismatch and ScanExample |
| Activity.AfterPermission | app/src/main/java/com/example/libusbAndroidTest/MainActivity.java:68-84 | definition; its meaning is stated by PermissionConnectsOnlyOnGrant and PermissionKeepsWf |
| Activity.AfterApply | app/src/main/java/com/example/libusbAndroidTest/MainActivity.java:169-192 | definition; its meaning is stated by ApplyEffects, ApplyTwiceSendsTwice and ApplyKeepsWf |
| Activity.MainActivity.EditVolume | app/src/main/java/com/example/libusbAndroidTest/MainActivity.java:170 | the user edits the text field that applyButtonPressed and setDeviceVolume read; only the text changes and the invariant holds |
| Activity.MainActivity.SetAutoApply | app/src/main/java/com/example/libusbAndroidTest/MainActivity.java:110 | the user toggles the auto-apply box that connectDevice reads; only that flag changes and the invariant holds |
| Activity.MainActivity.SetQuitAfterApply | app/src/main/java/com/example/libusbAndroidTest/MainActivity.java:112 | the user toggles the quit-after-apply box that connectDevice reads; only that flag changes and the invariant holds |
| Activity.MainActivity.constructor | app/src/main/java/com/example/libusbAndroidTest/MainActivity.java:148-151 | the object starts with deviceDescriptor -1, the stored volume (default "007f") in the text field, the check boxes from the preferences, and empty logs |
| Activity.MainActivity.SetVolume | app/src/main/java/com/example/libusbAndroidTest/MainActivity.java:224-233 | validates the text, packs it with HexStringToByteArray and sends it; the new state and outcome are AfterSetVolume's |
| Activity.MainActivity.ConnectDevice | app/src/main/java/com/example/libusbAndroidTest/MainActivity.java:91-116 | label, native initialisation, session field, then auto-apply and quit; the new state and outcome are AfterConnect's, and the invariant holds |
| Activity.MainActivity.CheckUsbDevices | app/src/main/java/com/example/libusbAndroidTest/MainActivity.java:118-134 | the loop with its early return does exactly Run of ScanPlan over the device list, and the invariant holds |
| Activity.MainActivity.OnReceive | app/src/main/java/com/example/libusbAndroidTest/MainActivity.java:68-84 | the receiver's nested checks give AfterPermission's state and outcome, and the invariant holds |
| Activity.MainActivity.ApplyButtonPressed | app/src/main/java/com/example/libusbAndroidTest/MainActivity.java:169-192 | the guard, the caught exception and the conditional preference write give AfterApply's state, and the invariant holds |

## Left out

- User interface: widget binding, background colours, Toast messages, `Log`
  output, and the RECORD_AUDIO permission button and callback. None of them
  affects the session or what reaches the device. The check boxes do: their live
  state decides whether a connection sends the volume and quits, and the user
  changes them through `SetAutoApply` and `SetQuitAfterApply`. What the check
  box handlers write back to the preferences is not modelled, because nothing in
  the core reads it after start-up.
- `finishAndRemoveTask` is recorded as a `finishing` flag; the activity's
  shutdown is not modelled.
- Native code: `initializeNativeDevice` and `setDeviceVolume(int, byte[])` are
  opaque. The model records their calls; it does not model what they do or the
  device name string `initializeNativeDevice` returns, which the activity stores
  in a field nothing reads.
- Platform calls `getInterface(0)`, `getEndpoint(0)`, `openDevice`,
  `claimInterface` and `getFileDescriptor` are one input: a non-negative
  descriptor. A null connection, a failed claim and the exceptions they would
  raise are not modelled. The same holds for `PendingIntent` creation and
  receiver registration.
- `getDeviceList()` is a `HashMap`. The scan takes its values as a sequence, in
  whatever order the platform iterates them.
- `synchronized (this)` and the asynchronous delivery of broadcasts: each
  handler runs as one atomic method call.
- What happens after an exception leaves `onCreate` or `onReceive`: it is
  returned as the outcome `ThrewIllegalArgument`, and the resulting crash is not
  modelled.
- `SharedPreferences.Editor.apply` writes asynchronously. It is modelled as an
  immediate update of a string map plus a ghost count of writes. The boolean
  preferences are constructor parameters.
- DeviceMatch.ParseInt: covers unsigned texts of one to nine digits. Signs, ten-digit
  values and the `NumberFormatException` of other texts are not modelled; the
  activity parses only its two four-digit constants.
- `Character.digit` and `toUpperCase` are modelled on ASCII. The accepted
  alphabet `[0-9A-Fa-f]` is ASCII, and toHexString produces only ASCII, so this
  matters for no accepted input. Locale-dependent upper-casing, such as the
  Turkish dotted capital I, cannot arise on hexadecimal text, which has no `i`.
- HexCodec.HexStringToByteArray: requires even length and hexadecimal digits. Odd-length
  or non-hex input, which would throw or fold -1 digits into the bytes, is never
  passed by the activity, whose only caller validates first.
- The Java `byte` cast is modelled as the unsigned value 0..255 of the same
  eight bits.
- DeviceMatch.IsAppleDongle: compares with the numeric constants
  `ConstantsAreAppleIds` proves the decimal texts parse to. It does not re-parse
  the texts on each call as the activity does; the result is the same.
- DeviceLabel.Label: the function carries no postcondition of its own. Its
  meaning is stated by `LabelFallback` and `LabelNamesOnlyTheDongle`.
- Activity.MainActivity.SetVolume: requires the descriptor passed to be the
  current session's. Both callers pass that descriptor (`connectDevice` right
  after storing it, `applyButtonPressed` after checking it is non-negative).
- Releasing or replacing a session: the activity never closes a connection, so
  the model has no release and no "at most one session" property.
