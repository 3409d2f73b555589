# BLE HID-over-GATT peripheral, modelled in Dafny

This project models the core of an Android library that turns a phone into a Bluetooth
Low Energy HID device, either a keyboard or a mouse. The library:

- builds the standard GATT services: Device Information, Battery, and Human Interface
  Device with its report map and Report characteristics;
- registers those services one at a time, renames the adapter while it advertises, and
  restores the name afterwards;
- keeps a map of connected centrals, keyed by address;
- answers read and write requests from connected centrals;
- drains a queue of input reports on a timer, notifying every connected central;
- as a keyboard, turns text into key-down and key-up reports;
- as a mouse, turns movements and clicks into reports.

The modules follow the source:

- `Common`: shared types.
- `BleUuid` (`util/BleUuidUtils.kt`): 16-bit Bluetooth UUIDs. It expands a short value
  against the Bluetooth Base UUID, extracts it again, and matches UUIDs.
- `Gatt`: the Android GATT objects the engine mutates, as classes.
- `HidDescriptor`: the HID short-item grammar used to write report maps. It includes a
  parser and a walk that checks the collection nesting and the report sizes.
- `GattRouter`: the pure decisions of the read and write callbacks.
- `ServiceQueue`: the add-one-service-at-a-time queue.
- `ConnectionRegistry`: the address-keyed device map.
- `AdapterName`: saving and restoring the adapter name.
- `HidEngine`: the abstract `HidPeripheral` class.
  - It is a Dafny class whose fields are the Kotlin fields.
  - Its methods are the lifecycle steps and the GATT server callbacks.
  - It runs the corrected rules of the two engine rows under "## Findings" (the saved adapter
    name and the Report Reference type); the rules as written are modelled beside them.
  - An `effects` field records, in order, the calls the engine makes on the Android stack
    (set name, open server, add service, notify, send response, …).
- `KeyLayout`: the US layout table of `KeyboardPeripheral.kt`.
- `Keyboard` (`KeyboardPeripheral.kt`): the keyboard report map, the keyboard reports and
  LED decoding.
- `Mouse` (`MousePeripheral.kt`): the mouse report map, the movement reports and clicks.

## Model

| member | source | states |
|---|---|---|
| BleUuid.BaseLsbAsWrittenDiffers | android/src/main/java/jp/kshoji/blehid/util/BleUuidUtils.kt:21 | the signed literal used as the base UUID's low word is 0x800000001155B4FB, while the Bluetooth Base UUID's low word read as a signed Long is -9223371485494954757; the two differ |
| BleUuid.FromShortValue | android/src/main/java/jp/kshoji/blehid/util/BleUuidUtils.kt:52-54 | the expanded UUID has the Base UUID's low word, keeps the base's high-word bits outside the 16-bit field, and carries the low 16 bits of the value in that field |
| BleUuid.FromShortValueInjective | android/src/main/java/jp/kshoji/blehid/util/BleUuidUtils.kt:52-54 | two short values give the same UUID exactly when their low 16 bits agree |
| BleUuid.ToShortValue | android/src/main/java/jp/kshoji/blehid/util/BleUuidUtils.kt:73-75 | the extracted value is always within 0..0xFFFF |
| BleUuid.ToShortValueFromShortValue | android/src/main/java/jp/kshoji/blehid/util/BleUuidUtils.kt:52-75 | extracting the value of an expanded short UUID gives back the low 16 bits of the value |
| BleUuid.AsWrittenRejectsEveryShortUuid | android/src/main/java/jp/kshoji/blehid/util/BleUuidUtils.kt:103-110 | with the low word as written, no UUID built by fromShortValue is recognised as short |
| BleUuid.AsWrittenAcceptsForeignUuid | android/src/main/java/jp/kshoji/blehid/util/BleUuidUtils.kt:103-110 | with the low word as written, a UUID outside the Base UUID range is recognised as short |
| BleUuid.AsWrittenMissesFieldMatch | android/src/main/java/jp/kshoji/blehid/util/BleUuidUtils.kt:84-95 | with the low word as written, 0x2A4D fails to match a full UUID that carries 0x2A4D in its field, which the corrected matcher accepts |
| BleUuid.IsShortUuidIffFromShortValue | android/src/main/java/jp/kshoji/blehid/util/BleUuidUtils.kt:97-110 | (corrected base) a UUID is short exactly when some short value expands to it |
| BleUuid.MatchesIsReflexiveAndSymmetric | android/src/main/java/jp/kshoji/blehid/util/BleUuidUtils.kt:84-95 | for any base word, the mistyped literal included, every UUID matches itself and matching does not depend on argument order |
| BleUuid.MatchesShortValues | android/src/main/java/jp/kshoji/blehid/util/BleUuidUtils.kt:84-95 | for any base word, two UUIDs built by fromShortValue match exactly when their low 16 bits agree: as written they are compared whole, as documented by their fields |
| BleUuid.ShortMatchIsEquality | android/src/main/java/jp/kshoji/blehid/util/BleUuidUtils.kt:84-95 | for any base word, two UUIDs that are short for it match exactly when they are equal |
| BleUuid.MatchesShortAgainstAny | android/src/main/java/jp/kshoji/blehid/util/BleUuidUtils.kt:84-95 | (corrected base) a short UUID matches any UUID whose 16-bit field carries the same value, whatever its other bits |
| BleUuid.MatchesShortAgainstAnyAsWritten | android/src/main/java/jp/kshoji/blehid/util/BleUuidUtils.kt:84-95 | as written, a UUID built by fromShortValue matches only itself, or a UUID that the mistyped literal makes short and that carries the same field |
| BleUuid.ToShortValueNeverMinusOne | android/src/main/java/jp/kshoji/blehid/util/BleUuidUtils.kt:67-75 | a UUID that is not short still gets a value in 0..0xFFFF (0x5678 for 0x123456789ABCDEF0-0), never the documented -1 |
| BleUuid.ShortValueOf | android/src/main/java/jp/kshoji/blehid/util/BleUuidUtils.kt:67-75 | (corrected) the value is -1 exactly when the UUID is not short, and otherwise lies within 0..0xFFFF |
| BleUuid.ShortValueOfFromShortValue | android/src/main/java/jp/kshoji/blehid/util/BleUuidUtils.kt:52-75 | the corrected extraction undoes fromShortValue on the low 16 bits |
| Gatt.GattCharacteristic.constructor | android/src/main/java/jp/kshoji/blehid/HidPeripheral.kt:219-223 | a new characteristic has the given UUID and properties, no value and no descriptors |
| Gatt.GattCharacteristic.AddDescriptor | android/src/main/java/jp/kshoji/blehid/HidPeripheral.kt:258 | the descriptor is appended and the value is unchanged |
| Gatt.GattDescriptor.constructor | android/src/main/java/jp/kshoji/blehid/HidPeripheral.kt:254-257 | a new descriptor has the given UUID, belongs to the given characteristic and has no value |
| HidDescriptor.Prefix | android/src/main/java/jp/kshoji/blehid/HidPeripheral.kt:50-69 | each item's tag byte leaves the two size bits clear |
| HidDescriptor.TagOf | android/src/main/java/jp/kshoji/blehid/HidPeripheral.kt:50-69 | a recognised prefix is exactly the tag byte of the item it names |
| HidDescriptor.TagOfPrefix | android/src/main/java/jp/kshoji/blehid/HidPeripheral.kt:50-69 | every item builder's prefix is recognised as that item |
| HidDescriptor.Tag | android/src/main/java/jp/kshoji/blehid/HidPeripheral.kt:50-69 | for a size below 4, the byte carries the size in its low two bits and the item's prefix in the rest |
| HidDescriptor.LsbMsbSplit | android/src/main/java/jp/kshoji/blehid/HidPeripheral.kt:71-72 | the MSB and LSB helpers together give back the low 16 bits of the value |
| HidDescriptor.SizeCode | android/src/main/java/jp/kshoji/blehid/HidPeripheral.kt:50-69 | the size code fits in two bits and stands for 0, 1, 2 or 4 data bytes |
| HidDescriptor.ParseSerialize | android/src/main/java/jp/kshoji/blehid/HidPeripheral.kt:50-69 | a report map written from short items parses back to the same items |
| HidDescriptor.ScanShort | android/src/main/java/jp/kshoji/blehid/HidPeripheral.kt:50-69 | a walk that ends well formed has seen only short items |
| HidDescriptor.ScanLength | android/src/main/java/jp/kshoji/blehid/HidPeripheral.kt:50-69 | the walk counts exactly the bytes of the written report map |
| GattRouter.CharacteristicRead | android/src/main/java/jp/kshoji/blehid/HidPeripheral.kt:587-609 | a read is served exactly for the readable characteristics, and otherwise refused with READ_NOT_PERMITTED |
| GattRouter.SliceAtOffset | android/src/main/java/jp/kshoji/blehid/HidPeripheral.kt:611-619 | the response is the value from the offset on, with the offset clamped to the value |
| GattRouter.SlicesReassemble | android/src/main/java/jp/kshoji/blehid/HidPeripheral.kt:611-619 | the bytes before an offset followed by the slice served at that offset give back the value, and offset 0 serves all of it |
| GattRouter.Respond | android/src/main/java/jp/kshoji/blehid/HidPeripheral.kt:611-625 | a served read answers SUCCESS with the slice at the offset; a refused read answers its status with no value |
| GattRouter.ReportReferenceAsWritten | android/src/main/java/jp/kshoji/blehid/HidPeripheral.kt:649-679 | the Report Reference is two bytes, report ID 1, and says Input exactly for the input report characteristic |
| GattRouter.FeatureReportAnnouncedAsOutput | android/src/main/java/jp/kshoji/blehid/HidPeripheral.kt:663-671 | as written, both the output and the feature report characteristic announce type Output (2) |
| GattRouter.ReportReference | android/src/main/java/jp/kshoji/blehid/HidPeripheral.kt:649-679 | (corrected) Input for the input report; otherwise Output exactly when the characteristic takes write-without-response, and Feature exactly when it does not |
| GattRouter.ReportReferenceMatchesRole | android/src/main/java/jp/kshoji/blehid/HidPeripheral.kt:306-360 | each of the three Report characteristics set up by the HID service announces its own type: Input, Output, Feature |
| GattRouter.DescriptorRead | android/src/main/java/jp/kshoji/blehid/HidPeripheral.kt:633-684 | the CCCD and the Report Reference of a Report characteristic are served, the latter with the corrected ReportReference; other Report References fail with GATT_FAILURE; other descriptors are refused with READ_NOT_PERMITTED |
| GattRouter.CharacteristicWrite | android/src/main/java/jp/kshoji/blehid/HidPeripheral.kt:708-748 | the write succeeds exactly for a Report characteristic, or for a non-empty write to Protocol Mode or HID Control Point; it stores the incoming bytes only on success; it delivers to onOutputReport exactly for a Report characteristic |
| GattRouter.DescriptorWrite | android/src/main/java/jp/kshoji/blehid/HidPeripheral.kt:761-785 | only a CCCD write of the enable-notification or disable-notification value succeeds; exactly a successful write is stored; no output report is ever delivered |
| GattRouter.WriteResponseValue | android/src/main/java/jp/kshoji/blehid/HidPeripheral.kt:750-756 | the response echoes the written bytes exactly when the status is SUCCESS |
| GattRouter.CharacteristicWriteThenRead | android/src/main/java/jp/kshoji/blehid/HidPeripheral.kt:719-732 | after a successful write to Protocol Mode or Report, a read returns the written bytes |
| GattRouter.DefaultCharacteristicValues | android/src/main/java/jp/kshoji/blehid/HidPeripheral.kt:594-602 | unwritten, Protocol Mode reads as Report Protocol (1) and a Report reads as empty |
| GattRouter.ConfigurationWriteThenRead | android/src/main/java/jp/kshoji/blehid/HidPeripheral.kt:641-648 | a CCCD reads back what a successful write stored, and reads as notifications-disabled before any write |
| GattRouter.ConfigurationStaysValid | android/src/main/java/jp/kshoji/blehid/HidPeripheral.kt:771-785 | a CCCD whose stored value is notifications enabled or disabled keeps a two-byte value after any write |
| ServiceQueue.Enqueue | android/src/main/java/jp/kshoji/blehid/HidPeripheral.kt:199-214 | the service joins the end of the queue; it is submitted at once exactly when the queue was empty and the server is open |
| ServiceQueue.Acknowledge | android/src/main/java/jp/kshoji/blehid/HidPeripheral.kt:798-816 | the head leaves the queue; the next one is submitted exactly when one remains and the server is open; otherwise all services are added |
| ServiceQueue.DrainSubmitsInOrder | android/src/main/java/jp/kshoji/blehid/HidPeripheral.kt:798-816 | acknowledging a queue to the end submits the rest in order, then reports all added |
| ServiceQueue.EnqueueAllSubmitsFirst | android/src/main/java/jp/kshoji/blehid/HidPeripheral.kt:199-214 | adding several services queues them all, and only the first is submitted, and only if the queue was empty |
| ServiceQueue.RegisterThreeServices | android/src/main/java/jp/kshoji/blehid/HidPeripheral.kt:385-388 | registering Device Information, Battery and HID submits Device Information first; the acknowledgements then submit Battery, then HID, then finish |
| ConnectionRegistry.Apply | android/src/main/java/jp/kshoji/blehid/HidPeripheral.kt:528-573 | only the event's address changes; it is present afterwards exactly when the event is a successful connection; the map stays keyed by address |
| ConnectionRegistry.MapFollowsLastEvent | android/src/main/java/jp/kshoji/blehid/HidPeripheral.kt:528-573 | after any events, an address is present exactly when its last connect or disconnect event was a successful connection, or when it was present and had no such event |
| ConnectionRegistry.ApplyAllKeepsKeys | android/src/main/java/jp/kshoji/blehid/HidPeripheral.kt:536-569 | any sequence of events keeps every device stored under its own address |
| ConnectionRegistry.Devices | android/src/main/java/jp/kshoji/blehid/HidPeripheral.kt:522-524 | the set holds exactly the devices of the map, as many as the map has entries |
| ConnectionRegistry.DevicesOfKeyedMap | android/src/main/java/jp/kshoji/blehid/HidPeripheral.kt:522-524 | a map keyed by address has as many distinct devices as keys |
| AdapterName.RenameRequest | android/src/main/java/jp/kshoji/blehid/HidPeripheral.kt:426-435 | the adapter is renamed exactly when the device name is non-empty and differs from the current name |
| AdapterName.BeginAsWritten | android/src/main/java/jp/kshoji/blehid/HidPeripheral.kt:424-436 | as written, the saved name is always overwritten by the current one |
| AdapterName.Begin | android/src/main/java/jp/kshoji/blehid/HidPeripheral.kt:424-436 | (corrected) a name already saved is kept; an accepted non-empty rename takes effect |
| AdapterName.RestoreRequest | android/src/main/java/jp/kshoji/blehid/HidPeripheral.kt:451-463 | the restore renames exactly when a saved name exists and differs from the current one |
| AdapterName.Restore | android/src/main/java/jp/kshoji/blehid/HidPeripheral.kt:451-463 | the saved name is cleared; if it was set and the rename is accepted, the adapter bears it again |
| AdapterName.RestoreIsIdempotent | android/src/main/java/jp/kshoji/blehid/HidPeripheral.kt:451-463 | restoring twice is restoring once, and the second restore asks for nothing |
| AdapterName.RestoreAfterStarts | android/src/main/java/jp/kshoji/blehid/HidPeripheral.kt:424-463 | (corrected) after any number of starts, a restore brings back the name from before the first start |
| AdapterName.BeginAllKeepsFirstName | android/src/main/java/jp/kshoji/blehid/HidPeripheral.kt:424-436 | (corrected) the name saved after several starts is the one saved by the first |
| AdapterName.AsWrittenLosesOriginalName | android/src/main/java/jp/kshoji/blehid/HidPeripheral.kt:425 | as written, two starts without a restore between leave the adapter with the device name after the restore |
| AdapterName.StartsThenRestoreKeepsOriginalName | android/src/main/java/jp/kshoji/blehid/HidPeripheral.kt:425 | in the corrected model, the same two starts and one restore give back the original name |
| HidEngine.NotifiedDevicesAreNotified | android/src/main/java/jp/kshoji/blehid/HidPeripheral.kt:172-180 | a device is among the notified ones exactly when some recorded effect notifies it |
| HidEngine.NotifiedDevicesBound | android/src/main/java/jp/kshoji/blehid/HidPeripheral.kt:172-180 | no more devices are notified than effects recorded |
| HidEngine.EachDeviceNotifiedOnce | android/src/main/java/jp/kshoji/blehid/HidPeripheral.kt:172-180 | one timer run notifies every connected device with the report, and no device twice |
| HidEngine.Adapter.constructor | android/src/main/java/jp/kshoji/blehid/HidPeripheral.kt:125-141 | the adapter has the given name, state and capabilities |
| HidEngine.Adapter.SetName | android/src/main/java/jp/kshoji/blehid/HidPeripheral.kt:426-435 | the name changes exactly when the adapter accepts the rename, and nothing else changes |
| HidEngine.HidPeripheral.constructor | android/src/main/java/jp/kshoji/blehid/HidPeripheral.kt:29-141 | the settings are those given; the device information has its defaults; there is no server, no devices, no queue, no saved name and no timer |
| HidEngine.HidPeripheral.AddInputReport | android/src/main/java/jp/kshoji/blehid/HidPeripheral.kt:106-110 | a non-null, non-empty report joins the end of the queue; nothing else changes |
| HidEngine.HidPeripheral.Tick | android/src/main/java/jp/kshoji/blehid/HidPeripheral.kt:149-193 | one timer run takes the head of the queue; when the input report characteristic and the server exist, it sets the characteristic's value and notifies every connected device once |
| HidEngine.HidPeripheral.Notifications | android/src/main/java/jp/kshoji/blehid/HidPeripheral.kt:172-180 | the loop notifies each device once with the report |
| HidEngine.HidPeripheral.SetupReportTimer | android/src/main/java/jp/kshoji/blehid/HidPeripheral.kt:143-196 | the timer runs afterwards, and nothing else changes |
| HidEngine.HidPeripheral.AddService | android/src/main/java/jp/kshoji/blehid/HidPeripheral.kt:199-214 | the queue and the effects follow ServiceQueue.Enqueue |
| HidEngine.HidPeripheral.StartBleAdvertising | android/src/main/java/jp/kshoji/blehid/HidPeripheral.kt:398-448 | with an advertiser, the name is saved by the corrected AdapterName.Begin, the rename and the start are requested, and the timer runs; without one, nothing happens |
| HidEngine.HidPeripheral.RestoreAdapterName | android/src/main/java/jp/kshoji/blehid/HidPeripheral.kt:451-463 | the names follow AdapterName.Restore, and the rename is requested only when needed |
| HidEngine.HidPeripheral.StopAdvertisingInternal | android/src/main/java/jp/kshoji/blehid/HidPeripheral.kt:473-495 | the advertiser is stopped, the server closed, the queue of services cleared, the timer cancelled and the name restored |
| HidEngine.HidPeripheral.StopAdvertising | android/src/main/java/jp/kshoji/blehid/HidPeripheral.kt:466-470 | after a stop, no server, no pending services, no timer and no saved name remain |
| HidEngine.HidPeripheral.SetUpDeviceInformationService | android/src/main/java/jp/kshoji/blehid/HidPeripheral.kt:217-240 | the service holds the readable manufacturer, model number and serial number characteristics, in this order |
| HidEngine.HidPeripheral.SetUpBatteryService | android/src/main/java/jp/kshoji/blehid/HidPeripheral.kt:243-261 | the service holds one readable, notifying battery level at 100 with a CCCD |
| HidEngine.HidPeripheral.NewReportCharacteristic | android/src/main/java/jp/kshoji/blehid/HidPeripheral.kt:306-360 | a Report characteristic with the given properties, optionally a CCCD, and a Report Reference last |
| HidEngine.HidPeripheral.HidBaseCharacteristics | android/src/main/java/jp/kshoji/blehid/HidPeripheral.kt:271-302 | HID Information, Report Map, Protocol Mode (preset to Report Protocol) and HID Control Point, with their properties |
| HidEngine.HidPeripheral.ReportCharacteristics | android/src/main/java/jp/kshoji/blehid/HidPeripheral.kt:306-360 | one Report characteristic per needed report, in the order input, output, feature, each with its properties |
| HidEngine.HidPeripheral.SetUpHidService | android/src/main/java/jp/kshoji/blehid/HidPeripheral.kt:264-362 | the HID service has the four base characteristics, then the Report characteristics; the input report characteristic is remembered |
| HidEngine.HidPeripheral.StartAdvertising | android/src/main/java/jp/kshoji/blehid/HidPeripheral.kt:365-390 | a running peripheral is stopped first; the server is open afterwards exactly when the adapter is enabled and a server is available, and then the three services are registering |
| HidEngine.HidPeripheral.OpenServerAndRegister | android/src/main/java/jp/kshoji/blehid/HidPeripheral.kt:372-388 | the server opens exactly when the adapter allows it, and then the services are registering |
| HidEngine.HidPeripheral.RegisterServices | android/src/main/java/jp/kshoji/blehid/HidPeripheral.kt:385-388 | Device Information is submitted, and Battery and HID wait in the queue |
| HidEngine.HidPeripheral.QueueBatteryAndHid | android/src/main/java/jp/kshoji/blehid/HidPeripheral.kt:387-388 | Battery and HID join the queue behind the submitted service, without being submitted |
| HidEngine.HidPeripheral.OnServiceAdded | android/src/main/java/jp/kshoji/blehid/HidPeripheral.kt:798-816 | the queue follows ServiceQueue.Acknowledge; once all services are added, advertising starts, saving the name by the corrected AdapterName.Begin |
| HidEngine.HidPeripheral.OnStartSuccess | android/src/main/java/jp/kshoji/blehid/HidPeripheral.kt:499-502 | the report timer runs, and nothing else changes |
| HidEngine.HidPeripheral.OnStartFailure | android/src/main/java/jp/kshoji/blehid/HidPeripheral.kt:504-519 | the timer is cancelled and the adapter name restored, whatever the error code |
| HidEngine.HidPeripheral.OnConnectionStateChange | android/src/main/java/jp/kshoji/blehid/HidPeripheral.kt:528-577 | the device map follows ConnectionRegistry.Apply; a connection stops advertising and restores the name; the last disconnection restarts advertising, saving the name by the corrected AdapterName.Begin; the callback is told of every event |
| HidEngine.HidPeripheral.DeviceDropped | android/src/main/java/jp/kshoji/blehid/HidPeripheral.kt:559-573 | the device leaves the map; when a disconnection leaves the map empty, advertising restarts, saving the name by the corrected AdapterName.Begin |
| HidEngine.HidPeripheral.DeviceConnected | android/src/main/java/jp/kshoji/blehid/HidPeripheral.kt:535-557 | the device enters the map under its address, advertising stops, the name is restored, and bonding is requested when the device is not bonded |
| HidEngine.HidPeripheral.OnCharacteristicReadRequest | android/src/main/java/jp/kshoji/blehid/HidPeripheral.kt:580-630 | one response is sent, as GattRouter.Respond and CharacteristicRead decide; nothing else changes |
| HidEngine.HidPeripheral.OnDescriptorReadRequest | android/src/main/java/jp/kshoji/blehid/HidPeripheral.kt:633-705 | one response is sent, as GattRouter.Respond and DescriptorRead decide (with the corrected Report Reference); nothing else changes |
| HidEngine.HidPeripheral.OnCharacteristicWriteRequest | android/src/main/java/jp/kshoji/blehid/HidPeripheral.kt:708-758 | the value is stored and delivered as CharacteristicWrite decides; a response is sent only when asked for, echoing the value on success |
| HidEngine.HidPeripheral.OnDescriptorWriteRequest | android/src/main/java/jp/kshoji/blehid/HidPeripheral.kt:761-795 | the value is stored as DescriptorWrite decides; a response is sent only when asked for |
| KeyLayout.Modifier | android/src/main/java/jp/kshoji/blehid/KeyboardPeripheral.kt:92-97 | a character needs either Shift or no modifier |
| KeyLayout.KeyCode | android/src/main/java/jp/kshoji/blehid/KeyboardPeripheral.kt:100-139 | a character's key code is 0 (no key) or a usage from A (0x04) to Slash (0x38) |
| KeyLayout.TypingIsInvertible | android/src/main/java/jp/kshoji/blehid/KeyboardPeripheral.kt:92-139 | every character with a key is typed back by its modifier and key on a US layout, so the table sends the character itself |
| KeyLayout.ShiftedCharactersHaveKeys | android/src/main/java/jp/kshoji/blehid/KeyboardPeripheral.kt:92-139 | a character needing Shift always has a key |
| KeyLayout.UnlistedCharactersHaveNoKey | android/src/main/java/jp/kshoji/blehid/KeyboardPeripheral.kt:100-139 | control characters other than newline, tab and backspace, and characters beyond '~', have no key and no modifier |
| Keyboard.ReportMapWalk | android/src/main/java/jp/kshoji/blehid/KeyboardPeripheral.kt:55-89 | walking the keyboard report map ends with the collections closed, 64 input bits after the report ID and 8 output bits |
| Keyboard.ReportMapWellFormed | android/src/main/java/jp/kshoji/blehid/KeyboardPeripheral.kt:55-89 | the 65-byte keyboard report map parses into its items, nests properly, and declares input and output reports as long as the ones sent and read |
| Keyboard.KeyDownReport | android/src/main/java/jp/kshoji/blehid/KeyboardPeripheral.kt:172-186 | a key report is always nine bytes long |
| Keyboard.Recognised | android/src/main/java/jp/kshoji/blehid/KeyboardPeripheral.kt:155-165 | the characters kept from a text all have a key, and there are no more of them than in the text |
| Keyboard.TextReportsAlternate | android/src/main/java/jp/kshoji/blehid/KeyboardPeripheral.kt:155-165 | sending a text yields two reports per recognised character: its key-down, then all keys released |
| Keyboard.HiIsFourReports | android/src/main/java/jp/kshoji/blehid/KeyboardPeripheral.kt:155-165 | "Hi" yields Shift+H, release, I, release |
| Keyboard.HostCharsOfReports | android/src/main/java/jp/kshoji/blehid/KeyboardPeripheral.kt:172-196 | a host reads a key-down report as the character its modifier and key type, and the release report as nothing |
| Keyboard.SendKeysRoundTrip | android/src/main/java/jp/kshoji/blehid/KeyboardPeripheral.kt:155-196 | a host reading the reports of a text types back exactly the text's recognised characters |
| Keyboard.LedStatus | android/src/main/java/jp/kshoji/blehid/KeyboardPeripheral.kt:198-220 | an LED byte is found exactly for a one-byte report (that byte) or a longer report starting with report ID 1 (its second byte) |
| Keyboard.LedReportReadsBack | android/src/main/java/jp/kshoji/blehid/KeyboardPeripheral.kt:198-220 | an output report laid out as the report map declares reads back its LED byte |
| Keyboard.KeyboardPeripheral.constructor | android/src/main/java/jp/kshoji/blehid/KeyboardPeripheral.kt:14-20 | a keyboard needs input and output reports, no feature report, sends every 20 ms and serves the keyboard report map |
| Keyboard.KeyboardPeripheral.SendKeyDown | android/src/main/java/jp/kshoji/blehid/KeyboardPeripheral.kt:172-186 | exactly the key-down report is queued, and nothing else changes |
| Keyboard.KeyboardPeripheral.SendKeyUp | android/src/main/java/jp/kshoji/blehid/KeyboardPeripheral.kt:191-196 | exactly the all-keys-released report is queued |
| Keyboard.KeyboardPeripheral.SendKeys | android/src/main/java/jp/kshoji/blehid/KeyboardPeripheral.kt:155-165 | the queue grows by the text's reports (see TextReportsAlternate and SendKeysRoundTrip) |
| Mouse.MouseReportMapWalk | android/src/main/java/jp/kshoji/blehid/MousePeripheral.kt:33-62 | walking the mouse report map ends with the collections closed and 32 input bits after the report ID |
| Mouse.MouseReportMapWellFormed | android/src/main/java/jp/kshoji/blehid/MousePeripheral.kt:33-62 | the 54-byte mouse report map parses into its items, nests properly, declares no output report, and declares an input report as long as the one sent |
| Mouse.AxesLogicalRange | android/src/main/java/jp/kshoji/blehid/MousePeripheral.kt:55-56 | the axes are declared from -127 to 127 |
| Mouse.ToByte | android/src/main/java/jp/kshoji/blehid/MousePeripheral.kt:81-83 | the narrowed byte, read as signed, is congruent to the value modulo 256 and lies in -128..127 |
| Mouse.SmallDeltasSurvive | android/src/main/java/jp/kshoji/blehid/MousePeripheral.kt:81-83 | a delta in -128..127 survives the narrowing unchanged |
| Mouse.NarrowingTruncates | android/src/main/java/jp/kshoji/blehid/MousePeripheral.kt:81-83 | the narrowing wraps around instead of saturating: 200 becomes -56 and -200 becomes 56 |
| Mouse.DeltaBelowLogicalMinimum | android/src/main/java/jp/kshoji/blehid/MousePeripheral.kt:55-83 | a delta congruent to 128 is sent as -128, below the declared logical minimum |
| Mouse.MovementReport | android/src/main/java/jp/kshoji/blehid/MousePeripheral.kt:75-87 | a movement report is five bytes long, as the report map declares |
| Mouse.MovementRoundTrip | android/src/main/java/jp/kshoji/blehid/MousePeripheral.kt:75-87 | a host reads back the buttons exactly and each delta modulo 256; deltas in -128..127 come back exactly |
| Mouse.ClickReports | android/src/main/java/jp/kshoji/blehid/MousePeripheral.kt:97-101 | a click reads as the buttons pressed with no movement, then all buttons released |
| Mouse.MousePeripheral.constructor | android/src/main/java/jp/kshoji/blehid/MousePeripheral.kt:13-19 | a mouse needs only an input report, sends every 10 ms and serves the mouse report map |
| Mouse.MousePeripheral.SendMovement | android/src/main/java/jp/kshoji/blehid/MousePeripheral.kt:75-87 | exactly the movement report is queued, and nothing else changes |
| Mouse.MousePeripheral.SendClick | android/src/main/java/jp/kshoji/blehid/MousePeripheral.kt:97-101 | the buttons-down report, then the buttons-up report, are queued |
| Mouse.MousePeripheral.OnOutputReport | android/src/main/java/jp/kshoji/blehid/MousePeripheral.kt:104-108 | an output report to a mouse changes nothing |

## Left out

- `fromString` and `parcelFromShortValue` (`BleUuidUtils.kt:36-43`, `:63-65`) are left out. One parses a UUID string with the Java library, and the other wraps the same UUID in an Android `ParcelUuid`. `fromShortValue`'s string formatting is modelled by the UUID it denotes.
- Logging is not modelled. That includes the whole of `onMtuChanged` and `onNotificationSent`, and every `Log` call.
- `SecurityException` catch paths and permission checks are left out. So is the catch-all around the timer task (`HidPeripheral.kt:190-192`). Every Android call is modelled as succeeding, except where the model's `Adapter` says otherwise.
- Threads are not modelled: the `Timer`, the `Handler` posts and the `ConcurrentLinkedQueue`. Each posted block runs as one atomic step. The timer is a flag, and `Tick` is one run of its task. `dataSendingRate` is kept as a value, with no timing attached.
- The advertise settings and advertise data (`HidPeripheral.kt:405-420`) are not modelled. Starting the advertiser is one effect without parameters.
- HidEngine.HidPeripheral.constructor requires an enabled adapter instead of modelling the `UnsupportedOperationException` thrown for a missing or disabled adapter (`HidPeripheral.kt:125-133`). So do the keyboard and mouse constructors.
- The lazy `getRemoteDevice` lookup behind `DUMMY_DEVICE_FOR_ERROR` is left out. The dummy device is the constant `HidEngine.DUMMY_DEVICE_FOR_ERROR`, with the same address, reported by `OpenServerAndRegister`. A device is a value of address and bond state, and two devices are the same exactly when they are equal.
- The HID Control Point commands (suspend, exit suspend) are accepted, but neither stored nor interpreted. The source only logs them.
- The keyboard's `onOutputReport` only logs the LED byte. The model decodes it (`Keyboard.LedStatus`), and the engine records the delivery as an effect.
- The mouse's `onOutputReport` only logs, and is modelled as changing nothing.
- Strings are stored as their UTF-8 bytes. Text is typed as a Dafny `string`, whose elements are Unicode scalar values where Kotlin iterates UTF-16 units. A character outside the Basic Multilingual Plane has no key in either reading, so the two send the same reports.
- The converse of `KeyLayout.TypingIsInvertible` is not proved. It would say that every legend on the US layout is reachable from the table.
- HidEngine.HidPeripheral.Tick leaves open the order in which devices are notified, because `getDevices()` returns a `HashSet`. Its ensures says that each connected device is notified exactly once.
- HidEngine.HidPeripheral.StartAdvertising states that earlier effects are kept and what the server and the service queue look like. The exact calls made while stopping a running peripheral are stated by `StopAdvertisingInternal` instead of being repeated here.
- HidEngine.HidPeripheral.OnStartFailure ignores the error code. In the source it only selects a log message.
- HidEngine.HidPeripheral.StartBleAdvertising saves the adapter name by the corrected `AdapterName.Begin`, keeping a name already saved. `HidPeripheral.kt:425` overwrites it on every start, which `AdapterName.BeginAsWritten` and `AdapterName.AsWrittenLosesOriginalName` model.
- HidEngine.HidPeripheral.OnServiceAdded starts advertising through `StartBleAdvertising`, so it saves the name by the corrected rule, not by the overwrite at `HidPeripheral.kt:425`.
- HidEngine.HidPeripheral.OnConnectionStateChange restarts advertising after the last disconnection through `StartBleAdvertising`. It therefore keeps the name saved before the first start, where the source saves the name current at the restart.
- HidEngine.HidPeripheral.DeviceDropped restarts advertising with the corrected name saving, for the same reason.
- GattRouter.DescriptorRead announces a non-input Report characteristic by the corrected `ReportReference`: Feature (3) for the feature report. `HidPeripheral.kt:663-671` announces it as Output (2), which `GattRouter.ReportReferenceAsWritten` and `GattRouter.FeatureReportAnnouncedAsOutput` model.
- HidEngine.HidPeripheral.OnDescriptorReadRequest answers through `DescriptorRead`, so it sends the corrected Report Reference `[0x01, 0x03]` for the feature report, where the source sends `[0x01, 0x02]`.

## Findings

| source | as written | input that shows it | evidently intended | confidence | as-written member | corrected member |
|---|---|---|---|---|---|---|
| android/src/main/java/jp/kshoji/blehid/util/BleUuidUtils.kt:21 | the Base UUID's low word is written as the signed literal -9223372036563946245, which is 0x800000001155B4FB | `isShortUuid(fromShortValue(0x2A4D))` is false; `matches` then compares whole UUIDs | the low word of the Bluetooth Base UUID 00000000-0000-1000-8000-00805F9B34FB, 0x800000805F9B34FB | high, not executed | BleUuid.AsWrittenRejectsEveryShortUuid | BleUuid.IsShortUuidIffFromShortValue |
| android/src/main/java/jp/kshoji/blehid/util/BleUuidUtils.kt:67-75 | `toShortValue` returns the 16-bit field of any UUID, never -1 | UUID 12345678-9ABC-DEF0-0000-000000000000 gives 0x5678 | -1 for a UUID that is not a short one, as its documentation says | high, not executed | BleUuid.ToShortValueNeverMinusOne | BleUuid.ShortValueOf |
| android/src/main/java/jp/kshoji/blehid/HidPeripheral.kt:425 | `startBleAdvertising` saves the current adapter name every time it runs | while advertising, a central whose connection failed reports STATE_DISCONNECTED; the map is empty, so `startBleAdvertising` runs again and saves the device name already set as the name to restore | keep the name saved by the first start until it is restored | medium, not executed | AdapterName.AsWrittenLosesOriginalName | AdapterName.StartsThenRestoreKeepsOriginalName |
| android/src/main/java/jp/kshoji/blehid/HidPeripheral.kt:663-671 | a non-input Report characteristic is announced as Output when it has the WRITE property | the feature report characteristic (READ \| WRITE) is announced as type 2 (Output) | Feature (3) for the feature report, Output (2) for the output report, which is the only one with write-without-response | high, not executed | GattRouter.FeatureReportAnnouncedAsOutput | GattRouter.ReportReferenceMatchesRole |
