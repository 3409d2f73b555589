/**
 * The HID-over-GATT peripheral of HidPeripheral.kt as an object whose fields the callbacks update:
 * the GATT server (open or not), the queue of services still to be registered, the input report
 * characteristic, the map of connected devices, the saved adapter name, the queue of input reports
 * and the report timer. Every call the peripheral makes into the Android Bluetooth stack is
 * recorded, in order, in `effects`; what the stack answers (whether a server can be opened,
 * whether a rename is accepted, whether there is an advertiser) is state of the `Adapter`.
 * Every callback body is posted to one handler thread in the source, so each method here runs
 * as one atomic step.
 */
module HidEngine {
  import opened Common
  import opened BleUuid
  import opened Gatt
  import opened GattRouter
  import opened ServiceQueue
  import opened ConnectionRegistry
  import opened AdapterName

  /** A call into the Bluetooth stack or to the application. */
  datatype Effect =
    | OpenServer                              // bluetoothManager.openGattServer
    | CloseServer                             // gattServer.close
    | RegisterService(service: GattService)   // gattServer.addService
    | StartAdvertiser                        // advertiser.startAdvertising
    | StopAdvertiser                         // bluetoothLeAdvertiser.stopAdvertising
    | SetAdapterName(name: Utf8)              // bluetoothAdapter.setName
    | Notify(device: Device, value: Bytes)    // gattServer.notifyCharacteristicChanged
    | SendResponse(device: Device, requestId: int, status: int, offset: int, response: Option<Bytes>)
    | CreateBond(device: Device)              // device.createBond
    | ConnectionStateChanged(device: Device, status: int, newState: int)  // connectionStateCallback
    | OutputReport(report: Bytes)             // onOutputReport of the keyboard or mouse

  /** The device reported to the application when the server cannot be started. */
  const DUMMY_DEVICE_FOR_ERROR: Device := Device("00:11:22:33:44:55", BOND_NONE)

  // The default Device Information strings, in UTF-8.
  const DEFAULT_MANUFACTURER: Utf8 := [0x6B, 0x73, 0x68, 0x6F, 0x6A, 0x69, 0x2E, 0x6A, 0x70]   // "kshoji.jp"
  const DEFAULT_DEVICE_NAME: Utf8 :=                                                          // "BLE HID Kotlin"
    [0x42, 0x4C, 0x45, 0x20, 0x48, 0x49, 0x44, 0x20, 0x4B, 0x6F, 0x74, 0x6C, 0x69, 0x6E]
  const DEFAULT_SERIAL_NUMBER: Utf8 := [0x30, 0x30, 0x30, 0x30, 0x30, 0x30, 0x30, 0x30]      // "00000000"

  /** The `setName` call a name request turns into, if any. */
  function Requests(r: Option<Utf8>): (es: seq<Effect>)
    ensures |es| <= 1
    ensures es != [] <==> r.Some?
    ensures r.Some? ==> es == [SetAdapterName(r.value)]
  {
    if r.Some? then [SetAdapterName(r.value)] else []
  }

  /** The calls of `startBleAdvertising`: the rename, then the start, if there is an advertiser. */
  function StartEffects(hasAdvertiser: bool, st: NameState, deviceName: Utf8): (es: seq<Effect>)
    ensures hasAdvertiser ==> |es| >= 1 && es[|es| - 1] == StartAdvertiser
    ensures !hasAdvertiser ==> es == []
  {
    if hasAdvertiser then Requests(RenameRequest(st, deviceName)) + [StartAdvertiser] else []
  }

  /** The adapter name and saved name after `startBleAdvertising`. */
  function StartedName(hasAdvertiser: bool, st: NameState, deviceName: Utf8, accepted: bool): (r: NameState)
    ensures hasAdvertiser ==> r.saved.Some?
    ensures !hasAdvertiser ==> r == st
  {
    if hasAdvertiser then Begin(st, deviceName, accepted) else st
  }

  /** The calls before the name is restored when advertising and the server stop. */
  function StopEffects(hasAdvertiser: bool, serverOpen: bool): (es: seq<Effect>)
    ensures StopAdvertiser in es <==> hasAdvertiser
    ensures CloseServer in es <==> serverOpen
  {
    (if hasAdvertiser then [StopAdvertiser] else []) + (if serverOpen then [CloseServer] else [])
  }

  /** The devices of the notifications among `es`. */
  function NotifiedDevices(es: seq<Effect>): set<Device>
  {
    if es == [] then {}
    else NotifiedDevices(es[..|es| - 1]) + (if es[|es| - 1].Notify? then {es[|es| - 1].device} else {})
  }

  /** `es` is one notification of `value` per device of `targets`. */
  predicate NotifiesEachOnce(es: seq<Effect>, value: Bytes, targets: set<Device>)
  {
    |es| == |targets|
    && (forall i :: 0 <= i < |es| ==> es[i].Notify? && es[i].value == value)
    && NotifiedDevices(es) == targets
  }

  /** A notified device is the device of one of the notifications. */
  lemma {:induction false} NotifiedDevicesAreNotified(es: seq<Effect>, d: Device)
    ensures d in NotifiedDevices(es) <==> exists i :: 0 <= i < |es| && es[i].Notify? && es[i].device == d
  {
    if es != [] {
      var p := es[..|es| - 1];
      NotifiedDevicesAreNotified(p, d);
      if d in NotifiedDevices(p) {
        var i :| 0 <= i < |p| && p[i].Notify? && p[i].device == d;
        assert es[i] == p[i];
      }
      if exists i :: 0 <= i < |es| && es[i].Notify? && es[i].device == d {
        var i :| 0 <= i < |es| && es[i].Notify? && es[i].device == d;
        if i < |es| - 1 {
          assert p[i] == es[i];
        }
      }
    }
  }

  /** There are at most as many notified devices as effects. */
  lemma {:induction false} NotifiedDevicesBound(es: seq<Effect>)
    ensures |NotifiedDevices(es)| <= |es|
  {
    if es != [] {
      NotifiedDevicesBound(es[..|es| - 1]);
    }
  }

  /**
   * One notification per target, as many as there are targets: no device is notified twice, and
   * every target is notified.
   */
  lemma {:induction false} EachDeviceNotifiedOnce(es: seq<Effect>, value: Bytes, targets: set<Device>)
    requires NotifiesEachOnce(es, value, targets)
    ensures forall i, j :: 0 <= i < j < |es| ==> es[i].device != es[j].device
    ensures forall d :: d in targets ==> exists i :: 0 <= i < |es| && es[i] == Notify(d, value)
  {
    DistinctWhenAsManyAsEffects(es);
    forall d | d in targets
      ensures exists i :: 0 <= i < |es| && es[i] == Notify(d, value)
    {
      NotifiedDevicesAreNotified(es, d);
      var i :| 0 <= i < |es| && es[i].Notify? && es[i].device == d;
      assert es[i] == Notify(d, value);
    }
  }

  /** When every effect is a notification and there are as many notified devices as effects, the devices differ. */
  lemma {:induction false} DistinctWhenAsManyAsEffects(es: seq<Effect>)
    requires forall i :: 0 <= i < |es| ==> es[i].Notify?
    requires |NotifiedDevices(es)| == |es|
    ensures forall i, j :: 0 <= i < j < |es| ==> es[i].device != es[j].device
  {
    if es != [] {
      var p := es[..|es| - 1];
      var last := es[|es| - 1];
      NotifiedDevicesBound(p);
      assert NotifiedDevices(es) == NotifiedDevices(p) + {last.device};
      assert last.device !in NotifiedDevices(p);
      assert |NotifiedDevices(p)| == |p|;
      DistinctWhenAsManyAsEffects(p);
      forall i | 0 <= i < |p|
        ensures es[i].device != last.device
      {
        if es[i].device == last.device {
          assert p[i] == es[i];
          NotifiedDevicesAreNotified(p, last.device);
        }
      }
      forall i, j | 0 <= i < j < |es|
        ensures es[i].device != es[j].device
      {
        if j < |es| - 1 {
          assert es[i] == p[i] && es[j] == p[j];
        }
      }
    }
  }

  /**
   * The Bluetooth adapter and manager as the peripheral sees them. Whether the adapter is on,
   * whether it accepts a new name and whether a GATT server can be opened are decided by the
   * system; they are fields the environment sets.
   */
  class Adapter {
    var name: Utf8
    var enabled: bool
    var acceptsRename: bool
    var serverAvailable: bool
    /** Whether the device can advertise (`bluetoothLeAdvertiser != null`). */
    const hasAdvertiser: bool

    constructor (name: Utf8, enabled: bool, acceptsRename: bool, serverAvailable: bool, hasAdvertiser: bool)
      ensures this.name == name && this.enabled == enabled && this.acceptsRename == acceptsRename
      ensures this.serverAvailable == serverAvailable && this.hasAdvertiser == hasAdvertiser
    {
      this.name := name;
      this.enabled := enabled;
      this.acceptsRename := acceptsRename;
      this.serverAvailable := serverAvailable;
      this.hasAdvertiser := hasAdvertiser;
    }

    /** `setName`: renames the adapter when the system accepts it, and says whether it did. */
    method SetName(n: Utf8) returns (ok: bool)
      modifies this
      ensures ok == acceptsRename
      ensures name == if ok then n else old(name)
      ensures enabled == old(enabled) && acceptsRename == old(acceptsRename)
      ensures serverAvailable == old(serverAvailable)
    {
      ok := acceptsRename;
      if ok {
        name := n;
      }
    }
  }

  /** The peripheral: HidPeripheral.kt's fields and callbacks. */
  class HidPeripheral {
    const needInputReport: bool
    const needOutputReport: bool
    const needFeatureReport: bool
    /** The report timer's period in milliseconds. */
    const dataSendingRate: int
    /** `getReportMap()` of the keyboard or mouse. */
    const reportMap: Bytes
    const adapter: Adapter

    var manufacturer: Utf8
    var deviceName: Utf8
    var serialNumber: Utf8
    /** Whether `connectionStateCallback` is set. */
    var hasCallback: bool

    var inputReportCharacteristic: GattCharacteristic?
    /** Whether `gattServer` is not null. */
    var gattServerOpen: bool
    /** `bluetoothDevicesMap`, keyed by device address. */
    var devices: map<string, Device>
    var servicesToAdd: seq<GattService>
    var originalAdapterName: Option<Utf8>
    var inputReportQueue: seq<Bytes>
    /** Whether a report timer is scheduled. */
    var timerActive: bool
    /** The calls made so far, oldest first. */
    var effects: seq<Effect>

    /**
     * The devices are filed under their addresses, only non-empty reports are queued, the input
     * report characteristic is a notifying REPORT characteristic, and no service waits for a
     * server that is closed.
     */
    ghost predicate Valid()
      reads this, inputReportCharacteristic
    {
      KeyedByAddress(devices)
      && (forall i :: 0 <= i < |inputReportQueue| ==> inputReportQueue[i] != [])
      && (inputReportCharacteristic != null ==>
            inputReportCharacteristic.uuid == CHARACTERISTIC_REPORT
            && inputReportCharacteristic.properties == INPUT_REPORT_PROPERTIES)
      && (!gattServerOpen ==> servicesToAdd == [])
    }

    /** The adapter's name and the saved name. */
    function Names(): NameState
      reads this, adapter
    {
      NameState(adapter.name, originalAdapterName)
    }

    twostate predicate SameServer()
      reads this
    {
      gattServerOpen == old(gattServerOpen) && servicesToAdd == old(servicesToAdd)
      && inputReportCharacteristic == old(inputReportCharacteristic)
    }

    twostate predicate SameSettings()
      reads this, adapter
    {
      manufacturer == old(manufacturer) && deviceName == old(deviceName)
      && serialNumber == old(serialNumber) && hasCallback == old(hasCallback)
      && adapter.enabled == old(adapter.enabled) && adapter.acceptsRename == old(adapter.acceptsRename)
      && adapter.serverAvailable == old(adapter.serverAvailable)
    }

    twostate predicate SameNames()
      reads this, adapter
    {
      adapter.name == old(adapter.name) && originalAdapterName == old(originalAdapterName)
    }

    /** Only the input report queue may have changed. */
    twostate predicate OnlyQueueChanged()
      reads this, adapter
    {
      effects == old(effects) && devices == old(devices) && timerActive == old(timerActive)
      && SameServer() && SameNames() && SameSettings()
    }

    constructor (needInputReport: bool, needOutputReport: bool, needFeatureReport: bool,
                 dataSendingRate: int, reportMap: Bytes, adapter: Adapter)
      requires adapter.enabled
      ensures Valid()
      ensures this.needInputReport == needInputReport && this.needOutputReport == needOutputReport
      ensures this.needFeatureReport == needFeatureReport && this.dataSendingRate == dataSendingRate
      ensures this.reportMap == reportMap && this.adapter == adapter
      ensures manufacturer == DEFAULT_MANUFACTURER && deviceName == DEFAULT_DEVICE_NAME
      ensures serialNumber == DEFAULT_SERIAL_NUMBER && !hasCallback
      ensures inputReportCharacteristic == null && !gattServerOpen && devices == map[]
      ensures servicesToAdd == [] && originalAdapterName == None && inputReportQueue == []
      ensures !timerActive && effects == []
    {
      this.needInputReport := needInputReport;
      this.needOutputReport := needOutputReport;
      this.needFeatureReport := needFeatureReport;
      this.dataSendingRate := dataSendingRate;
      this.reportMap := reportMap;
      this.adapter := adapter;
      manufacturer := DEFAULT_MANUFACTURER;
      deviceName := DEFAULT_DEVICE_NAME;
      serialNumber := DEFAULT_SERIAL_NUMBER;
      hasCallback := false;
      inputReportCharacteristic := null;
      gattServerOpen := false;
      devices := map[];
      servicesToAdd := [];
      originalAdapterName := None;
      inputReportQueue := [];
      timerActive := false;
      effects := [];
    }

    /** `addInputReport`: queues a report unless it is null or empty. */
    method AddInputReport(report: Option<Bytes>)
      requires Valid()
      modifies this
      ensures Valid()
      ensures inputReportQueue == old(inputReportQueue) + if report.Some? && report.value != [] then [report.value] else []
      ensures OnlyQueueChanged()
    {
      if report.Some? && report.value != [] {
        inputReportQueue := inputReportQueue + [report.value];
      }
    }

    /** Whether the next timer tick sends a report: one is queued, and the characteristic and server exist. */
    predicate WillNotify()
      reads this
    {
      inputReportQueue != [] && inputReportCharacteristic != null && gattServerOpen
    }

    /**
     * One run of the report timer's task: the oldest queued report is taken off the queue and,
     * when the input report characteristic and the server exist, becomes the characteristic's
     * value and is notified once to every connected device.
     */
    method Tick()
      requires Valid()
      modifies this, inputReportCharacteristic
      ensures Valid()
      ensures SameServer() && SameNames() && SameSettings()
      ensures devices == old(devices) && timerActive == old(timerActive)
      ensures inputReportCharacteristic != null ==>
        inputReportCharacteristic.descriptors == old(inputReportCharacteristic.descriptors)
      ensures inputReportQueue == if old(inputReportQueue) == [] then [] else old(inputReportQueue)[1..]
      ensures old(WillNotify()) ==>
        var data := old(inputReportQueue)[0];
        inputReportCharacteristic.value == Some(data)
        && |effects| >= |old(effects)| && effects[..|old(effects)|] == old(effects)
        && NotifiesEachOnce(effects[|old(effects)|..], data, Devices(devices))
      ensures !old(WillNotify()) ==>
        effects == old(effects)
        && (inputReportCharacteristic != null ==> inputReportCharacteristic.value == old(inputReportCharacteristic.value))
    {
      if inputReportQueue == [] {
        return;
      }
      var data := inputReportQueue[0];
      inputReportQueue := inputReportQueue[1..];
      if inputReportCharacteristic != null && gattServerOpen {
        inputReportCharacteristic.value := Some(data);
        var sent := Notifications(data, Devices(devices));
        effects := effects + sent;
        assert effects[|old(effects)|..] == sent;
      }
    }

    /** The notifications of one report: one per target device, each target taken in turn. */
    static method Notifications(data: Bytes, targets: set<Device>) returns (sent: seq<Effect>)
      ensures NotifiesEachOnce(sent, data, targets)
    {
      sent := [];
      var pending := targets;
      while pending != {}
        invariant pending <= targets
        invariant |sent| + |pending| == |targets|
        invariant forall i :: 0 <= i < |sent| ==> sent[i].Notify? && sent[i].value == data
        invariant NotifiedDevices(sent) == targets - pending
        decreases |pending|
      {
        var d :| d in pending;
        var next := sent + [Notify(d, data)];
        assert next[..|next| - 1] == sent;
        sent := next;
        pending := pending - {d};
      }
    }

    /** `setupReportTimer`: (re)schedules the report timer. */
    method SetupReportTimer()
      modifies this
      ensures timerActive
      ensures effects == old(effects) && devices == old(devices) && inputReportQueue == old(inputReportQueue)
      ensures SameServer() && SameNames() && SameSettings()
    {
      timerActive := true;
    }

    /** `addService`: queues a service and submits it when it is the only one queued and there is a server. */
    method AddService(service: GattService)
      modifies this
      ensures var (q, step) := Enqueue(old(servicesToAdd), service, old(gattServerOpen));
        servicesToAdd == q
        && effects == old(effects) + if step.Submit? then [RegisterService(step.service)] else []
      ensures gattServerOpen == old(gattServerOpen) && inputReportCharacteristic == old(inputReportCharacteristic)
      ensures devices == old(devices) && inputReportQueue == old(inputReportQueue) && timerActive == old(timerActive)
      ensures SameNames() && SameSettings()
    {
      var (q, step) := Enqueue(servicesToAdd, service, gattServerOpen);
      servicesToAdd := q;
      if step.Submit? {
        effects := effects + [RegisterService(step.service)];
      }
    }

    /**
     * `startBleAdvertising`: with an advertiser, saves the adapter's name, renames the adapter to
     * `deviceName`, starts advertising and schedules the report timer.
     */
    method StartBleAdvertising()
      modifies this, adapter
      ensures Names() == StartedName(adapter.hasAdvertiser, old(Names()), deviceName, old(adapter.acceptsRename))
      ensures effects == old(effects) + StartEffects(adapter.hasAdvertiser, old(Names()), deviceName)
      ensures timerActive == (adapter.hasAdvertiser || old(timerActive))
      ensures devices == old(devices) && inputReportQueue == old(inputReportQueue)
      ensures SameServer() && SameSettings()
    {
      if !adapter.hasAdvertiser {
        return;
      }
      var st := Names();
      var next := Begin(st, deviceName, adapter.acceptsRename);
      originalAdapterName := next.saved;
      var request := RenameRequest(st, deviceName);
      if request.Some? {
        effects := effects + [SetAdapterName(request.value)];
        var _ := adapter.SetName(request.value);
      }
      effects := effects + [StartAdvertiser];
      SetupReportTimer();
    }

    /** `restoreAdapterName`: puts a saved name back if the adapter's name differs from it, and forgets it. */
    method RestoreAdapterName()
      modifies this, adapter
      ensures Names() == Restore(old(Names()), old(adapter.acceptsRename))
      ensures effects == old(effects) + Requests(RestoreRequest(old(Names())))
      ensures devices == old(devices) && inputReportQueue == old(inputReportQueue) && timerActive == old(timerActive)
      ensures SameServer() && SameSettings()
    {
      var st := Names();
      var request := RestoreRequest(st);
      if request.Some? {
        effects := effects + [SetAdapterName(request.value)];
        var _ := adapter.SetName(request.value);
      }
      originalAdapterName := None;
    }

    /**
     * `stopAdvertisingInternal`: stops advertising, closes the server, drops the queued services,
     * cancels the timer and restores the adapter's name; the connected devices stay in the map.
     */
    method StopAdvertisingInternal()
      requires Valid()
      modifies this, adapter
      ensures Valid()
      ensures !gattServerOpen && servicesToAdd == [] && !timerActive
      ensures inputReportCharacteristic == old(inputReportCharacteristic)
      ensures Names() == Restore(old(Names()), old(adapter.acceptsRename))
      ensures effects == old(effects) + StopEffects(adapter.hasAdvertiser, old(gattServerOpen))
                                      + Requests(RestoreRequest(old(Names())))
      ensures devices == old(devices) && inputReportQueue == old(inputReportQueue)
      ensures SameSettings()
    {
      effects := effects + StopEffects(adapter.hasAdvertiser, gattServerOpen);
      gattServerOpen := false;
      servicesToAdd := [];
      timerActive := false;
      RestoreAdapterName();
    }

    /** `stopAdvertising`. */
    method StopAdvertising()
      requires Valid()
      modifies this, adapter
      ensures Valid()
      ensures !gattServerOpen && servicesToAdd == [] && !timerActive
      ensures Names() == Restore(old(Names()), old(adapter.acceptsRename))
      ensures Names().saved == None
      ensures devices == old(devices) && inputReportQueue == old(inputReportQueue)
      ensures SameSettings()
    {
      StopAdvertisingInternal();
    }

    /** `setUpDeviceInformationService`: manufacturer, model number and serial number, read only. */
    method SetUpDeviceInformationService() returns (s: GattService)
      ensures s.uuid == SERVICE_DEVICE_INFORMATION && |s.characteristics| == 3
      ensures s.characteristics[0].uuid == CHARACTERISTIC_MANUFACTURER_NAME
      ensures s.characteristics[1].uuid == CHARACTERISTIC_MODEL_NUMBER
      ensures s.characteristics[2].uuid == CHARACTERISTIC_SERIAL_NUMBER
      ensures forall i :: 0 <= i < 3 ==> s.characteristics[i].properties == PROPERTY_READ
      ensures forall i :: 0 <= i < 3 ==> fresh(s.characteristics[i])
    {
      var manufacturer := new GattCharacteristic(CHARACTERISTIC_MANUFACTURER_NAME, PROPERTY_READ);
      var model := new GattCharacteristic(CHARACTERISTIC_MODEL_NUMBER, PROPERTY_READ);
      var serial := new GattCharacteristic(CHARACTERISTIC_SERIAL_NUMBER, PROPERTY_READ);
      s := GattService(SERVICE_DEVICE_INFORMATION, [manufacturer, model, serial]);
    }

    /** `setUpBatteryService`: the battery level, readable and notifying, at 100 %, with its configuration descriptor. */
    method SetUpBatteryService() returns (s: GattService)
      ensures s.uuid == SERVICE_BATTERY && |s.characteristics| == 1
      ensures fresh(s.characteristics[0])
      ensures s.characteristics[0].uuid == CHARACTERISTIC_BATTERY_LEVEL
      ensures s.characteristics[0].properties == PROPERTY_READ | PROPERTY_NOTIFY
      ensures s.characteristics[0].value == Some(BATTERY_LEVEL)
      ensures |s.characteristics[0].descriptors| == 1
      ensures s.characteristics[0].descriptors[0].uuid == DESCRIPTOR_CLIENT_CHARACTERISTIC_CONFIGURATION
    {
      var level := new GattCharacteristic(CHARACTERISTIC_BATTERY_LEVEL, PROPERTY_READ | PROPERTY_NOTIFY);
      level.value := Some(BATTERY_LEVEL);
      var cccd := new GattDescriptor(DESCRIPTOR_CLIENT_CHARACTERISTIC_CONFIGURATION, level);
      level.AddDescriptor(cccd);
      s := GattService(SERVICE_BATTERY, [level]);
    }

    /** A REPORT characteristic with the given properties and descriptors. */
    static method NewReportCharacteristic(properties: bv32, withConfiguration: bool) returns (c: GattCharacteristic)
      ensures fresh(c)
      ensures c.uuid == CHARACTERISTIC_REPORT && c.properties == properties && c.value == None
      ensures |c.descriptors| == if withConfiguration then 2 else 1
      ensures withConfiguration ==> c.descriptors[0].uuid == DESCRIPTOR_CLIENT_CHARACTERISTIC_CONFIGURATION
      ensures c.descriptors[|c.descriptors| - 1].uuid == DESCRIPTOR_REPORT_REFERENCE
      ensures forall i :: 0 <= i < |c.descriptors| ==> c.descriptors[i].characteristic == c
    {
      c := new GattCharacteristic(CHARACTERISTIC_REPORT, properties);
      if withConfiguration {
        var cccd := new GattDescriptor(DESCRIPTOR_CLIENT_CHARACTERISTIC_CONFIGURATION, c);
        c.AddDescriptor(cccd);
      }
      var reference := new GattDescriptor(DESCRIPTOR_REPORT_REFERENCE, c);
      c.AddDescriptor(reference);
    }

    /** The four characteristics every HID service has: information, report map, protocol mode, control point. */
    static method HidBaseCharacteristics() returns (cs: seq<GattCharacteristic>)
      ensures |cs| == 4 && forall i :: 0 <= i < 4 ==> fresh(cs[i])
      ensures cs[0].uuid == CHARACTERISTIC_HID_INFORMATION && cs[0].properties == PROPERTY_READ
      ensures cs[1].uuid == CHARACTERISTIC_REPORT_MAP && cs[1].properties == PROPERTY_READ
      ensures cs[2].uuid == CHARACTERISTIC_PROTOCOL_MODE
      ensures cs[2].properties == PROPERTY_READ | PROPERTY_WRITE_NO_RESPONSE
      ensures cs[2].value == Some(REPORT_PROTOCOL_MODE)
      ensures cs[3].uuid == CHARACTERISTIC_HID_CONTROL_POINT && cs[3].properties == PROPERTY_WRITE_NO_RESPONSE
    {
      var information := new GattCharacteristic(CHARACTERISTIC_HID_INFORMATION, PROPERTY_READ);
      var reportMap := new GattCharacteristic(CHARACTERISTIC_REPORT_MAP, PROPERTY_READ);
      var mode := new GattCharacteristic(CHARACTERISTIC_PROTOCOL_MODE, PROPERTY_READ | PROPERTY_WRITE_NO_RESPONSE);
      mode.value := Some(REPORT_PROTOCOL_MODE);
      var control := new GattCharacteristic(CHARACTERISTIC_HID_CONTROL_POINT, PROPERTY_WRITE_NO_RESPONSE);
      cs := [information, reportMap, mode, control];
    }

    /**
     * The report characteristics that are needed, in the order input, output, feature; the input
     * one, if needed, is also returned on its own.
     */
    static method ReportCharacteristics(needInput: bool, needOutput: bool, needFeature: bool)
      returns (input: GattCharacteristic?, cs: seq<GattCharacteristic>)
      ensures |cs| == (if needInput then 1 else 0) + (if needOutput then 1 else 0) + (if needFeature then 1 else 0)
      ensures forall i :: 0 <= i < |cs| ==> fresh(cs[i]) && cs[i].uuid == CHARACTERISTIC_REPORT
      ensures needInput <==> input != null
      ensures needInput ==>
        input == cs[0] && input.properties == INPUT_REPORT_PROPERTIES && |input.descriptors| == 2
      ensures needOutput ==> cs[if needInput then 1 else 0].properties == OUTPUT_REPORT_PROPERTIES
      ensures needFeature ==> cs[|cs| - 1].properties == FEATURE_REPORT_PROPERTIES
    {
      input := null;
      cs := [];
      if needInput {
        input := NewReportCharacteristic(INPUT_REPORT_PROPERTIES, true);
        cs := [input];
      }
      if needOutput {
        var output := NewReportCharacteristic(OUTPUT_REPORT_PROPERTIES, false);
        cs := cs + [output];
      }
      if needFeature {
        var feature := NewReportCharacteristic(FEATURE_REPORT_PROPERTIES, false);
        cs := cs + [feature];
      }
    }

    /**
     * `setUpHidService`: HID information, report map, protocol mode (Report Protocol Mode) and
     * control point, then the input, output and feature report characteristics that are needed;
     * the input one becomes `inputReportCharacteristic`.
     */
    method SetUpHidService() returns (s: GattService)
      requires Valid()
      modifies this
      ensures Valid()
      ensures gattServerOpen == old(gattServerOpen) && servicesToAdd == old(servicesToAdd)
      ensures effects == old(effects) && devices == old(devices) && inputReportQueue == old(inputReportQueue)
      ensures timerActive == old(timerActive) && SameNames() && SameSettings()
      ensures s.uuid == SERVICE_BLE_HID
      ensures |s.characteristics| == 4 + (if needInputReport then 1 else 0)
        + (if needOutputReport then 1 else 0) + (if needFeatureReport then 1 else 0)
      ensures s.characteristics[0].uuid == CHARACTERISTIC_HID_INFORMATION
      ensures s.characteristics[1].uuid == CHARACTERISTIC_REPORT_MAP
      ensures s.characteristics[2].uuid == CHARACTERISTIC_PROTOCOL_MODE
      ensures s.characteristics[2].value == Some(REPORT_PROTOCOL_MODE)
      ensures s.characteristics[3].uuid == CHARACTERISTIC_HID_CONTROL_POINT
      ensures forall i :: 4 <= i < |s.characteristics| ==> s.characteristics[i].uuid == CHARACTERISTIC_REPORT
      ensures needInputReport ==>
        inputReportCharacteristic == s.characteristics[4]
        && fresh(inputReportCharacteristic) && |inputReportCharacteristic.descriptors| == 2
      ensures !needInputReport ==> inputReportCharacteristic == old(inputReportCharacteristic)
      ensures needOutputReport ==>
        s.characteristics[if needInputReport then 5 else 4].properties == OUTPUT_REPORT_PROPERTIES
      ensures needFeatureReport ==>
        s.characteristics[|s.characteristics| - 1].properties == FEATURE_REPORT_PROPERTIES
    {
      var base := HidBaseCharacteristics();
      var input, reports := ReportCharacteristics(needInputReport, needOutputReport, needFeatureReport);
      if input != null {
        inputReportCharacteristic := input;
      }
      s := GattService(SERVICE_BLE_HID, base + reports);
    }

    /**
     * `startAdvertising`: closes a running server first; then, with the adapter on and a server
     * opened, queues the device information, battery and HID services, submitting the first. When
     * the adapter is off or no server can be opened the application is told of a failed
     * connection of a placeholder device.
     */
    method StartAdvertising()
      requires Valid()
      modifies this, adapter
      ensures Valid()
      ensures gattServerOpen <==> old(adapter.enabled) && old(adapter.serverAvailable)
      ensures gattServerOpen ==> ServicesRegistering()
      ensures !gattServerOpen && hasCallback ==>
        |effects| >= 1 && effects[|effects| - 1] == ConnectionStateChanged(DUMMY_DEVICE_FOR_ERROR, GATT_FAILURE, STATE_DISCONNECTED)
      ensures |effects| >= |old(effects)| && effects[..|old(effects)|] == old(effects)
      ensures old(gattServerOpen) ==> Names().saved == None && !timerActive
      ensures !old(gattServerOpen) ==> Names() == old(Names()) && timerActive == old(timerActive)
      ensures devices == old(devices) && inputReportQueue == old(inputReportQueue)
      ensures SameSettings()
    {
      if gattServerOpen {
        StopAdvertisingInternal();
      }
      OpenServerAndRegister();
    }

    /** The three services are queued in order and the first has just been submitted to the open server. */
    predicate ServicesRegistering()
      reads this
    {
      gattServerOpen
      && |servicesToAdd| == 3
      && servicesToAdd[0].uuid == SERVICE_DEVICE_INFORMATION
      && servicesToAdd[1].uuid == SERVICE_BATTERY
      && servicesToAdd[2].uuid == SERVICE_BLE_HID
      && |effects| >= 2 && effects[|effects| - 2..] == [OpenServer, RegisterService(servicesToAdd[0])]
    }

    /** The part of `startAdvertising` after any running server is closed. */
    method OpenServerAndRegister()
      requires Valid() && !gattServerOpen
      modifies this
      ensures Valid()
      ensures gattServerOpen <==> adapter.enabled && adapter.serverAvailable
      ensures gattServerOpen ==> ServicesRegistering()
      ensures !gattServerOpen ==>
        effects == old(effects)
          + (if adapter.enabled then [OpenServer] else [])
          + (if hasCallback then [ConnectionStateChanged(DUMMY_DEVICE_FOR_ERROR, GATT_FAILURE, STATE_DISCONNECTED)] else [])
      ensures |effects| >= |old(effects)| && effects[..|old(effects)|] == old(effects)
      ensures devices == old(devices) && inputReportQueue == old(inputReportQueue) && timerActive == old(timerActive)
      ensures SameNames() && SameSettings()
    {
      if !adapter.enabled {
        if hasCallback {
          effects := effects + [ConnectionStateChanged(DUMMY_DEVICE_FOR_ERROR, GATT_FAILURE, STATE_DISCONNECTED)];
        }
        return;
      }
      effects := effects + [OpenServer];
      if !adapter.serverAvailable {
        if hasCallback {
          effects := effects + [ConnectionStateChanged(DUMMY_DEVICE_FOR_ERROR, GATT_FAILURE, STATE_DISCONNECTED)];
        }
        return;
      }
      gattServerOpen := true;
      RegisterServices();
    }

    /** `servicesToAdd.clear()` and the three `addService` calls of `startAdvertising`. */
    method RegisterServices()
      requires Valid() && gattServerOpen
      requires |effects| >= 1 && effects[|effects| - 1] == OpenServer
      modifies this
      ensures Valid()
      ensures ServicesRegistering()
      ensures |effects| == |old(effects)| + 1 && effects[..|old(effects)|] == old(effects)
      ensures devices == old(devices) && inputReportQueue == old(inputReportQueue) && timerActive == old(timerActive)
      ensures SameNames() && SameSettings()
    {
      servicesToAdd := [];
      var dis := SetUpDeviceInformationService();
      AddService(dis);
      QueueBatteryAndHid();
    }

    /** The second and third `addService` calls, queued behind the service being registered. */
    method QueueBatteryAndHid()
      requires Valid() && |servicesToAdd| == 1
      modifies this
      ensures Valid()
      ensures |servicesToAdd| == 3 && servicesToAdd[0] == old(servicesToAdd[0])
      ensures servicesToAdd[1].uuid == SERVICE_BATTERY && servicesToAdd[2].uuid == SERVICE_BLE_HID
      ensures effects == old(effects) && gattServerOpen == old(gattServerOpen)
      ensures devices == old(devices) && inputReportQueue == old(inputReportQueue) && timerActive == old(timerActive)
      ensures SameNames() && SameSettings()
    {
      var battery := SetUpBatteryService();
      AddService(battery);
      var hid := SetUpHidService();
      AddService(hid);
    }

    /**
     * `onServiceAdded`: drops the acknowledged service and submits the next one, or, when none is
     * left, starts advertising.
     */
    method OnServiceAdded()
      requires Valid()
      modifies this, adapter
      ensures Valid()
      ensures var (rest, step) := Acknowledge(old(servicesToAdd), old(gattServerOpen));
        servicesToAdd == rest
        && (step.Submit? ==> effects == old(effects) + [RegisterService(step.service)]
                             && SameNames() && timerActive == old(timerActive))
        && (step == AllAdded ==>
              Names() == StartedName(adapter.hasAdvertiser, old(Names()), deviceName, old(adapter.acceptsRename))
              && effects == old(effects) + StartEffects(adapter.hasAdvertiser, old(Names()), deviceName)
              && timerActive == (adapter.hasAdvertiser || old(timerActive)))
        && (step == ServerMissing ==> effects == old(effects) && SameNames() && timerActive == old(timerActive))
      ensures gattServerOpen == old(gattServerOpen) && inputReportCharacteristic == old(inputReportCharacteristic)
      ensures devices == old(devices) && inputReportQueue == old(inputReportQueue)
      ensures SameSettings()
    {
      var (rest, step) := Acknowledge(servicesToAdd, gattServerOpen);
      servicesToAdd := rest;
      match step {
        case Submit(s) =>
          effects := effects + [RegisterService(s)];
        case AllAdded =>
          StartBleAdvertising();
        case ServerMissing =>
        case Idle =>
      }
    }

    /** `onStartSuccess` of the advertise callback: schedules the report timer. */
    method OnStartSuccess()
      modifies this
      ensures timerActive
      ensures effects == old(effects) && devices == old(devices) && inputReportQueue == old(inputReportQueue)
      ensures SameServer() && SameNames() && SameSettings()
    {
      SetupReportTimer();
    }

    /** `onStartFailure` of the advertise callback: cancels the report timer and restores the adapter's name. */
    method OnStartFailure(errorCode: int)
      modifies this, adapter
      ensures !timerActive
      ensures Names() == Restore(old(Names()), old(adapter.acceptsRename))
      ensures effects == old(effects) + Requests(RestoreRequest(old(Names())))
      ensures devices == old(devices) && inputReportQueue == old(inputReportQueue)
      ensures SameServer() && SameSettings()
    {
      timerActive := false;
      RestoreAdapterName();
    }

    /**
     * `onConnectionStateChange`: updates the map of devices; a successful connection stops
     * advertising, restores the adapter's name and asks an unbonded device to bond; the
     * disconnection of the last device starts advertising again; the application is told.
     */
    method OnConnectionStateChange(device: Device, status: int, newState: int)
      requires Valid()
      modifies this, adapter
      ensures Valid()
      ensures devices == Apply(old(devices), ConnectionEvent(device, status, newState))
      ensures var told := if hasCallback then [ConnectionStateChanged(device, status, newState)] else [];
        if newState == STATE_CONNECTED && status == GATT_SUCCESS then
          Names() == Restore(old(Names()), old(adapter.acceptsRename))
          && effects == old(effects) + (if adapter.hasAdvertiser then [StopAdvertiser] else [])
                        + Requests(RestoreRequest(old(Names())))
                        + (if device.bondState == BOND_NONE then [CreateBond(device)] else []) + told
          && timerActive == old(timerActive)
        else if newState == STATE_DISCONNECTED && devices == map[] then
          Names() == StartedName(adapter.hasAdvertiser, old(Names()), deviceName, old(adapter.acceptsRename))
          && effects == old(effects) + StartEffects(adapter.hasAdvertiser, old(Names()), deviceName) + told
          && timerActive == (adapter.hasAdvertiser || old(timerActive))
        else
          SameNames() && effects == old(effects) + told && timerActive == old(timerActive)
      ensures inputReportQueue == old(inputReportQueue)
      ensures SameServer() && SameSettings()
    {
      if newState == STATE_CONNECTED && status == GATT_SUCCESS {
        DeviceConnected(device);
      } else if newState == STATE_CONNECTED || newState == STATE_DISCONNECTED {
        DeviceDropped(device, newState == STATE_DISCONNECTED);
      }
      if hasCallback {
        effects := effects + [ConnectionStateChanged(device, status, newState)];
      }
    }

    /**
     * A failed connection or a disconnection: the device's address is forgotten and, after a
     * disconnection that leaves no device, advertising starts again.
     */
    method DeviceDropped(device: Device, disconnected: bool)
      requires Valid()
      modifies this, adapter
      ensures Valid()
      ensures devices == old(devices) - {device.address}
      ensures if disconnected && devices == map[] then
          Names() == StartedName(adapter.hasAdvertiser, old(Names()), deviceName, old(adapter.acceptsRename))
          && effects == old(effects) + StartEffects(adapter.hasAdvertiser, old(Names()), deviceName)
          && timerActive == (adapter.hasAdvertiser || old(timerActive))
        else
          SameNames() && effects == old(effects) && timerActive == old(timerActive)
      ensures inputReportQueue == old(inputReportQueue)
      ensures SameServer() && SameSettings()
    {
      devices := devices - {device.address};
      if disconnected && devices == map[] {
        StartBleAdvertising();
      }
    }

    /**
     * A successful connection: the device is filed under its address, advertising stops, the
     * adapter's name is restored, and an unbonded device is asked to bond.
     */
    method DeviceConnected(device: Device)
      requires Valid()
      modifies this, adapter
      ensures Valid()
      ensures devices == old(devices)[device.address := device]
      ensures Names() == Restore(old(Names()), old(adapter.acceptsRename))
      ensures effects == old(effects) + (if adapter.hasAdvertiser then [StopAdvertiser] else [])
                        + Requests(RestoreRequest(old(Names())))
                        + (if device.bondState == BOND_NONE then [CreateBond(device)] else [])
      ensures inputReportQueue == old(inputReportQueue) && timerActive == old(timerActive)
      ensures SameServer() && SameSettings()
    {
      devices := devices[device.address := device];
      if adapter.hasAdvertiser {
        effects := effects + [StopAdvertiser];
      }
      RestoreAdapterName();
      if device.bondState == BOND_NONE {
        effects := effects + [CreateBond(device)];
      }
    }

    /** The Device Information strings as they stand. */
    function Information(): DeviceInformation
      reads this
    {
      DeviceInformation(manufacturer, deviceName, serialNumber)
    }

    /**
     * `onCharacteristicReadRequest`: answers with the payload of the characteristic from
     * `offset` on, or refuses; the response goes out only while there is a server.
     */
    method OnCharacteristicReadRequest(device: Device, requestId: int, offset: int, c: GattCharacteristic)
      modifies this
      ensures var r := Respond(CharacteristicRead(c.uuid, c.value, reportMap, Information()), offset);
        effects == old(effects) + if gattServerOpen then [SendResponse(device, requestId, r.status, 0, r.value)] else []
      ensures devices == old(devices) && inputReportQueue == old(inputReportQueue) && timerActive == old(timerActive)
      ensures SameServer() && SameNames() && SameSettings()
    {
      var r := Respond(CharacteristicRead(c.uuid, c.value, reportMap, Information()), offset);
      if gattServerOpen {
        effects := effects + [SendResponse(device, requestId, r.status, 0, r.value)];
      }
    }

    /**
     * `onDescriptorReadRequest`: answers with the descriptor's payload from `offset` on, or
     * refuses; the response goes out only while there is a server.
     */
    method OnDescriptorReadRequest(device: Device, requestId: int, offset: int, d: GattDescriptor)
      modifies this
      ensures var r := Respond(DescriptorRead(d.uuid, d.value, d.characteristic.uuid,
                                              d.characteristic == inputReportCharacteristic,
                                              d.characteristic.properties), offset);
        effects == old(effects) + if gattServerOpen then [SendResponse(device, requestId, r.status, 0, r.value)] else []
      ensures devices == old(devices) && inputReportQueue == old(inputReportQueue) && timerActive == old(timerActive)
      ensures SameServer() && SameNames() && SameSettings()
    {
      var outcome := DescriptorRead(d.uuid, d.value, d.characteristic.uuid,
                                    d.characteristic == inputReportCharacteristic, d.characteristic.properties);
      var r := Respond(outcome, offset);
      if gattServerOpen {
        effects := effects + [SendResponse(device, requestId, r.status, 0, r.value)];
      }
    }

    /**
     * `onCharacteristicWriteRequest`: a report goes to `onOutputReport` and is stored; a protocol
     * mode is stored; the response, when one is needed and there is a server, echoes the value on
     * success.
     */
    method OnCharacteristicWriteRequest(device: Device, requestId: int, c: GattCharacteristic,
                                        preparedWrite: bool, responseNeeded: bool, offset: int,
                                        value: Option<Bytes>)
      modifies this, c
      ensures var incoming := OrElse(value, []);
        var w := CharacteristicWrite(c.uuid, incoming);
        c.value == Stored(old(c.value), w)
        && effects == old(effects) + (if w.deliver then [OutputReport(incoming)] else [])
                      + (if responseNeeded && gattServerOpen
                         then [SendResponse(device, requestId, w.status, offset, WriteResponseValue(w.status, incoming))]
                         else [])
      ensures c.descriptors == old(c.descriptors)
      ensures devices == old(devices) && inputReportQueue == old(inputReportQueue) && timerActive == old(timerActive)
      ensures SameServer() && SameNames() && SameSettings()
    {
      var incoming := OrElse(value, []);
      var w := CharacteristicWrite(c.uuid, incoming);
      if w.deliver {
        effects := effects + [OutputReport(incoming)];
      }
      if w.store.Some? {
        c.value := w.store;
      }
      if responseNeeded && gattServerOpen {
        effects := effects + [SendResponse(device, requestId, w.status, offset, WriteResponseValue(w.status, incoming))];
      }
    }

    /**
     * `onDescriptorWriteRequest`: a Client Characteristic Configuration that enables or disables
     * notifications is stored; anything else is refused; the response, when one is needed and
     * there is a server, echoes the value on success.
     */
    method OnDescriptorWriteRequest(device: Device, requestId: int, d: GattDescriptor,
                                    preparedWrite: bool, responseNeeded: bool, offset: int,
                                    value: Option<Bytes>)
      modifies this, d
      ensures var incoming := OrElse(value, []);
        var w := DescriptorWrite(d.uuid, incoming);
        d.value == Stored(old(d.value), w)
        && effects == old(effects)
                      + (if responseNeeded && gattServerOpen
                         then [SendResponse(device, requestId, w.status, offset, WriteResponseValue(w.status, incoming))]
                         else [])
      ensures devices == old(devices) && inputReportQueue == old(inputReportQueue) && timerActive == old(timerActive)
      ensures SameServer() && SameNames() && SameSettings()
    {
      var incoming := OrElse(value, []);
      var w := DescriptorWrite(d.uuid, incoming);
      if w.store.Some? {
        d.value := w.store;
      }
      if responseNeeded && gattServerOpen {
        effects := effects + [SendResponse(device, requestId, w.status, offset, WriteResponseValue(w.status, incoming))];
      }
    }
  }
}
