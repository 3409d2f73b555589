/**
 * What the GATT server callbacks of HidPeripheral.kt answer, as functions of the request and the
 * attribute's stored value: the payload chosen for a characteristic or descriptor read, the part
 * of it sent for a read at an offset, the Report Reference value of a report characteristic
 * (section 3.10 of the HID over GATT Profile 1.0: report ID, then report type 1 input, 2 output,
 * 3 feature), and the status, stored value and response of a write.
 */
module GattRouter {
  import opened Common
  import opened BleUuid
  import opened Gatt

  /** `RESPONSE_HID_INFORMATION`: bcdHID 0x0111, country code 0, flags RemoteWake | NormallyConnectable. */
  const RESPONSE_HID_INFORMATION: Bytes := [0x11, 0x01, 0x00, 0x03]

  /** The battery level the peripheral reports, 100 %. */
  const BATTERY_LEVEL: Bytes := [100]

  /** The Report Protocol Mode, returned while no mode has been stored. */
  const REPORT_PROTOCOL_MODE: Bytes := [0x01]

  /** The strings of the Device Information service, in UTF-8. */
  datatype DeviceInformation = DeviceInformation(manufacturer: Utf8, modelNumber: Utf8, serialNumber: Utf8)

  /** How a request is answered: with a payload, or refused with a status. */
  datatype Outcome = Serve(payload: Bytes) | Refuse(status: int)

  /** The arguments of `sendResponse`: status and value (null is None). */
  datatype Response = Response(status: int, value: Option<Bytes>)

  /** `value ?: default` */
  function OrElse(v: Option<Bytes>, default: Bytes): Bytes
  {
    if v.Some? then v.value else default
  }

  /** The payload for a read of a characteristic with UUID `uuid` whose stored value is `stored`. */
  function CharacteristicRead(uuid: Uuid, stored: Option<Bytes>, reportMap: Bytes,
                              info: DeviceInformation): (r: Outcome)
    ensures r.Serve? <==> uuid in READABLE_CHARACTERISTICS
    ensures r.Refuse? ==> r.status == GATT_READ_NOT_PERMITTED
  {
    if uuid == CHARACTERISTIC_HID_INFORMATION then Serve(RESPONSE_HID_INFORMATION)
    else if uuid == CHARACTERISTIC_REPORT_MAP then Serve(reportMap)
    else if uuid == CHARACTERISTIC_MANUFACTURER_NAME then Serve(info.manufacturer)
    else if uuid == CHARACTERISTIC_MODEL_NUMBER then Serve(info.modelNumber)
    else if uuid == CHARACTERISTIC_SERIAL_NUMBER then Serve(info.serialNumber)
    else if uuid == CHARACTERISTIC_BATTERY_LEVEL then Serve(BATTERY_LEVEL)
    else if uuid == CHARACTERISTIC_PROTOCOL_MODE then Serve(OrElse(stored, REPORT_PROTOCOL_MODE))
    else if uuid == CHARACTERISTIC_REPORT then Serve(OrElse(stored, []))
    else Refuse(GATT_READ_NOT_PERMITTED)
  }

  /** The start of the part sent for a read at `offset` of a value of length `n`. */
  function Clamp(offset: int, n: nat): (k: nat)
    ensures k <= n
  {
    if offset <= 0 then 0 else if offset < n then offset else n
  }

  /**
   * The part of `value` sent for a read at `offset`: all of it for a non-positive offset, the
   * bytes from `offset` on, or nothing once the offset reaches the end.
   */
  function SliceAtOffset(value: Bytes, offset: int): (r: Bytes)
    ensures r == value[Clamp(offset, |value|)..]
  {
    if offset > 0 then
      if offset < |value| then value[offset..] else []
    else value
  }

  /** Reading from offset 0 and then from where the first part left off gives back the value. */
  lemma {:induction false} SlicesReassemble(value: Bytes, offset: int)
    requires 0 <= offset <= |value|
    ensures value[..offset] + SliceAtOffset(value, offset) == value
    ensures SliceAtOffset(value, 0) == value
  {
    assert Clamp(offset, |value|) == offset;
    assert value[..offset] + value[offset..] == value;
  }

  /** The response to a read: the sliced payload with GATT_SUCCESS, or the refusal and no value. */
  function Respond(outcome: Outcome, offset: int): (r: Response)
    ensures outcome.Serve? ==> r.status == GATT_SUCCESS && r.value == Some(outcome.payload[Clamp(offset, |outcome.payload|)..])
    ensures outcome.Refuse? ==> r == Response(outcome.status, None)
  {
    match outcome
    case Serve(payload) => Response(GATT_SUCCESS, Some(SliceAtOffset(payload, offset)))
    case Refuse(status) => Response(status, None)
  }

  /**
   * The Report Reference value of a REPORT characteristic as written: type input for the input
   * report characteristic, output for any other writable one, feature otherwise.
   */
  function ReportReferenceAsWritten(isInputReport: bool, properties: bv32): (r: Bytes)
    ensures |r| == 2 && r[0] == 0x01
    ensures r[1] == 0x01 <==> isInputReport
  {
    if isInputReport then [0x01, 0x01]
    else if properties & PROPERTY_WRITE != 0 || properties & PROPERTY_WRITE_NO_RESPONSE != 0 then [0x01, 0x02]
    else [0x01, 0x03]
  }

  /** The properties of the three report characteristics the HID service sets up. */
  const INPUT_REPORT_PROPERTIES: bv32 := PROPERTY_READ | PROPERTY_NOTIFY
  const OUTPUT_REPORT_PROPERTIES: bv32 := PROPERTY_READ | PROPERTY_WRITE | PROPERTY_WRITE_NO_RESPONSE
  const FEATURE_REPORT_PROPERTIES: bv32 := PROPERTY_READ | PROPERTY_WRITE

  /** As written, the feature report characteristic is announced as an output report. */
  lemma FeatureReportAnnouncedAsOutput()
    ensures ReportReferenceAsWritten(false, FEATURE_REPORT_PROPERTIES) == [0x01, 0x02]
    ensures ReportReferenceAsWritten(false, OUTPUT_REPORT_PROPERTIES) == [0x01, 0x02]
  {
  }

  /**
   * The Report Reference value with output and feature told apart by the property that only the
   * output report characteristic has, write without response.
   */
  function ReportReference(isInputReport: bool, properties: bv32): (r: Bytes)
    ensures |r| == 2 && r[0] == 0x01
    ensures r[1] == 0x01 <==> isInputReport
    ensures r[1] == 0x02 <==> !isInputReport && properties & PROPERTY_WRITE_NO_RESPONSE != 0
    ensures r[1] == 0x03 <==> !isInputReport && properties & PROPERTY_WRITE_NO_RESPONSE == 0
  {
    if isInputReport then [0x01, 0x01]
    else if properties & PROPERTY_WRITE_NO_RESPONSE != 0 then [0x01, 0x02]
    else [0x01, 0x03]
  }

  /** Each report characteristic the HID service sets up is announced with its own type. */
  lemma ReportReferenceMatchesRole()
    ensures ReportReference(true, INPUT_REPORT_PROPERTIES) == [0x01, 0x01]
    ensures ReportReference(false, OUTPUT_REPORT_PROPERTIES) == [0x01, 0x02]
    ensures ReportReference(false, FEATURE_REPORT_PROPERTIES) == [0x01, 0x03]
  {
  }

  /**
   * The payload for a read of a descriptor with UUID `uuid` and stored value `stored`, whose
   * characteristic has UUID `charUuid`, is (or not) the input report characteristic, and has
   * properties `properties`.
   */
  function DescriptorRead(uuid: Uuid, stored: Option<Bytes>, charUuid: Uuid, isInputReport: bool,
                          properties: bv32): (r: Outcome)
    ensures r.Serve? <==>
      uuid == DESCRIPTOR_CLIENT_CHARACTERISTIC_CONFIGURATION
      || (uuid == DESCRIPTOR_REPORT_REFERENCE && charUuid == CHARACTERISTIC_REPORT)
    ensures r.Refuse? && uuid == DESCRIPTOR_REPORT_REFERENCE ==> r.status == GATT_FAILURE
    ensures r.Refuse? && uuid != DESCRIPTOR_REPORT_REFERENCE ==> r.status == GATT_READ_NOT_PERMITTED
  {
    if uuid == DESCRIPTOR_CLIENT_CHARACTERISTIC_CONFIGURATION then
      Serve(OrElse(stored, DISABLE_NOTIFICATION_VALUE))
    else if uuid == DESCRIPTOR_REPORT_REFERENCE then
      if charUuid == CHARACTERISTIC_REPORT then Serve(ReportReference(isInputReport, properties))
      else Refuse(GATT_FAILURE)
    else Refuse(GATT_READ_NOT_PERMITTED)
  }

  /**
   * What a write does: its status, the value to store (None leaves the stored value alone), and
   * whether the bytes go to `onOutputReport`.
   */
  datatype WriteOutcome = WriteOutcome(status: int, store: Option<Bytes>, deliver: bool)

  /** A write of `incoming` to the characteristic with UUID `uuid`. */
  function CharacteristicWrite(uuid: Uuid, incoming: Bytes): (r: WriteOutcome)
    ensures r.status == GATT_SUCCESS <==>
      uuid == CHARACTERISTIC_REPORT
      || ((uuid == CHARACTERISTIC_PROTOCOL_MODE || uuid == CHARACTERISTIC_HID_CONTROL_POINT) && incoming != [])
    ensures r.store.Some? ==> r.store.value == incoming && r.status == GATT_SUCCESS
    ensures r.deliver <==> uuid == CHARACTERISTIC_REPORT
  {
    if uuid == CHARACTERISTIC_REPORT then WriteOutcome(GATT_SUCCESS, Some(incoming), true)
    else if uuid == CHARACTERISTIC_PROTOCOL_MODE then
      if incoming != [] then WriteOutcome(GATT_SUCCESS, Some(incoming), false)
      else WriteOutcome(GATT_INVALID_ATTRIBUTE_LENGTH, None, false)
    else if uuid == CHARACTERISTIC_HID_CONTROL_POINT then
      if incoming != [] then WriteOutcome(GATT_SUCCESS, None, false)
      else WriteOutcome(GATT_INVALID_ATTRIBUTE_LENGTH, None, false)
    else WriteOutcome(GATT_WRITE_NOT_PERMITTED, None, false)
  }

  /** A write of `incoming` to the descriptor with UUID `uuid`. */
  function DescriptorWrite(uuid: Uuid, incoming: Bytes): (r: WriteOutcome)
    ensures r.status == GATT_SUCCESS <==>
      uuid == DESCRIPTOR_CLIENT_CHARACTERISTIC_CONFIGURATION
      && (incoming == ENABLE_NOTIFICATION_VALUE || incoming == DISABLE_NOTIFICATION_VALUE)
    ensures r.store.Some? <==> r.status == GATT_SUCCESS
    ensures r.store.Some? ==> r.store.value == incoming
    ensures !r.deliver
  {
    if uuid == DESCRIPTOR_CLIENT_CHARACTERISTIC_CONFIGURATION then
      if incoming == ENABLE_NOTIFICATION_VALUE || incoming == DISABLE_NOTIFICATION_VALUE then
        WriteOutcome(GATT_SUCCESS, Some(incoming), false)
      else WriteOutcome(GATT_INVALID_ATTRIBUTE_LENGTH, None, false)
    else WriteOutcome(GATT_WRITE_NOT_PERMITTED, None, false)
  }

  /** The value of the write response: the written bytes on success, null otherwise. */
  function WriteResponseValue(status: int, incoming: Bytes): (r: Option<Bytes>)
    ensures r.Some? <==> status == GATT_SUCCESS
    ensures r.Some? ==> r.value == incoming
  {
    if status == GATT_SUCCESS then Some(incoming) else None
  }

  /** The stored value after a write outcome. */
  function Stored(old_: Option<Bytes>, w: WriteOutcome): Option<Bytes>
  {
    if w.store.Some? then w.store else old_
  }

  /**
   * A protocol mode or report written with success is what a later read returns, from offset 0;
   * a refused protocol mode write leaves what reads return unchanged.
   */
  lemma CharacteristicWriteThenRead(uuid: Uuid, stored: Option<Bytes>, incoming: Bytes,
                                    reportMap: Bytes, info: DeviceInformation)
    requires uuid == CHARACTERISTIC_PROTOCOL_MODE || uuid == CHARACTERISTIC_REPORT
    ensures var w := CharacteristicWrite(uuid, incoming);
      w.status == GATT_SUCCESS ==>
        Respond(CharacteristicRead(uuid, Stored(stored, w), reportMap, info), 0) == Response(GATT_SUCCESS, Some(incoming))
    ensures var w := CharacteristicWrite(uuid, incoming);
      w.status != GATT_SUCCESS ==>
        CharacteristicRead(uuid, Stored(stored, w), reportMap, info) == CharacteristicRead(uuid, stored, reportMap, info)
  {
  }

  /** Before any write, the protocol mode reads as Report Protocol Mode and a report as empty. */
  lemma DefaultCharacteristicValues(reportMap: Bytes, info: DeviceInformation)
    ensures CharacteristicRead(CHARACTERISTIC_PROTOCOL_MODE, None, reportMap, info) == Serve([0x01])
    ensures CharacteristicRead(CHARACTERISTIC_REPORT, None, reportMap, info) == Serve([])
  {
  }

  /**
   * A Client Characteristic Configuration written with success is what a later read returns; a
   * refused one leaves it alone; and one never written reads as notifications disabled.
   */
  lemma ConfigurationWriteThenRead(stored: Option<Bytes>, incoming: Bytes, charUuid: Uuid,
                                   isInputReport: bool, properties: bv32)
    ensures var w := DescriptorWrite(DESCRIPTOR_CLIENT_CHARACTERISTIC_CONFIGURATION, incoming);
      DescriptorRead(DESCRIPTOR_CLIENT_CHARACTERISTIC_CONFIGURATION, Stored(stored, w), charUuid, isInputReport, properties)
        == Serve(if w.status == GATT_SUCCESS then incoming else OrElse(stored, DISABLE_NOTIFICATION_VALUE))
    ensures DescriptorRead(DESCRIPTOR_CLIENT_CHARACTERISTIC_CONFIGURATION, None, charUuid, isInputReport, properties)
        == Serve(DISABLE_NOTIFICATION_VALUE)
  {
  }

  /** Every stored Client Characteristic Configuration is one of the two notification values. */
  lemma ConfigurationStaysValid(stored: Option<Bytes>, incoming: Bytes)
    requires stored.Some? ==> stored.value == ENABLE_NOTIFICATION_VALUE || stored.value == DISABLE_NOTIFICATION_VALUE
    ensures var s := Stored(stored, DescriptorWrite(DESCRIPTOR_CLIENT_CHARACTERISTIC_CONFIGURATION, incoming));
      s.Some? ==> s.value == ENABLE_NOTIFICATION_VALUE || s.value == DISABLE_NOTIFICATION_VALUE
  {
  }
}
