/**
 * The GATT attribute objects the peripheral builds and the constants it uses from the Android
 * Bluetooth API (BluetoothGatt status codes, BluetoothGattCharacteristic property bits,
 * BluetoothProfile connection states and BluetoothGattDescriptor notification values), and the
 * UUIDs of the services, characteristics and descriptors of HidPeripheral.kt.
 */
module Gatt {
  import opened Common
  import opened BleUuid

  // Status codes of BluetoothGatt.
  const GATT_SUCCESS: int := 0
  const GATT_READ_NOT_PERMITTED: int := 2
  const GATT_WRITE_NOT_PERMITTED: int := 3
  const GATT_INVALID_ATTRIBUTE_LENGTH: int := 13
  const GATT_FAILURE: int := 257

  // Connection states of BluetoothProfile.
  const STATE_DISCONNECTED: int := 0
  const STATE_CONNECTED: int := 2

  // Bond state of BluetoothDevice.
  const BOND_NONE: int := 10

  // Property bits of BluetoothGattCharacteristic.
  const PROPERTY_READ: bv32 := 0x02
  const PROPERTY_WRITE_NO_RESPONSE: bv32 := 0x04
  const PROPERTY_WRITE: bv32 := 0x08
  const PROPERTY_NOTIFY: bv32 := 0x10

  // Client Characteristic Configuration values of BluetoothGattDescriptor.
  const ENABLE_NOTIFICATION_VALUE: Bytes := [0x01, 0x00]
  const DISABLE_NOTIFICATION_VALUE: Bytes := [0x00, 0x00]

  // Services, characteristics and descriptors (HidPeripheral.kt, companion object).
  const SERVICE_DEVICE_INFORMATION: Uuid := FromShortValue(0x180A)
  const CHARACTERISTIC_MANUFACTURER_NAME: Uuid := FromShortValue(0x2A29)
  const CHARACTERISTIC_MODEL_NUMBER: Uuid := FromShortValue(0x2A24)
  const CHARACTERISTIC_SERIAL_NUMBER: Uuid := FromShortValue(0x2A25)
  const SERVICE_BATTERY: Uuid := FromShortValue(0x180F)
  const CHARACTERISTIC_BATTERY_LEVEL: Uuid := FromShortValue(0x2A19)
  const SERVICE_BLE_HID: Uuid := FromShortValue(0x1812)
  const CHARACTERISTIC_HID_INFORMATION: Uuid := FromShortValue(0x2A4A)
  const CHARACTERISTIC_REPORT_MAP: Uuid := FromShortValue(0x2A4B)
  const CHARACTERISTIC_HID_CONTROL_POINT: Uuid := FromShortValue(0x2A4C)
  const CHARACTERISTIC_REPORT: Uuid := FromShortValue(0x2A4D)
  const CHARACTERISTIC_PROTOCOL_MODE: Uuid := FromShortValue(0x2A4E)
  const DESCRIPTOR_REPORT_REFERENCE: Uuid := FromShortValue(0x2908)
  const DESCRIPTOR_CLIENT_CHARACTERISTIC_CONFIGURATION: Uuid := FromShortValue(0x2902)

  /** The characteristic UUIDs the peripheral answers reads for. */
  const READABLE_CHARACTERISTICS: set<Uuid> := {
    CHARACTERISTIC_HID_INFORMATION, CHARACTERISTIC_REPORT_MAP,
    CHARACTERISTIC_MANUFACTURER_NAME, CHARACTERISTIC_MODEL_NUMBER, CHARACTERISTIC_SERIAL_NUMBER,
    CHARACTERISTIC_BATTERY_LEVEL, CHARACTERISTIC_PROTOCOL_MODE, CHARACTERISTIC_REPORT }

  /** A `BluetoothGattCharacteristic`: identity matters, its value is updated in place. */
  class GattCharacteristic {
    const uuid: Uuid
    const properties: bv32
    var value: Option<Bytes>
    var descriptors: seq<GattDescriptor>

    constructor (uuid: Uuid, properties: bv32)
      ensures this.uuid == uuid && this.properties == properties
      ensures value == None && descriptors == []
    {
      this.uuid := uuid;
      this.properties := properties;
      value := None;
      descriptors := [];
    }

    /** `addDescriptor`: attaches a descriptor made for this characteristic. */
    method AddDescriptor(d: GattDescriptor)
      requires d.characteristic == this
      modifies this
      ensures descriptors == old(descriptors) + [d]
      ensures value == old(value)
    {
      descriptors := descriptors + [d];
    }
  }

  /** A `BluetoothGattDescriptor` of a characteristic; its value is updated in place. */
  class GattDescriptor {
    const uuid: Uuid
    const characteristic: GattCharacteristic
    var value: Option<Bytes>

    constructor (uuid: Uuid, characteristic: GattCharacteristic)
      ensures this.uuid == uuid && this.characteristic == characteristic && value == None
    {
      this.uuid := uuid;
      this.characteristic := characteristic;
      value := None;
    }
  }

  /** A primary `BluetoothGattService` once built: its UUID and its characteristics in order. */
  datatype GattService = GattService(uuid: Uuid, characteristics: seq<GattCharacteristic>)
}
