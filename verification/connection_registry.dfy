/**
 * The map of connected devices in HidPeripheral.kt (`bluetoothDevicesMap`, keyed by device
 * address) and how `onConnectionStateChange` updates it: a successful connection adds the
 * device, a failed connection or a disconnection removes it, any other state leaves it alone.
 */
module ConnectionRegistry {
  import opened Common
  import opened Gatt

  /** A `BluetoothDevice`: its address and its bond state when the event arrives. */
  datatype Device = Device(address: string, bondState: int)

  /** A call of `onConnectionStateChange(device, status, newState)`. */
  datatype ConnectionEvent = ConnectionEvent(device: Device, status: int, newState: int)

  /** Every entry is filed under its own device's address. */
  predicate KeyedByAddress(m: map<string, Device>)
  {
    forall a :: a in m ==> m[a].address == a
  }

  /** The map after one connection state change. */
  function Apply(m: map<string, Device>, e: ConnectionEvent): (r: map<string, Device>)
    ensures KeyedByAddress(m) ==> KeyedByAddress(r)
    ensures forall a :: a != e.device.address ==> (a in r <==> a in m) && (a in r ==> r[a] == m[a])
    ensures e.device.address in r <==>
      if e.newState == STATE_CONNECTED then e.status == GATT_SUCCESS
      else if e.newState == STATE_DISCONNECTED then false
      else e.device.address in m
    ensures e.device.address in r && (e.newState == STATE_CONNECTED || e.newState == STATE_DISCONNECTED)
      ==> r[e.device.address] == e.device
  {
    var a := e.device.address;
    if e.newState == STATE_CONNECTED then
      if e.status == GATT_SUCCESS then m[a := e.device] else m - {a}
    else if e.newState == STATE_DISCONNECTED then m - {a}
    else m
  }

  /** The map after a sequence of events, in order. */
  function ApplyAll(m: map<string, Device>, events: seq<ConnectionEvent>): map<string, Device>
  {
    if events == [] then m else Apply(ApplyAll(m, events[..|events| - 1]), events[|events| - 1])
  }

  /**
   * What the events say about `address`: None when no event connected or disconnected it,
   * otherwise whether the last such event was a successful connection.
   */
  function LastVerdict(events: seq<ConnectionEvent>, address: string): Option<bool>
  {
    if events == [] then None
    else
      var e := events[|events| - 1];
      if e.device.address == address && (e.newState == STATE_CONNECTED || e.newState == STATE_DISCONNECTED) then
        Some(e.newState == STATE_CONNECTED && e.status == GATT_SUCCESS)
      else LastVerdict(events[..|events| - 1], address)
  }

  /**
   * A device is in the map after a sequence of events exactly when its last connect or
   * disconnect event was a successful connection, or, with no such event, when it was there
   * before.
   */
  lemma {:induction false} MapFollowsLastEvent(m: map<string, Device>, events: seq<ConnectionEvent>, address: string)
    ensures address in ApplyAll(m, events) <==>
      match LastVerdict(events, address)
      case Some(connected) => connected
      case None => address in m
  {
    if events != [] {
      MapFollowsLastEvent(m, events[..|events| - 1], address);
    }
  }

  /** Applying events keeps every entry filed under its own address. */
  lemma {:induction false} ApplyAllKeepsKeys(m: map<string, Device>, events: seq<ConnectionEvent>)
    requires KeyedByAddress(m)
    ensures KeyedByAddress(ApplyAll(m, events))
  {
    if events != [] {
      ApplyAllKeepsKeys(m, events[..|events| - 1]);
    }
  }

  /** The devices notified by the report timer: the values of the map (`getDevices`). */
  function Devices(m: map<string, Device>): (r: set<Device>)
    ensures KeyedByAddress(m) ==> |r| == |m|
    ensures KeyedByAddress(m) ==> forall d :: d in r <==> d.address in m && m[d.address] == d
  {
    var r := set a | a in m :: m[a];
    if KeyedByAddress(m) then
      DevicesOfKeyedMap(m);
      r
    else r
  }

  /** In a map keyed by address, different keys hold different devices, so there are as many devices as keys. */
  lemma {:induction false} DevicesOfKeyedMap(m: map<string, Device>)
    requires KeyedByAddress(m)
    ensures |set a | a in m :: m[a]| == |m|
    decreases |m|
  {
    if m != map[] {
      var a :| a in m;
      var m' := m - {a};
      DevicesOfKeyedMap(m');
      var s := set b | b in m :: m[b];
      var s' := set b | b in m' :: m'[b];
      forall x | x in s
        ensures x in s' + {m[a]}
      {
        var b :| b in m && m[b] == x;
        if b != a {
          assert b in m';
        }
      }
      assert s == s' + {m[a]};
      assert m[a] !in s';
    }
  }
}
