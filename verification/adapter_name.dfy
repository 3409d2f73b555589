/**
 * The temporary renaming of the Bluetooth adapter in HidPeripheral.kt: before advertising, the
 * adapter's name is saved in `originalAdapterName` and, when it differs from `deviceName`, the
 * adapter is renamed; `restoreAdapterName` puts the saved name back if the adapter's name
 * differs from it, and forgets it. Whether a `setName` call is accepted is up to the system, so
 * it is a parameter.
 */
module AdapterName {
  import opened Common

  /** The adapter's name and the saved name (`originalAdapterName`, None for null). */
  datatype NameState = NameState(current: Utf8, saved: Option<Utf8>)

  /** The `setName` call made before advertising, if any. */
  function RenameRequest(st: NameState, deviceName: Utf8): (r: Option<Utf8>)
    ensures r.Some? <==> deviceName != [] && deviceName != st.current
    ensures r.Some? ==> r.value == deviceName
  {
    if deviceName != [] && st.current != deviceName then Some(deviceName) else None
  }

  /** The adapter's name after a `setName(name)` call that the system does or does not accept. */
  function AfterSetName(current: Utf8, request: Option<Utf8>, accepted: bool): Utf8
  {
    if request.Some? && accepted then request.value else current
  }

  /** The start of `startBleAdvertising` as written: the current name is always saved. */
  function BeginAsWritten(st: NameState, deviceName: Utf8, accepted: bool): (r: NameState)
    ensures r.saved == Some(st.current)
    ensures r.current == deviceName || r.current == st.current
  {
    NameState(AfterSetName(st.current, RenameRequest(st, deviceName), accepted), Some(st.current))
  }

  /**
   * The start of `startBleAdvertising` keeping a name saved by an earlier start that was never
   * restored, so that the name before the first start is the one put back.
   */
  function Begin(st: NameState, deviceName: Utf8, accepted: bool): (r: NameState)
    ensures r.saved == if st.saved.Some? then st.saved else Some(st.current)
    ensures r.current == deviceName || r.current == st.current
    ensures accepted && deviceName != [] ==> r.current == deviceName
  {
    NameState(AfterSetName(st.current, RenameRequest(st, deviceName), accepted),
              if st.saved.Some? then st.saved else Some(st.current))
  }

  /** The `setName` call made by `restoreAdapterName`, if any. */
  function RestoreRequest(st: NameState): (r: Option<Utf8>)
    ensures r.Some? <==> st.saved.Some? && st.saved.value != st.current
    ensures r.Some? ==> r == st.saved
  {
    if st.saved.Some? && st.current != st.saved.value then st.saved else None
  }

  /** `restoreAdapterName`. */
  function Restore(st: NameState, accepted: bool): (r: NameState)
    ensures r.saved == None
    ensures st.saved.None? ==> r == st
    ensures st.saved.Some? && accepted ==> r.current == st.saved.value
    ensures !accepted ==> r.current == st.current
  {
    if st.saved.None? then st
    else NameState(AfterSetName(st.current, RestoreRequest(st), accepted), None)
  }

  /** A second restore changes nothing and makes no `setName` call. */
  lemma RestoreIsIdempotent(st: NameState, a: bool, b: bool)
    ensures RestoreRequest(Restore(st, a)) == None
    ensures Restore(Restore(st, a), b) == Restore(st, a)
  {
  }

  /**
   * After any number of starts, each with or without an accepted rename, a restore the system
   * accepts gives the adapter back the name it had before the first start.
   */
  lemma {:induction false} RestoreAfterStarts(st: NameState, names: seq<Utf8>, accepted: seq<bool>)
    requires st.saved == None && |names| == |accepted|
    ensures Restore(BeginAll(st, names, accepted), true).current == st.current
  {
    BeginAllKeepsFirstName(st, names, accepted);
  }

  /** Several starts in a row. */
  function BeginAll(st: NameState, names: seq<Utf8>, accepted: seq<bool>): NameState
    requires |names| == |accepted|
    decreases |names|
  {
    if names == [] then st
    else BeginAll(Begin(st, names[0], accepted[0]), names[1..], accepted[1..])
  }

  /** Starting any number of times saves the name from before the first start, if none was saved. */
  lemma {:induction false} BeginAllKeepsFirstName(st: NameState, names: seq<Utf8>, accepted: seq<bool>)
    requires |names| == |accepted|
    ensures BeginAll(st, names, accepted).saved ==
      if st.saved.Some? || names == [] then st.saved else Some(st.current)
    decreases |names|
  {
    if names != [] {
      var next := Begin(st, names[0], accepted[0]);
      BeginAllKeepsFirstName(next, names[1..], accepted[1..]);
    }
  }

  /**
   * As written, two starts with an accepted rename and no restore between them lose the
   * original name: the restore leaves the adapter with the advertising name.
   */
  lemma AsWrittenLosesOriginalName()
    ensures var original := NameState([0x50], None);
      var twice := BeginAsWritten(BeginAsWritten(original, [0x48], true), [0x48], true);
      Restore(twice, true).current == [0x48] && RestoreRequest(twice) == None
  {
  }

  /** With the saved name kept, the same two starts and a restore bring the original name back. */
  lemma StartsThenRestoreKeepsOriginalName()
    ensures var original := NameState([0x50], None);
      var twice := Begin(Begin(original, [0x48], true), [0x48], true);
      Restore(twice, true).current == [0x50] && RestoreRequest(twice) == Some([0x50])
  {
  }
}
