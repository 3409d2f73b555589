/**
 * The mouse of MousePeripheral.kt: its report descriptor (report ID 1: three button bits, five
 * padding bits, then X, Y and the wheel as signed bytes), the five-byte input report that
 * `sendMovement` queues, with each `Int` delta narrowed to its low eight bits, and `sendClick`.
 */
module Mouse {
  import opened Common
  import opened HidDescriptor
  import opened HidEngine

  const REPORT_ID_MOUSE: Byte := 0x01

  const BUTTON_1: Byte := 0x01
  const BUTTON_2: Byte := 0x02
  const BUTTON_3: Byte := 0x04

  // ---------------------------------------------------------------------------------------------
  // The report descriptor (`MOUSE_REPORT_MAP`), item by item.

  /** Generic Desktop, Mouse, an Application collection, report ID 1, Pointer, a Physical collection. */
  const MOUSE_HEADER: seq<Item> := [
    Item(UsagePage, [0x01]),
    Item(Usage, [0x02]),
    Item(Collection, [0x01]),
    Item(ReportId, [0x01]),
    Item(Usage, [0x01]),
    Item(Collection, [0x00])
  ]

  /** The Button page, buttons 1 to 3. */
  const MOUSE_BUTTON_USAGES: seq<Item> := [
    Item(UsagePage, [0x09]),
    Item(UsageMinimum, [0x01]),
    Item(UsageMaximum, [0x03])
  ]

  /** Three one-bit buttons. */
  const MOUSE_BUTTONS: seq<Item> := [
    Item(LogicalMinimum, [0x00]),
    Item(LogicalMaximum, [0x01]),
    Item(ReportCount, [0x03]),
    Item(ReportSize, [0x01]),
    Item(Input, [0x02])
  ]

  /** Five constant bits that pad the buttons to a byte. */
  const MOUSE_PADDING: seq<Item> := [
    Item(ReportCount, [0x01]),
    Item(ReportSize, [0x05]),
    Item(Input, [0x03])
  ]

  /** Generic Desktop X, Y and Wheel. */
  const MOUSE_AXIS_USAGES: seq<Item> := [
    Item(UsagePage, [0x01]),
    Item(Usage, [0x30]),
    Item(Usage, [0x31]),
    Item(Usage, [0x38])
  ]

  /** X, Y and the wheel: three relative bytes from -127 to 127. */
  const MOUSE_AXES: seq<Item> := [
    Item(LogicalMinimum, [0x81]),
    Item(LogicalMaximum, [0x7F]),
    Item(ReportSize, [0x08]),
    Item(ReportCount, [0x03]),
    Item(Input, [0x06])
  ]

  /** The ends of the Physical and Application collections. */
  const MOUSE_FOOTER: seq<Item> := [
    Item(EndCollection, []),
    Item(EndCollection, [])
  ]
  /** `MOUSE_REPORT_MAP` as items. */
  const MOUSE_REPORT_ITEMS: seq<Item> := MOUSE_HEADER + MOUSE_BUTTON_USAGES + MOUSE_BUTTONS + MOUSE_PADDING
    + MOUSE_AXIS_USAGES + MOUSE_AXES + MOUSE_FOOTER

  /** `MOUSE_REPORT_MAP`: each item written as its tag byte, then its data. */
  const MOUSE_REPORT_MAP: Bytes := Serialize(MOUSE_REPORT_ITEMS)

  /** Size of a mouse input report: the report ID, the buttons, X, Y and the wheel. */
  const MOUSE_REPORT_LENGTH: nat := 5

  // Walks over each group of items, one after the other.

  lemma MouseHeaderWalk()
    ensures ScanItems(Scan(0, 0, 0, 0, 0, true, true, 0), MOUSE_HEADER, 6) == Scan(0, 0, 0, 0, 2, true, true, 12)
  {
    assert ScanItems(Scan(0, 0, 0, 0, 0, true, true, 0), MOUSE_HEADER, 1) == Scan(0, 0, 0, 0, 0, true, true, 2);
    assert ScanItems(Scan(0, 0, 0, 0, 0, true, true, 0), MOUSE_HEADER, 2) == Scan(0, 0, 0, 0, 0, true, true, 4);
    assert ScanItems(Scan(0, 0, 0, 0, 0, true, true, 0), MOUSE_HEADER, 3) == Scan(0, 0, 0, 0, 1, true, true, 6);
    assert ScanItems(Scan(0, 0, 0, 0, 0, true, true, 0), MOUSE_HEADER, 4) == Scan(0, 0, 0, 0, 1, true, true, 8);
    assert ScanItems(Scan(0, 0, 0, 0, 0, true, true, 0), MOUSE_HEADER, 5) == Scan(0, 0, 0, 0, 1, true, true, 10);
  }

  lemma MouseButtonUsagesWalk()
    ensures ScanItems(Scan(0, 0, 0, 0, 2, true, true, 12), MOUSE_BUTTON_USAGES, 3) == Scan(0, 0, 0, 0, 2, true, true, 18)
  {
    assert ScanItems(Scan(0, 0, 0, 0, 2, true, true, 12), MOUSE_BUTTON_USAGES, 1) == Scan(0, 0, 0, 0, 2, true, true, 14);
    assert ScanItems(Scan(0, 0, 0, 0, 2, true, true, 12), MOUSE_BUTTON_USAGES, 2) == Scan(0, 0, 0, 0, 2, true, true, 16);
  }

  lemma MouseButtonsWalk()
    ensures ScanItems(Scan(0, 0, 0, 0, 2, true, true, 18), MOUSE_BUTTONS, 5) == Scan(1, 3, 3, 0, 2, true, true, 28)
  {
    assert ScanItems(Scan(0, 0, 0, 0, 2, true, true, 18), MOUSE_BUTTONS, 1) == Scan(0, 0, 0, 0, 2, true, true, 20);
    assert ScanItems(Scan(0, 0, 0, 0, 2, true, true, 18), MOUSE_BUTTONS, 2) == Scan(0, 0, 0, 0, 2, true, true, 22);
    assert ScanItems(Scan(0, 0, 0, 0, 2, true, true, 18), MOUSE_BUTTONS, 3) == Scan(0, 3, 0, 0, 2, true, true, 24);
    assert ScanItems(Scan(0, 0, 0, 0, 2, true, true, 18), MOUSE_BUTTONS, 4) == Scan(1, 3, 0, 0, 2, true, true, 26);
  }

  lemma MousePaddingWalk()
    ensures ScanItems(Scan(1, 3, 3, 0, 2, true, true, 28), MOUSE_PADDING, 3) == Scan(5, 1, 8, 0, 2, true, true, 34)
  {
    assert ScanItems(Scan(1, 3, 3, 0, 2, true, true, 28), MOUSE_PADDING, 1) == Scan(1, 1, 3, 0, 2, true, true, 30);
    assert ScanItems(Scan(1, 3, 3, 0, 2, true, true, 28), MOUSE_PADDING, 2) == Scan(5, 1, 3, 0, 2, true, true, 32);
  }

  lemma MouseAxisUsagesWalk()
    ensures ScanItems(Scan(5, 1, 8, 0, 2, true, true, 34), MOUSE_AXIS_USAGES, 4) == Scan(5, 1, 8, 0, 2, true, true, 42)
  {
    assert ScanItems(Scan(5, 1, 8, 0, 2, true, true, 34), MOUSE_AXIS_USAGES, 1) == Scan(5, 1, 8, 0, 2, true, true, 36);
    assert ScanItems(Scan(5, 1, 8, 0, 2, true, true, 34), MOUSE_AXIS_USAGES, 2) == Scan(5, 1, 8, 0, 2, true, true, 38);
    assert ScanItems(Scan(5, 1, 8, 0, 2, true, true, 34), MOUSE_AXIS_USAGES, 3) == Scan(5, 1, 8, 0, 2, true, true, 40);
  }

  lemma MouseAxesWalk()
    ensures ScanItems(Scan(5, 1, 8, 0, 2, true, true, 42), MOUSE_AXES, 5) == Scan(8, 3, 32, 0, 2, true, true, 52)
  {
    assert ScanItems(Scan(5, 1, 8, 0, 2, true, true, 42), MOUSE_AXES, 1) == Scan(5, 1, 8, 0, 2, true, true, 44);
    assert ScanItems(Scan(5, 1, 8, 0, 2, true, true, 42), MOUSE_AXES, 2) == Scan(5, 1, 8, 0, 2, true, true, 46);
    assert ScanItems(Scan(5, 1, 8, 0, 2, true, true, 42), MOUSE_AXES, 3) == Scan(8, 1, 8, 0, 2, true, true, 48);
    assert ScanItems(Scan(5, 1, 8, 0, 2, true, true, 42), MOUSE_AXES, 4) == Scan(8, 3, 8, 0, 2, true, true, 50);
  }

  lemma MouseFooterWalk()
    ensures ScanItems(Scan(8, 3, 32, 0, 2, true, true, 52), MOUSE_FOOTER, 2) == Scan(8, 3, 32, 0, 0, true, true, 54)
  {
    assert ScanItems(Scan(8, 3, 32, 0, 2, true, true, 52), MOUSE_FOOTER, 1) == Scan(8, 3, 32, 0, 1, true, true, 53);
  }

  /** The walk over the whole descriptor. */
  lemma MouseReportMapWalk()
    ensures ScanItems(START, MOUSE_REPORT_ITEMS, |MOUSE_REPORT_ITEMS|) == Scan(8, 3, 32, 0, 0, true, true, 54)
  {
    var h, bu, b, p, au, a, f :=
      MOUSE_HEADER, MOUSE_BUTTON_USAGES, MOUSE_BUTTONS, MOUSE_PADDING, MOUSE_AXIS_USAGES, MOUSE_AXES, MOUSE_FOOTER;
    MouseHeaderWalk();
    MouseButtonUsagesWalk();
    MouseButtonsWalk();
    MousePaddingWalk();
    MouseAxisUsagesWalk();
    MouseAxesWalk();
    MouseFooterWalk();
    ScanConcat(START, h, bu, |bu|);
    ScanConcat(START, h + bu, b, |b|);
    ScanConcat(START, h + bu + b, p, |p|);
    ScanConcat(START, h + bu + b + p, au, |au|);
    ScanConcat(START, h + bu + b + p + au, a, |a|);
    ScanConcat(START, h + bu + b + p + au + a, f, |f|);
  }

  /**
   * `MOUSE_REPORT_MAP` reads back as its items with nothing left over, both collections are
   * closed, it is 54 bytes long, and its input fields take 32 bits: the four bytes of a movement
   * report after the report ID.
   */
  lemma MouseReportMapWellFormed()
    ensures ParseItems(MOUSE_REPORT_MAP) == Some(MOUSE_REPORT_ITEMS)
    ensures |MOUSE_REPORT_MAP| == 54
    ensures var w := ScanItems(START, MOUSE_REPORT_ITEMS, |MOUSE_REPORT_ITEMS|);
      w.depth == 0 && w.nested && w.outputBits == 0
      && w.inputBits == 8 * (MOUSE_REPORT_LENGTH - 1)
  {
    MouseReportMapWalk();
    ScanShort(START, MOUSE_REPORT_ITEMS, |MOUSE_REPORT_ITEMS|);
    ParseSerialize(MOUSE_REPORT_ITEMS);
    ScanLength(START, MOUSE_REPORT_ITEMS);
  }

  /** The axes are declared from -127 to 127. */
  lemma AxesLogicalRange()
    ensures MOUSE_AXES[0] == Item(LogicalMinimum, [0x81]) && SignedByte(MOUSE_AXES[0].data[0]) == -127
    ensures MOUSE_AXES[1] == Item(LogicalMaximum, [0x7F]) && SignedByte(MOUSE_AXES[1].data[0]) == 127
  {
  }

  // ---------------------------------------------------------------------------------------------
  // Movement reports.

  /**
   * Kotlin's `Int.toByte()`: the low eight bits of `v`. Read back as two's complement it differs
   * from `v` by a multiple of 256 and lies in -128..127.
   */
  function ToByte(v: int32): (b: Byte)
    ensures (SignedByte(b) - v as int) % 256 == 0
    ensures -128 <= SignedByte(b) <= 127
  {
    ByteOf((v as int) % 256)
  }

  /** A delta in -128..127 survives the narrowing. */
  lemma SmallDeltasSurvive(v: int32)
    requires -128 <= v as int <= 127
    ensures SignedByte(ToByte(v)) == v as int
  {
  }

  /** A larger delta is truncated, not saturated: 200 arrives as -56. */
  lemma NarrowingTruncates()
    ensures SignedByte(ToByte(200)) == -56
    ensures SignedByte(ToByte(-200)) == 56
  {
  }

  /** A delta of 128 plus any multiple of 256 arrives as -128, below the declared LOGICAL_MINIMUM of -127. */
  lemma DeltaBelowLogicalMinimum(v: int32)
    requires (v as int) % 256 == 128
    ensures SignedByte(ToByte(v)) == -128 < SignedByte(MOUSE_AXES[0].data[0])
  {
  }

  /** The report `sendMovement(dx, dy, dWheel, buttons)` queues. */
  function MovementReport(dx: int32, dy: int32, dWheel: int32, buttons: Byte): (r: Bytes)
    ensures |r| == MOUSE_REPORT_LENGTH
  {
    [REPORT_ID_MOUSE, buttons, ToByte(dx), ToByte(dy), ToByte(dWheel)]
  }

  /** A host's reading of a mouse input report as the descriptor lays it out: the buttons, then X, Y and the wheel. */
  datatype Movement = Movement(buttons: Byte, dx: int, dy: int, dWheel: int)

  /** How a host reads a report under `MOUSE_REPORT_MAP`; None for a report of another ID or length. */
  function HostMovement(r: Bytes): Option<Movement>
  {
    if |r| == MOUSE_REPORT_LENGTH && r[0] == REPORT_ID_MOUSE then
      Some(Movement(r[1], SignedByte(r[2]), SignedByte(r[3]), SignedByte(r[4])))
    else None
  }

  /**
   * The host reads back the buttons and every delta of a movement report, each delta modulo 256
   * in -128..127; deltas already in -128..127 come back unchanged.
   */
  lemma MovementRoundTrip(dx: int32, dy: int32, dWheel: int32, buttons: Byte)
    ensures var m := HostMovement(MovementReport(dx, dy, dWheel, buttons));
      m.Some? && m.value.buttons == buttons
      && (m.value.dx - dx as int) % 256 == 0 && (m.value.dy - dy as int) % 256 == 0
      && (m.value.dWheel - dWheel as int) % 256 == 0
    ensures -128 <= dx as int <= 127 && -128 <= dy as int <= 127 && -128 <= dWheel as int <= 127 ==>
      HostMovement(MovementReport(dx, dy, dWheel, buttons)) == Some(Movement(buttons, dx as int, dy as int, dWheel as int))
  {
    if -128 <= dx as int <= 127 && -128 <= dy as int <= 127 && -128 <= dWheel as int <= 127 {
      SmallDeltasSurvive(dx);
      SmallDeltasSurvive(dy);
      SmallDeltasSurvive(dWheel);
    }
  }

  /** A click is a report with the buttons down and no movement, then one with every button up. */
  lemma ClickReports(buttons: Byte)
    ensures HostMovement(MovementReport(0, 0, 0, buttons)) == Some(Movement(buttons, 0, 0, 0))
    ensures HostMovement(MovementReport(0, 0, 0, 0x00)) == Some(Movement(0x00, 0, 0, 0))
  {
  }

  // ---------------------------------------------------------------------------------------------
  // The mouse.

  /** `MousePeripheral`: a peripheral with input reports only, sending every 10 ms. */
  class MousePeripheral {
    const peripheral: HidPeripheral

    constructor (adapter: Adapter)
      requires adapter.enabled
      ensures fresh(peripheral) && peripheral.Valid()
      ensures peripheral.adapter == adapter && peripheral.reportMap == MOUSE_REPORT_MAP
      ensures peripheral.needInputReport && !peripheral.needOutputReport && !peripheral.needFeatureReport
      ensures peripheral.dataSendingRate == 10
      ensures peripheral.inputReportQueue == [] && peripheral.effects == []
    {
      peripheral := new HidPeripheral(true, false, false, 10, MOUSE_REPORT_MAP, adapter);
    }

    /** `sendMovement`: fills a five-byte report slot by slot and queues it. */
    method SendMovement(dx: int32, dy: int32, dWheel: int32, buttons: Byte)
      requires peripheral.Valid()
      modifies peripheral
      ensures peripheral.Valid()
      ensures peripheral.inputReportQueue == old(peripheral.inputReportQueue) + [MovementReport(dx, dy, dWheel, buttons)]
      ensures peripheral.OnlyQueueChanged()
    {
      var report := new bv8[MOUSE_REPORT_LENGTH];
      report[0] := REPORT_ID_MOUSE;
      report[1] := buttons;
      report[2] := ToByte(dx);
      report[3] := ToByte(dy);
      report[4] := ToByte(dWheel);
      assert report[..] == MovementReport(dx, dy, dWheel, buttons);
      peripheral.AddInputReport(Some(report[..]));
    }

    /** `sendClick`: the buttons down, then every button up, with no movement. */
    method SendClick(buttons: Byte)
      requires peripheral.Valid()
      modifies peripheral
      ensures peripheral.Valid()
      ensures peripheral.inputReportQueue == old(peripheral.inputReportQueue)
        + [MovementReport(0, 0, 0, buttons), MovementReport(0, 0, 0, 0x00)]
      ensures peripheral.OnlyQueueChanged()
    {
      SendMovement(0, 0, 0, buttons);
      SendMovement(0, 0, 0, 0x00);
    }

    /** `onOutputReport`: a mouse ignores output reports. */
    method OnOutputReport(report: Bytes)
      ensures peripheral.inputReportQueue == old(peripheral.inputReportQueue)
    {
    }
  }
}
