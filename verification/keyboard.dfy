/**
 * The keyboard of KeyboardPeripheral.kt: its report descriptor (report ID 1: a modifier byte, a
 * reserved byte and an array of six key codes in; five LED bits and three padding bits out), the
 * input reports it queues for a key press and for a text typed on the US layout of KeyLayout, and
 * how it reads the LED output report.
 */
module Keyboard {
  import opened Common
  import opened HidDescriptor
  import opened HidEngine
  import opened KeyLayout

  // ---------------------------------------------------------------------------------------------
  // The report descriptor (`REPORT_MAP`), item by item.

  /** Generic Desktop, Keyboard, an Application collection, report ID 1. */
  const KEYBOARD_HEADER: seq<Item> := [
    Item(UsagePage, [0x01]),
    Item(Usage, [0x06]),
    Item(Collection, [0x01]),
    Item(ReportId, [0x01])
  ]

  /** The Keyboard/Keypad page, usages 0xE0 (Left Control) to 0xE7 (Right GUI). */
  const KEYBOARD_MODIFIER_USAGES: seq<Item> := [
    Item(UsagePage, [0x07]),
    Item(UsageMinimum, [0xE0]),
    Item(UsageMaximum, [0xE7])
  ]

  /** The modifier byte: eight one-bit keys. */
  const KEYBOARD_MODIFIERS: seq<Item> := [
    Item(LogicalMinimum, [0x00]),
    Item(LogicalMaximum, [0x01]),
    Item(ReportSize, [0x01]),
    Item(ReportCount, [0x08]),
    Item(Input, [0x02])
  ]

  /** The reserved byte, constant. */
  const KEYBOARD_RESERVED: seq<Item> := [
    Item(ReportCount, [0x01]),
    Item(ReportSize, [0x08]),
    Item(Input, [0x01])
  ]

  /** Five one-bit LEDs, Num Lock to Kana, in the output report. */
  const KEYBOARD_LEDS: seq<Item> := [
    Item(ReportCount, [0x05]),
    Item(ReportSize, [0x01]),
    Item(UsagePage, [0x08]),
    Item(UsageMinimum, [0x01]),
    Item(UsageMaximum, [0x05]),
    Item(Output, [0x02])
  ]

  /** Three constant bits that pad the LEDs to a byte. */
  const KEYBOARD_LED_PADDING: seq<Item> := [
    Item(ReportCount, [0x01]),
    Item(ReportSize, [0x03]),
    Item(Output, [0x01])
  ]

  /** Six bytes, each from 0 to 0x65. */
  const KEYBOARD_KEY_FIELD: seq<Item> := [
    Item(ReportCount, [0x06]),
    Item(ReportSize, [0x08]),
    Item(LogicalMinimum, [0x00]),
    Item(LogicalMaximum, [0x65])
  ]

  /** The key array: key codes 0 to 0x65 of the Keyboard/Keypad page. */
  const KEYBOARD_KEYS: seq<Item> := [
    Item(UsagePage, [0x07]),
    Item(UsageMinimum, [0x00]),
    Item(UsageMaximum, [0x65]),
    Item(Input, [0x00])
  ]

  /** The end of the Application collection. */
  const KEYBOARD_FOOTER: seq<Item> := [
    Item(EndCollection, [])
  ]

  /** `REPORT_MAP` as items. */
  const REPORT_ITEMS: seq<Item> :=
    KEYBOARD_HEADER + KEYBOARD_MODIFIER_USAGES + KEYBOARD_MODIFIERS + KEYBOARD_RESERVED + KEYBOARD_LEDS
    + KEYBOARD_LED_PADDING + KEYBOARD_KEY_FIELD + KEYBOARD_KEYS + KEYBOARD_FOOTER

  /** `REPORT_MAP`: each item written as its tag byte, then its data. */
  const REPORT_MAP: Bytes := Serialize(REPORT_ITEMS)

  /** Size of a keyboard input report: the report ID, the modifier byte, the reserved byte, six keys. */
  const KEY_REPORT_LENGTH: nat := 9

  /** Size of the LED output report: the report ID and the LED byte. */
  const LED_REPORT_LENGTH: nat := 2

  // Walks over each group of items, one after the other.

  lemma KeyboardHeaderWalk()
    ensures ScanItems(Scan(0, 0, 0, 0, 0, true, true, 0), KEYBOARD_HEADER, 4) == Scan(0, 0, 0, 0, 1, true, true, 8)
  {
    assert ScanItems(Scan(0, 0, 0, 0, 0, true, true, 0), KEYBOARD_HEADER, 1) == Scan(0, 0, 0, 0, 0, true, true, 2);
    assert ScanItems(Scan(0, 0, 0, 0, 0, true, true, 0), KEYBOARD_HEADER, 2) == Scan(0, 0, 0, 0, 0, true, true, 4);
    assert ScanItems(Scan(0, 0, 0, 0, 0, true, true, 0), KEYBOARD_HEADER, 3) == Scan(0, 0, 0, 0, 1, true, true, 6);
  }

  lemma KeyboardModifierUsagesWalk()
    ensures ScanItems(Scan(0, 0, 0, 0, 1, true, true, 8), KEYBOARD_MODIFIER_USAGES, 3) == Scan(0, 0, 0, 0, 1, true, true, 14)
  {
    assert ScanItems(Scan(0, 0, 0, 0, 1, true, true, 8), KEYBOARD_MODIFIER_USAGES, 1) == Scan(0, 0, 0, 0, 1, true, true, 10);
    assert ScanItems(Scan(0, 0, 0, 0, 1, true, true, 8), KEYBOARD_MODIFIER_USAGES, 2) == Scan(0, 0, 0, 0, 1, true, true, 12);
  }

  lemma KeyboardModifiersWalk()
    ensures ScanItems(Scan(0, 0, 0, 0, 1, true, true, 14), KEYBOARD_MODIFIERS, 5) == Scan(1, 8, 8, 0, 1, true, true, 24)
  {
    assert ScanItems(Scan(0, 0, 0, 0, 1, true, true, 14), KEYBOARD_MODIFIERS, 1) == Scan(0, 0, 0, 0, 1, true, true, 16);
    assert ScanItems(Scan(0, 0, 0, 0, 1, true, true, 14), KEYBOARD_MODIFIERS, 2) == Scan(0, 0, 0, 0, 1, true, true, 18);
    assert ScanItems(Scan(0, 0, 0, 0, 1, true, true, 14), KEYBOARD_MODIFIERS, 3) == Scan(1, 0, 0, 0, 1, true, true, 20);
    assert ScanItems(Scan(0, 0, 0, 0, 1, true, true, 14), KEYBOARD_MODIFIERS, 4) == Scan(1, 8, 0, 0, 1, true, true, 22);
  }

  lemma KeyboardReservedWalk()
    ensures ScanItems(Scan(1, 8, 8, 0, 1, true, true, 24), KEYBOARD_RESERVED, 3) == Scan(8, 1, 16, 0, 1, true, true, 30)
  {
    assert ScanItems(Scan(1, 8, 8, 0, 1, true, true, 24), KEYBOARD_RESERVED, 1) == Scan(1, 1, 8, 0, 1, true, true, 26);
    assert ScanItems(Scan(1, 8, 8, 0, 1, true, true, 24), KEYBOARD_RESERVED, 2) == Scan(8, 1, 8, 0, 1, true, true, 28);
  }

  lemma KeyboardLedsWalk()
    ensures ScanItems(Scan(8, 1, 16, 0, 1, true, true, 30), KEYBOARD_LEDS, 6) == Scan(1, 5, 16, 5, 1, true, true, 42)
  {
    assert ScanItems(Scan(8, 1, 16, 0, 1, true, true, 30), KEYBOARD_LEDS, 1) == Scan(8, 5, 16, 0, 1, true, true, 32);
    assert ScanItems(Scan(8, 1, 16, 0, 1, true, true, 30), KEYBOARD_LEDS, 2) == Scan(1, 5, 16, 0, 1, true, true, 34);
    assert ScanItems(Scan(8, 1, 16, 0, 1, true, true, 30), KEYBOARD_LEDS, 3) == Scan(1, 5, 16, 0, 1, true, true, 36);
    assert ScanItems(Scan(8, 1, 16, 0, 1, true, true, 30), KEYBOARD_LEDS, 4) == Scan(1, 5, 16, 0, 1, true, true, 38);
    assert ScanItems(Scan(8, 1, 16, 0, 1, true, true, 30), KEYBOARD_LEDS, 5) == Scan(1, 5, 16, 0, 1, true, true, 40);
  }

  lemma KeyboardLedPaddingWalk()
    ensures ScanItems(Scan(1, 5, 16, 5, 1, true, true, 42), KEYBOARD_LED_PADDING, 3) == Scan(3, 1, 16, 8, 1, true, true, 48)
  {
    assert ScanItems(Scan(1, 5, 16, 5, 1, true, true, 42), KEYBOARD_LED_PADDING, 1) == Scan(1, 1, 16, 5, 1, true, true, 44);
    assert ScanItems(Scan(1, 5, 16, 5, 1, true, true, 42), KEYBOARD_LED_PADDING, 2) == Scan(3, 1, 16, 5, 1, true, true, 46);
  }

  lemma KeyboardKeyFieldWalk()
    ensures ScanItems(Scan(3, 1, 16, 8, 1, true, true, 48), KEYBOARD_KEY_FIELD, 4) == Scan(8, 6, 16, 8, 1, true, true, 56)
  {
    assert ScanItems(Scan(3, 1, 16, 8, 1, true, true, 48), KEYBOARD_KEY_FIELD, 1) == Scan(3, 6, 16, 8, 1, true, true, 50);
    assert ScanItems(Scan(3, 1, 16, 8, 1, true, true, 48), KEYBOARD_KEY_FIELD, 2) == Scan(8, 6, 16, 8, 1, true, true, 52);
    assert ScanItems(Scan(3, 1, 16, 8, 1, true, true, 48), KEYBOARD_KEY_FIELD, 3) == Scan(8, 6, 16, 8, 1, true, true, 54);
  }

  lemma KeyboardKeysWalk()
    ensures ScanItems(Scan(8, 6, 16, 8, 1, true, true, 56), KEYBOARD_KEYS, 4) == Scan(8, 6, 64, 8, 1, true, true, 64)
  {
    assert ScanItems(Scan(8, 6, 16, 8, 1, true, true, 56), KEYBOARD_KEYS, 1) == Scan(8, 6, 16, 8, 1, true, true, 58);
    assert ScanItems(Scan(8, 6, 16, 8, 1, true, true, 56), KEYBOARD_KEYS, 2) == Scan(8, 6, 16, 8, 1, true, true, 60);
    assert ScanItems(Scan(8, 6, 16, 8, 1, true, true, 56), KEYBOARD_KEYS, 3) == Scan(8, 6, 16, 8, 1, true, true, 62);
  }

  lemma KeyboardFooterWalk()
    ensures ScanItems(Scan(8, 6, 64, 8, 1, true, true, 64), KEYBOARD_FOOTER, 1) == Scan(8, 6, 64, 8, 0, true, true, 65)
  {
  }

  /** The walk over the whole descriptor. */
  lemma ReportMapWalk()
    ensures ScanItems(START, REPORT_ITEMS, |REPORT_ITEMS|) == Scan(8, 6, 64, 8, 0, true, true, 65)
  {
    var h, mu, m, r, l := KEYBOARD_HEADER, KEYBOARD_MODIFIER_USAGES, KEYBOARD_MODIFIERS, KEYBOARD_RESERVED, KEYBOARD_LEDS;
    var p, kf, k, f := KEYBOARD_LED_PADDING, KEYBOARD_KEY_FIELD, KEYBOARD_KEYS, KEYBOARD_FOOTER;
    KeyboardHeaderWalk();
    KeyboardModifierUsagesWalk();
    KeyboardModifiersWalk();
    KeyboardReservedWalk();
    KeyboardLedsWalk();
    KeyboardLedPaddingWalk();
    KeyboardKeyFieldWalk();
    KeyboardKeysWalk();
    KeyboardFooterWalk();
    ScanConcat(START, h, mu, |mu|);
    ScanConcat(START, h + mu, m, |m|);
    ScanConcat(START, h + mu + m, r, |r|);
    ScanConcat(START, h + mu + m + r, l, |l|);
    ScanConcat(START, h + mu + m + r + l, p, |p|);
    ScanConcat(START, h + mu + m + r + l + p, kf, |kf|);
    ScanConcat(START, h + mu + m + r + l + p + kf, k, |k|);
    ScanConcat(START, h + mu + m + r + l + p + kf + k, f, |f|);
  }

  /**
   * `REPORT_MAP` reads back as its items with nothing left over, its collections are balanced,
   * it is 65 bytes long, and the bits it declares match the reports: 64 input bits after the
   * report ID of a key report, 8 output bits after the report ID of the LED report.
   */
  lemma ReportMapWellFormed()
    ensures ParseItems(REPORT_MAP) == Some(REPORT_ITEMS)
    ensures |REPORT_MAP| == 65
    ensures var w := ScanItems(START, REPORT_ITEMS, |REPORT_ITEMS|);
      w.depth == 0 && w.nested
      && w.inputBits == 8 * (KEY_REPORT_LENGTH - 1)
      && w.outputBits == 8 * (LED_REPORT_LENGTH - 1)
  {
    ReportMapWalk();
    ScanShort(START, REPORT_ITEMS, |REPORT_ITEMS|);
    ParseSerialize(REPORT_ITEMS);
    ScanLength(START, REPORT_ITEMS);
  }

  // ---------------------------------------------------------------------------------------------
  // Input reports.

  const KEY_PACKET_MODIFIER_KEY_INDEX: nat := 0
  const KEY_PACKET_RESERVED_INDEX: nat := 1
  const KEY_PACKET_KEY_START_INDEX: nat := 2

  /** `EMPTY_KEY_REPORT`: report ID 1, no modifier, no key. */
  const EMPTY_KEY_REPORT: Bytes := [0x01, 0x00, 0x00, 0x00, 0x00, 0x00, 0x00, 0x00, 0x00]

  /** The report `sendKeyDown(modifier, keyCode)` queues. */
  function KeyDownReport(modifier: Byte, keyCode: Byte): (r: Bytes)
    ensures |r| == KEY_REPORT_LENGTH
  {
    [0x01, modifier, 0x00, keyCode, 0x00, 0x00, 0x00, 0x00, 0x00]
  }

  /** The reports `sendKeys` queues for one character: a key down and a release, or nothing. */
  function CharReports(c: char): seq<Bytes>
  {
    if KeyCode(c) != 0 then [KeyDownReport(Modifier(c), KeyCode(c)), EMPTY_KEY_REPORT] else []
  }

  /** The reports `sendKeys(text)` queues, in order. */
  function TextReports(text: string): seq<Bytes>
  {
    if text == [] then [] else TextReports(text[..|text| - 1]) + CharReports(text[|text| - 1])
  }

  /** The characters of `text` that have a key, in order. */
  function Recognised(text: string): (r: string)
    ensures |r| <= |text|
    ensures forall i :: 0 <= i < |r| ==> KeyCode(r[i]) != 0
  {
    if text == [] then []
    else Recognised(text[..|text| - 1]) + if KeyCode(text[|text| - 1]) != 0 then [text[|text| - 1]] else []
  }

  /**
   * `sendKeys(text)` queues two reports per character that has a key and none for the others:
   * for the k-th such character, its key down report and then the release.
   */
  lemma {:induction false} TextReportsAlternate(text: string)
    ensures |TextReports(text)| == 2 * |Recognised(text)|
    ensures forall k :: 0 <= k < |Recognised(text)| ==>
      TextReports(text)[2 * k] == KeyDownReport(Modifier(Recognised(text)[k]), KeyCode(Recognised(text)[k]))
      && TextReports(text)[2 * k + 1] == EMPTY_KEY_REPORT
  {
    if text != [] {
      var t := text[..|text| - 1];
      var c := text[|text| - 1];
      TextReportsAlternate(t);
      if KeyCode(c) != 0 {
        var rs := TextReports(text);
        var rec := Recognised(text);
        assert rs == TextReports(t) + [KeyDownReport(Modifier(c), KeyCode(c)), EMPTY_KEY_REPORT];
        assert rec == Recognised(t) + [c];
        forall k | 0 <= k < |rec|
          ensures rs[2 * k] == KeyDownReport(Modifier(rec[k]), KeyCode(rec[k])) && rs[2 * k + 1] == EMPTY_KEY_REPORT
        {
          if k < |Recognised(t)| {
            assert rec[k] == Recognised(t)[k];
          }
        }
      }
    }
  }

  /** "Hi" has two characters with keys, so it is queued as four reports. */
  lemma HiIsFourReports()
    ensures |TextReports("Hi")| == 4
    ensures TextReports("Hi") == [KeyDownReport(MODIFIER_KEY_SHIFT, 0x0B), EMPTY_KEY_REPORT,
                                  KeyDownReport(MODIFIER_KEY_NONE, 0x0C), EMPTY_KEY_REPORT]
  {
    assert "Hi"[..1] == "H";
    assert "H"[..0] == "";
  }

  /**
   * What a host types on reading a keyboard input report laid out as the descriptor declares:
   * the character of the first key with the modifier byte; nothing for a release.
   */
  function HostChars(r: Bytes): string
  {
    if |r| == KEY_REPORT_LENGTH && r[3] != 0 then
      match Typed(r[1], r[3])
      case Some(c) => [c]
      case None => []
    else []
  }

  /** What a host types on reading the reports in order. */
  function HostText(rs: seq<Bytes>): string
  {
    if rs == [] then [] else HostText(rs[..|rs| - 1]) + HostChars(rs[|rs| - 1])
  }

  lemma {:induction false} HostTextConcat(a: seq<Bytes>, b: seq<Bytes>)
    ensures HostText(a + b) == HostText(a) + HostText(b)
    decreases |b|
  {
    if b == [] {
      assert a + b == a;
    } else {
      var b' := b[..|b| - 1];
      HostTextConcat(a, b');
      assert (a + b)[..|a + b| - 1] == a + b';
    }
  }

  /** A key down report makes the host type the character of its key under its modifier; a release types nothing. */
  lemma HostCharsOfReports(modifier: Byte, key: Byte)
    requires key != 0
    ensures HostChars(KeyDownReport(modifier, key)) == match Typed(modifier, key) case Some(c) => [c] case None => []
    ensures HostChars(EMPTY_KEY_REPORT) == []
  {
  }

  /** A host reading the reports `sendKeys(text)` queues types the characters of `text` that have a key. */
  lemma {:induction false} SendKeysRoundTrip(text: string)
    ensures HostText(TextReports(text)) == Recognised(text)
  {
    if text != [] {
      var t := text[..|text| - 1];
      var c := text[|text| - 1];
      SendKeysRoundTrip(t);
      HostTextConcat(TextReports(t), CharReports(c));
      var m, k := Modifier(c), KeyCode(c);
      if k != 0 {
        TypingIsInvertible(c);
        HostCharsOfReports(m, k);
        var down := KeyDownReport(m, k);
        assert [down, EMPTY_KEY_REPORT][..1] == [down];
        assert HostText([down]) == HostText([]) + HostChars(down);
      }
    }
  }

  // ---------------------------------------------------------------------------------------------
  // Output reports.

  /**
   * `onOutputReport`: the LED byte of an output report; with the report ID 1 in front it is the
   * second byte, a report of one byte is the LED byte itself, anything else is rejected.
   */
  function LedStatus(report: Bytes): (r: Option<Byte>)
    ensures r.Some? <==> |report| == 1 || (|report| >= 2 && report[0] == 0x01)
    ensures |report| >= 2 && r.Some? ==> r.value == report[1]
    ensures |report| == 1 ==> r == Some(report[0])
  {
    if report == [] then None
    else if report[0] == 0x01 && |report| >= 2 then Some(report[1])
    else if |report| == 1 then Some(report[0])
    else None
  }

  /**
   * An LED output report as the descriptor declares it (report ID 1, then one byte of LED bits) is
   * read back as its LED byte.
   */
  lemma LedReportReadsBack(leds: Byte)
    ensures LedStatus([0x01, leds]) == Some(leds)
    ensures |[0x01, leds]| == LED_REPORT_LENGTH
  {
  }

  // ---------------------------------------------------------------------------------------------
  // The keyboard.

  /** `KeyboardPeripheral`: a peripheral with input and output reports, sending every 20 ms. */
  class KeyboardPeripheral {
    const peripheral: HidPeripheral

    constructor (adapter: Adapter)
      requires adapter.enabled
      ensures fresh(peripheral) && peripheral.Valid()
      ensures peripheral.adapter == adapter && peripheral.reportMap == REPORT_MAP
      ensures peripheral.needInputReport && peripheral.needOutputReport && !peripheral.needFeatureReport
      ensures peripheral.dataSendingRate == 20
      ensures peripheral.inputReportQueue == [] && peripheral.effects == []
    {
      peripheral := new HidPeripheral(true, true, false, 20, REPORT_MAP, adapter);
    }

    /** `sendKeyDown`: fills a nine-byte report slot by slot and queues it. */
    method SendKeyDown(modifier: Byte, keyCode: Byte)
      requires peripheral.Valid()
      modifies peripheral
      ensures peripheral.Valid()
      ensures peripheral.inputReportQueue == old(peripheral.inputReportQueue) + [KeyDownReport(modifier, keyCode)]
      ensures peripheral.OnlyQueueChanged()
    {
      var report := new bv8[KEY_REPORT_LENGTH];
      report[0] := 0x01;
      report[KEY_PACKET_MODIFIER_KEY_INDEX + 1] := modifier;
      report[KEY_PACKET_RESERVED_INDEX + 1] := 0x00;
      report[KEY_PACKET_KEY_START_INDEX + 1] := keyCode;
      for i := KEY_PACKET_KEY_START_INDEX + 1 + 1 to report.Length
        modifies report
        invariant report[..4] == [0x01, modifier, 0x00, keyCode]
        invariant forall j :: 4 <= j < i ==> report[j] == 0x00
      {
        report[i] := 0x00;
      }
      assert report[..] == KeyDownReport(modifier, keyCode);
      peripheral.AddInputReport(Some(report[..]));
    }

    /** `sendKeyUp`: queues a copy of the empty report, releasing every key. */
    method SendKeyUp()
      requires peripheral.Valid()
      modifies peripheral
      ensures peripheral.Valid()
      ensures peripheral.inputReportQueue == old(peripheral.inputReportQueue) + [EMPTY_KEY_REPORT]
      ensures peripheral.OnlyQueueChanged()
    {
      var report := EMPTY_KEY_REPORT;
      peripheral.AddInputReport(Some(report));
    }

    /** `sendKeys`: for each character that has a key, its key down and a release. */
    method SendKeys(text: string)
      requires peripheral.Valid()
      modifies peripheral
      ensures peripheral.Valid()
      ensures peripheral.inputReportQueue == old(peripheral.inputReportQueue) + TextReports(text)
      ensures peripheral.OnlyQueueChanged()
    {
      for i := 0 to |text|
        invariant peripheral.Valid()
        invariant peripheral.inputReportQueue == old(peripheral.inputReportQueue) + TextReports(text[..i])
        invariant peripheral.OnlyQueueChanged()
      {
        var c := text[i];
        var modifier := Modifier(c);
        var key := KeyCode(c);
        if key != 0x00 {
          SendKeyDown(modifier, key);
          SendKeyUp();
        }
        assert text[..i + 1][..i] == text[..i];
      }
      assert text[..|text|] == text;
    }
  }
}
