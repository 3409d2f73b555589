/**
 * The HID report-descriptor item builder of HidPeripheral.kt (its companion object) and a reader for
 * the short items it produces, following the short-item encoding of section 6.2.2.2 of the USB
 * Device Class Definition for HID 1.11: one prefix byte whose two low bits give the data size
 * (0, 1, 2 or 4 bytes) and whose six high bits give the item type and tag (main items of section
 * 6.2.2.4, global items of 6.2.2.7, local items of 6.2.2.8), followed by the data bytes.
 */
module HidDescriptor {
  import opened Common

  /** The items the builder can emit, one per builder function of the source. */
  datatype ItemTag =
    | Input | Output | Collection | Feature | EndCollection
    | UsagePage | LogicalMinimum | LogicalMaximum | PhysicalMinimum | PhysicalMaximum
    | UnitExponent | Unit | ReportSize | ReportId | ReportCount
    | Usage | UsageMinimum | UsageMaximum

  /** The prefix byte of an item with its size bits cleared. */
  function Prefix(t: ItemTag): (p: Byte)
    ensures p & 0x03 == 0
  {
    match t
    case Input => 0x80
    case Output => 0x90
    case Collection => 0xA0
    case Feature => 0xB0
    case EndCollection => 0xC0
    case UsagePage => 0x04
    case LogicalMinimum => 0x14
    case LogicalMaximum => 0x24
    case PhysicalMinimum => 0x34
    case PhysicalMaximum => 0x44
    case UnitExponent => 0x54
    case Unit => 0x64
    case ReportSize => 0x74
    case ReportId => 0x84
    case ReportCount => 0x94
    case Usage => 0x08
    case UsageMinimum => 0x18
    case UsageMaximum => 0x28
  }

  /** The inverse of `Prefix`: which item a prefix byte (size bits cleared) stands for. */
  function TagOf(p: Byte): (r: Option<ItemTag>)
    ensures r.Some? ==> Prefix(r.value) == p
  {
    match p
    case 0x80 => Some(Input)
    case 0x90 => Some(Output)
    case 0xA0 => Some(Collection)
    case 0xB0 => Some(Feature)
    case 0xC0 => Some(EndCollection)
    case 0x04 => Some(UsagePage)
    case 0x14 => Some(LogicalMinimum)
    case 0x24 => Some(LogicalMaximum)
    case 0x34 => Some(PhysicalMinimum)
    case 0x44 => Some(PhysicalMaximum)
    case 0x54 => Some(UnitExponent)
    case 0x64 => Some(Unit)
    case 0x74 => Some(ReportSize)
    case 0x84 => Some(ReportId)
    case 0x94 => Some(ReportCount)
    case 0x08 => Some(Usage)
    case 0x18 => Some(UsageMinimum)
    case 0x28 => Some(UsageMaximum)
    case _ => None
  }

  /**
   * The tag byte of item `t` with size code `size` (`INPUT(size)`, `USAGE_PAGE(size)`, ...): the
   * prefix or-ed with the size, truncated to a byte. For a size code the short-item grammar
   * allows, the low two bits are the size and the high six bits the item's prefix.
   */
  function Tag(t: ItemTag, size: bv32): (b: Byte)
    ensures size < 4 ==> b & 0x03 == size as bv8 && b & 0xFC == Prefix(t)
  {
    ((Prefix(t) as bv32 | size) & 0xFF) as bv8
  }

  /** `LSB(value)`: the low byte of an Int. */
  function Lsb(value: bv32): Byte
  {
    (value & 0xFF) as bv8
  }

  /** `MSB(value)`: the second-lowest byte of an Int. */
  function Msb(value: bv32): Byte
  {
    ((value >> 8) & 0xFF) as bv8
  }
  /** `LSB` and `MSB` split the low 16 bits of a value into its two bytes. */
  lemma LsbMsbSplit(value: bv32)
    ensures (Msb(value) as bv32 << 8) | Lsb(value) as bv32 == value & 0xFFFF
  {
  }

  /** Every item's prefix is recognised as that item. */
  lemma TagOfPrefix(t: ItemTag)
    ensures TagOf(Prefix(t)) == Some(t)
  {
  }

  /** A short item: a tag and 0, 1, 2 or 4 data bytes. */
  datatype Item = Item(tag: ItemTag, data: Bytes)

  predicate IsShort(it: Item)
  {
    |it.data| == 0 || |it.data| == 1 || |it.data| == 2 || |it.data| == 4
  }

  /** The size code (section 6.2.2.2) for `n` data bytes: 3 stands for four bytes. */
  function SizeCode(n: nat): (code: bv32)
    ensures code < 4
    ensures n == 0 || n == 1 || n == 2 || n == 4 ==> DataLength(code as bv8) == n
  {
    if n == 4 then 3 else if n < 3 then n as bv32 else 3
  }

  /** Number of data bytes that follow a prefix byte with size code `code`. */
  function DataLength(code: Byte): nat
  {
    if code == 3 then 4 else (code & 0x03) as nat
  }

  /** The bytes of a descriptor written as `TAG(size), data...` for each item in turn. */
  function Serialize(items: seq<Item>): Bytes
  {
    if items == [] then []
    else [Tag(items[0].tag, SizeCode(|items[0].data|))] + items[0].data + Serialize(items[1..])
  }

  /** Reads `s` as a sequence of short items; None when a prefix is unknown or an item runs past the end. */
  function ParseItems(s: Bytes): Option<seq<Item>>
    decreases |s|
  {
    if s == [] then Some([])
    else
      var n := DataLength(s[0] & 0x03);
      var t := TagOf(s[0] & 0xFC);
      if t.None? || 1 + n > |s| then None
      else
        match ParseItems(s[1 + n..])
        case None => None
        case Some(rest) => Some([Item(t.value, s[1..1 + n])] + rest)
  }

  /** Reading back what the builder wrote gives the items again, and consumes every byte. */
  lemma {:induction false} ParseSerialize(items: seq<Item>)
    requires forall i :: 0 <= i < |items| ==> IsShort(items[i])
    ensures ParseItems(Serialize(items)) == Some(items)
  {
    if items != [] {
      var it := items[0];
      var b := Tag(it.tag, SizeCode(|it.data|));
      var rest := Serialize(items[1..]);
      var s := Serialize(items);
      assert s == [b] + it.data + rest;
      TagOfPrefix(it.tag);
      assert DataLength(s[0] & 0x03) == |it.data|;
      assert s[1..1 + |it.data|] == it.data;
      assert s[1 + |it.data|..] == rest;
      ParseSerialize(items[1..]);
      assert [it] + items[1..] == items;
    }
  }

  /** The unsigned little-endian value of an item's data. */
  function UnsignedValue(data: Bytes): nat
  {
    if data == [] then 0 else data[0] as nat + 256 * UnsignedValue(data[1..])
  }

  /** The value of one data byte read as two's complement. */
  function SignedByte(b: Byte): int
  {
    if b < 0x80 then b as int else b as int - 256
  }

  /**
   * What a left-to-right walk over items has seen: the REPORT_SIZE and REPORT_COUNT in force
   * (global items stay in force until redefined), the bits declared by INPUT and by OUTPUT items
   * so far, the COLLECTION nesting depth, whether every END_COLLECTION closed an open collection, whether
   * every item was short, and the number of bytes the items take.
   */
  datatype Scan = Scan(reportSize: nat, reportCount: nat, inputBits: nat, outputBits: nat,
                       depth: nat, nested: bool, short: bool, length: nat)

  const START: Scan := Scan(0, 0, 0, 0, 0, true, true, 0)

  function ScanItem(w: Scan, it: Item): Scan
  {
    var w' := w.(short := w.short && IsShort(it), length := w.length + 1 + |it.data|);
    match it.tag
    case ReportSize => w'.(reportSize := UnsignedValue(it.data))
    case ReportCount => w'.(reportCount := UnsignedValue(it.data))
    case Input => w'.(inputBits := w.inputBits + w.reportSize * w.reportCount)
    case Output => w'.(outputBits := w.outputBits + w.reportSize * w.reportCount)
    case Collection => w'.(depth := w.depth + 1)
    case EndCollection => if w.depth == 0 then w'.(nested := false) else w'.(depth := w.depth - 1)
    case _ => w'
  }

  /** The walk over the first `n` items, starting from `w`. */
  function ScanItems(w: Scan, items: seq<Item>, n: nat): Scan
    requires n <= |items|
  {
    if n == 0 then w else ScanItem(ScanItems(w, items, n - 1), items[n - 1])
  }

  /** A walk over two item lists one after the other is the walk over their concatenation. */
  lemma {:induction false} ScanConcat(w: Scan, a: seq<Item>, b: seq<Item>, n: nat)
    requires n <= |b|
    ensures ScanItems(w, a + b, |a| + n) == ScanItems(ScanItems(w, a, |a|), b, n)
  {
    if n == 0 {
      ScanPrefix(w, a + b, a, |a|);
    } else {
      ScanConcat(w, a, b, n - 1);
      assert (a + b)[|a| + n - 1] == b[n - 1];
    }
  }

  /** The walk over the first `n` items depends on those items only. */
  lemma {:induction false} ScanPrefix(w: Scan, s: seq<Item>, t: seq<Item>, n: nat)
    requires n <= |s| && n <= |t| && s[..n] == t[..n]
    ensures ScanItems(w, s, n) == ScanItems(w, t, n)
  {
    if n > 0 {
      assert s[..n - 1] == t[..n - 1] by {
        assert s[..n - 1] == s[..n][..n - 1];
        assert t[..n - 1] == t[..n][..n - 1];
      }
      assert s[n - 1] == s[..n][n - 1];
      assert t[n - 1] == t[..n][n - 1];
      ScanPrefix(w, s, t, n - 1);
    }
  }

  /** A walk that saw only short items guarantees every item is short. */
  lemma {:induction false} ScanShort(w: Scan, items: seq<Item>, n: nat)
    requires n <= |items|
    requires ScanItems(w, items, n).short
    ensures w.short && forall i :: 0 <= i < n ==> IsShort(items[i])
  {
    if n > 0 {
      ScanShort(w, items, n - 1);
    }
  }

  /** The walk counts exactly the bytes the builder writes. */
  lemma {:induction false} ScanLength(w: Scan, items: seq<Item>)
    ensures ScanItems(w, items, |items|).length == w.length + |Serialize(items)|
    decreases |items|
  {
    if items != [] {
      var tail := items[1..];
      var next := ScanItem(w, items[0]);
      ScanItemLength(w, items[0]);
      ScanLength(next, tail);
      ScanConcat(w, [items[0]], tail, |tail|);
      assert [items[0]] + tail == items;
      assert ScanItems(w, [items[0]], 1) == next;
      assert |Serialize(items)| == 1 + |items[0].data| + |Serialize(tail)|;
    }
  }

  /** One item adds its tag byte and its data to the length. */
  lemma ScanItemLength(w: Scan, it: Item)
    ensures ScanItem(w, it).length == w.length + 1 + |it.data|
  {
  }
}
