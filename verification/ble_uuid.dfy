/**
 * BleUuidUtils.kt: 16-bit ("short") Bluetooth UUIDs and the Bluetooth Base UUID
 * 00000000-0000-1000-8000-00805F9B34FB (Bluetooth Core Specification, Vol 3, Part B, section 2.5.1).
 * A short value `xxxx` stands for the UUID 0000xxxx-0000-1000-8000-00805F9B34FB, that is a
 * most-significant word 0x0000xxxx00001000 and the least-significant word 0x800000805F9B34FB.
 */
module BleUuid {

  /** A `java.util.UUID`: its two 64-bit words. Equality of UUIDs is equality of both words. */
  datatype Uuid = Uuid(msb: bv64, lsb: bv64)

  /** The 16-bit field of the most-significant word. */
  const FIELD_MASK: bv64 := 0x0000_FFFF_0000_0000

  /** The rest of the Base UUID's most-significant word. */
  const BASE_MSB_NON_FIELD: bv64 := 0x0000_0000_0000_1000

  /** The least-significant word of the Bluetooth Base UUID. */
  const BASE_LSB: bv64 := 0x8000_0080_5F9B_34FB

  /**
   * The least-significant word as the source's `Long` literal spells it: the bit pattern of the
   * signed value -9223372036563946245, which is not the Base UUID's word.
   */
  const BASE_LSB_AS_WRITTEN: bv64 := 0x8000_0000_1155_B4FB

  /** The word above is the two's complement of the source's literal, and differs from the Base UUID's. */
  lemma BaseLsbAsWrittenDiffers()
    ensures BASE_LSB_AS_WRITTEN as int - 0x1_0000_0000_0000_0000 == -9223372036563946245
    ensures BASE_LSB as int - 0x1_0000_0000_0000_0000 == -9223371485494954757
    ensures BASE_LSB_AS_WRITTEN != BASE_LSB
  {
  }

  /** The 16-bit field of `u`, in place in the most-significant word. */
  function Field(u: Uuid): bv64
  {
    u.msb & FIELD_MASK
  }

  /** The 16-bit field of `u`, as a 16-bit value. */
  function ShortBits(u: Uuid): bv16
  {
    ((u.msb >> 32) & 0xFFFF) as bv16
  }

  /**
   * `fromShortValue`: the UUID 0000xxxx-0000-1000-8000-00805F9B34FB where xxxx is the low
   * 16 bits of the argument. Only the low 16 bits matter.
   */
  function FromShortValue(value: bv32): (u: Uuid)
    ensures u.lsb == BASE_LSB
    ensures u.msb & !FIELD_MASK == BASE_MSB_NON_FIELD
    ensures Field(u) == ((value & 0xFFFF) as bv64) << 32
  {
    Uuid((((value & 0xFFFF) as bv64) << 32) | BASE_MSB_NON_FIELD, BASE_LSB)
  }

  /** Two short values give the same UUID exactly when their low 16 bits agree. */
  lemma FromShortValueInjective(a: bv32, b: bv32)
    ensures FromShortValue(a) == FromShortValue(b) <==> a & 0xFFFF == b & 0xFFFF
  {
    if FromShortValue(a) == FromShortValue(b) {
      assert Field(FromShortValue(a)) == Field(FromShortValue(b));
    }
  }

  /** `toShortValue` as written: the 16-bit field, whatever the rest of the UUID is. */
  function ToShortValue(u: Uuid): (r: int)
    ensures 0 <= r <= 0xFFFF
  {
    ShortBits(u) as int
  }

  /** Reading the short value back from `fromShortValue` gives the low 16 bits of the argument. */
  lemma ToShortValueFromShortValue(value: bv32)
    ensures ToShortValue(FromShortValue(value)) == (value & 0xFFFF) as int
  {
    assert ShortBits(FromShortValue(value)) == (value & 0xFFFF) as bv16;
  }


  /** `isShortUuid`, for a given least-significant word of the base UUID. */
  predicate IsShortUuidWith(baseLsb: bv64, u: Uuid)
  {
    u.msb & !FIELD_MASK == BASE_MSB_NON_FIELD && u.lsb == baseLsb
  }

  /**
   * `matches`, for a given least-significant word of the base UUID: when either UUID is short,
   * only the 16-bit fields are compared, otherwise the whole UUIDs.
   */
  predicate MatchesWith(baseLsb: bv64, src: Uuid, dst: Uuid)
  {
    if IsShortUuidWith(baseLsb, src) || IsShortUuidWith(baseLsb, dst) then
      src.msb & FIELD_MASK == dst.msb & FIELD_MASK
    else
      src == dst
  }

  /** `isShortUuid` as written, with the mistyped literal. */
  predicate IsShortUuidAsWritten(u: Uuid)
  {
    IsShortUuidWith(BASE_LSB_AS_WRITTEN, u)
  }

  /** `matches` as written, with the mistyped literal. */
  predicate MatchesAsWritten(src: Uuid, dst: Uuid)
  {
    MatchesWith(BASE_LSB_AS_WRITTEN, src, dst)
  }

  /** `isShortUuid` as documented: conforms to the Bluetooth Base UUID. */
  predicate IsShortUuid(u: Uuid)
  {
    IsShortUuidWith(BASE_LSB, u)
  }

  /** `matches` as documented. */
  predicate Matches(src: Uuid, dst: Uuid)
  {
    MatchesWith(BASE_LSB, src, dst)
  }

  /** As written, no UUID built by `fromShortValue` is recognised as short. */
  lemma AsWrittenRejectsEveryShortUuid(value: bv32)
    ensures !IsShortUuidAsWritten(FromShortValue(value))
  {
    BaseLsbAsWrittenDiffers();
  }

  /** As written, a UUID outside the Base UUID range is taken for a short one. */
  lemma AsWrittenAcceptsForeignUuid()
    ensures IsShortUuidAsWritten(Uuid(0x0000_2A4D_0000_1000, 0x8000_0000_1155_B4FB))
    ensures !IsShortUuid(Uuid(0x0000_2A4D_0000_1000, 0x8000_0000_1155_B4FB))
  {
    BaseLsbAsWrittenDiffers();
  }

  /**
   * As written, the short REPORT UUID and a custom UUID with the same 16-bit field do not match,
   * although the documented rule compares only the fields once one side is short.
   */
  lemma AsWrittenMissesFieldMatch()
    ensures !MatchesAsWritten(FromShortValue(0x2A4D), Uuid(0x0000_2A4D_ABCD_0000, 0x0123_4567_89AB_CDEF))
    ensures Matches(FromShortValue(0x2A4D), Uuid(0x0000_2A4D_ABCD_0000, 0x0123_4567_89AB_CDEF))
  {
    AsWrittenRejectsEveryShortUuid(0x2A4D);
    BaseLsbAsWrittenDiffers();
  }

  /** With the Base UUID's word, the short UUIDs are exactly those `fromShortValue` builds. */
  lemma IsShortUuidIffFromShortValue(u: Uuid)
    ensures IsShortUuid(u) <==> exists v: bv32 :: FromShortValue(v) == u
  {
    if IsShortUuid(u) {
      var v := ((u.msb >> 32) & 0xFFFF) as bv32;
      assert FromShortValue(v) == u;
    }
  }

  /** `matches` is reflexive and symmetric, with the literal as written or with the Base UUID's word. */
  lemma MatchesIsReflexiveAndSymmetric(baseLsb: bv64, a: Uuid, b: Uuid)
    ensures MatchesWith(baseLsb, a, a)
    ensures MatchesWith(baseLsb, a, b) == MatchesWith(baseLsb, b, a)
  {
  }

  /**
   * Two UUIDs built by `fromShortValue` match exactly when their short values agree, whichever
   * base word `matches` uses: as written it compares them whole, as documented by their fields.
   */
  lemma MatchesShortValues(baseLsb: bv64, a: bv32, b: bv32)
    ensures MatchesWith(baseLsb, FromShortValue(a), FromShortValue(b)) <==> a & 0xFFFF == b & 0xFFFF
  {
    var x, y := FromShortValue(a), FromShortValue(b);
    FromShortValueInjective(a, b);
    if baseLsb == BASE_LSB {
      ShortMatchIsEquality(baseLsb, x, y);
    } else {
      assert !IsShortUuidWith(baseLsb, x) && !IsShortUuidWith(baseLsb, y);
    }
  }

  /** Between two UUIDs that are short for the same base word, `matches` is plain equality. */
  lemma ShortMatchIsEquality(baseLsb: bv64, x: Uuid, y: Uuid)
    requires IsShortUuidWith(baseLsb, x) && IsShortUuidWith(baseLsb, y)
    ensures MatchesWith(baseLsb, x, y) <==> x == y
  {
    if MatchesWith(baseLsb, x, y) {
      MatchingShortUuidsShareField(baseLsb, x, y);
      ShortWordsWithSameField(x, y);
      assert x.lsb == y.lsb;
    }
  }

  /** Two matching short UUIDs have the same field. */
  lemma MatchingShortUuidsShareField(baseLsb: bv64, x: Uuid, y: Uuid)
    requires IsShortUuidWith(baseLsb, x) && IsShortUuidWith(baseLsb, y)
    ensures MatchesWith(baseLsb, x, y) ==> x.msb & FIELD_MASK == y.msb & FIELD_MASK
  {
  }

  /**
   * Two most-significant words of short UUIDs with the same field are equal (only the
   * most-significant word is constrained, so this holds for either base word).
   */
  lemma ShortWordsWithSameField(x: Uuid, y: Uuid)
    requires x.msb & !FIELD_MASK == BASE_MSB_NON_FIELD && y.msb & !FIELD_MASK == BASE_MSB_NON_FIELD
    requires x.msb & FIELD_MASK == y.msb & FIELD_MASK
    ensures x.msb == y.msb
  {
    SameFieldSameRest(x.msb, y.msb);
  }

  /** Two words with the same field and the same rest are equal. */
  lemma SameFieldSameRest(v: bv64, w: bv64)
    requires v & FIELD_MASK == w & FIELD_MASK
    requires v & !FIELD_MASK == w & !FIELD_MASK
    ensures v == w
  {
  }

  /** As documented, a short UUID matches any UUID with the same 16-bit field, and only those. */
  lemma MatchesShortAgainstAny(value: bv32, u: Uuid)
    ensures Matches(FromShortValue(value), u) <==> Field(u) == ((value & 0xFFFF) as bv64) << 32
  {
  }

  /**
   * As written, a UUID built by `fromShortValue` matches only itself, or a UUID that the mistyped
   * literal makes short and that carries the same field.
   */
  lemma MatchesShortAgainstAnyAsWritten(value: bv32, u: Uuid)
    ensures MatchesAsWritten(FromShortValue(value), u) <==>
      FromShortValue(value) == u || (IsShortUuidAsWritten(u) && Field(u) == ((value & 0xFFFF) as bv64) << 32)
  {
    AsWrittenRejectsEveryShortUuid(value);
  }

  /** As written, `toShortValue` never yields the -1 its documentation promises for other UUIDs. */
  lemma ToShortValueNeverMinusOne()
    ensures !IsShortUuid(Uuid(0x1234_5678_9ABC_DEF0, 0))
    ensures ToShortValue(Uuid(0x1234_5678_9ABC_DEF0, 0)) == 0x5678
  {
  }

  /** `toShortValue` as documented: the short value of a short UUID, -1 for any other. */
  function ShortValueOf(u: Uuid): (r: int)
    ensures -1 <= r <= 0xFFFF
    ensures r == -1 <==> !IsShortUuid(u)
  {
    if IsShortUuid(u) then ToShortValue(u) else -1
  }

  /** The documented `toShortValue` inverts `fromShortValue`. */
  lemma ShortValueOfFromShortValue(value: bv32)
    ensures ShortValueOf(FromShortValue(value)) == (value & 0xFFFF) as int
  {
    assert IsShortUuid(FromShortValue(value));
    ToShortValueFromShortValue(value);
  }
}
