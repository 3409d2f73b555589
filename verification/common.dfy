/** Small helper types shared by every module of the model. */
module Common {

  /** Kotlin's nullable references (`T?`). */
  datatype Option<+T> = None | Some(value: T)

  /** A byte as the source handles it: the bit pattern of a Kotlin `Byte`. */
  type Byte = bv8

  /** A byte array, as a value (`ByteArray`). */
  type Bytes = seq<bv8>

  /** A string as its UTF-8 encoding; equality and emptiness of strings are those of their encodings. */
  type Utf8 = seq<bv8>

  /** A Kotlin `Int`. */
  newtype int32 = x: int | -0x8000_0000 <= x < 0x8000_0000

  /** The byte whose unsigned value is `x`, counted up from zero. */
  function ByteOf(x: int): (b: Byte)
    requires 0 <= x < 256
    ensures b as int == x
  {
    if x == 0 then 0
    else
      ByteSucc(ByteOf(x - 1));
      ByteOf(x - 1) + 1
  }

  /** Adding one to a byte below 255 adds one to its value. */
  lemma ByteSucc(b: Byte)
    requires b as int < 255
    ensures (b + 1) as int == b as int + 1
  {
  }
}
