/** Fixed-width integer types of the Rust source and the Option type. */
module Base {

  /** A byte (`u8`). */
  type u8 = x: int | 0 <= x < 0x100

  /** An unsigned 32-bit integer (`u32`). */
  type u32 = x: int | 0 <= x < 0x1_0000_0000

  /** A signed 32-bit integer (`i32`), the wire type of protobuf enum fields. */
  type i32 = x: int | -0x8000_0000 <= x < 0x8000_0000

  const U32_MODULUS: int := 0x1_0000_0000

  /** `Option<T>` of the source. */
  datatype Option<T> = None | Some(value: T)
  {
    /** `unwrap_or`. */
    function GetOr(default: T): T
    {
      if Some? then value else default
    }
  }

  /** Splitting a non-empty sequence at its head commutes with appending. */
  lemma HeadAppend<T>(s: seq<T>, x: seq<T>)
    requires s != []
    ensures [s[0]] + (s[1..] + x) == s + x
  {
    assert s == [s[0]] + s[1..];
  }

  lemma AppendAssoc<T>(a: seq<T>, b: seq<T>, c: seq<T>)
    ensures (a + b) + c == a + (b + c)
  {
  }
}
