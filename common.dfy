/** Fixed-width integer types, an option type, the protocol status codes the
    callbacks return, and the little-endian byte layout that `tmos_memcpy`
    gives a multi-byte integer on this (little-endian) chip. */
module Common {

  /** `uint8_t` */
  type byte = x: int | 0 <= x < 0x100
  /** `uint16_t` */
  type uint16 = x: int | 0 <= x < 0x1_0000
  /** `uint32_t` */
  type uint32 = x: int | 0 <= x < 0x1_0000_0000

  datatype Option<T> = None | Some(value: T)

  /** The `MIN` macro. */
  function Min(a: int, b: int): int
  {
    if a <= b then a else b
  }

  /** Status codes a callback hands back to the GATT server. The ATT error
      codes are those of the Bluetooth Core Specification v5.x, Vol 3, Part F,
      section 3.4.1.1; the others belong to the vendor stack. */
  datatype Status =
    | Success                 // SUCCESS (0x00)
    | InvalidPdu              // ATT_ERR_INVALID_PDU (0x04)
    | InvalidOffset           // ATT_ERR_INVALID_OFFSET (0x07)
    | AttrNotFound            // ATT_ERR_ATTR_NOT_FOUND (0x0A)
    | AttrNotLong             // ATT_ERR_ATTR_NOT_LONG (0x0B)
    | InvalidValue            // ATT_ERR_INVALID_VALUE (application error 0x80)
    | IncorrectMode           // bleIncorrectMode: notifications not enabled
    | Library(code: byte)     // any other status a library call reports

  /** The bytes of `v`, least significant first, `n` of them. */
  function LittleEndian(v: nat, n: nat): (r: seq<byte>)
    ensures |r| == n
  {
    if n == 0 then [] else [v % 0x100] + LittleEndian(v / 0x100, n - 1)
  }

  /** Reads a little-endian integer back from its bytes. */
  function FromLittleEndian(bs: seq<byte>): nat
  {
    if bs == [] then 0 else bs[0] + 0x100 * FromLittleEndian(bs[1..])
  }

  /** Decoding the `n` little-endian bytes of any value below 256^n gives it back. */
  lemma {:induction false} LittleEndianRoundTrip(v: nat, n: nat)
    requires v < Pow256(n)
    ensures FromLittleEndian(LittleEndian(v, n)) == v
  {
    if n > 0 {
      assert v / 0x100 < Pow256(n - 1);
      LittleEndianRoundTrip(v / 0x100, n - 1);
      assert LittleEndian(v, n)[1..] == LittleEndian(v / 0x100, n - 1);
    }
  }

  function Pow256(n: nat): (p: nat)
    ensures p > 0
  {
    if n == 0 then 1 else 0x100 * Pow256(n - 1)
  }
}
