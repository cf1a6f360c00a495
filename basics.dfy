/** Small value types shared by the modules of the cell-id position provider model. */
module Basics {

  /** An optional value: a container lookup that may miss. */
  datatype Option<+T> = None | Some(value: T)

  /** The fixed-width unsigned integers of the provider (quint16, quint32). */
  type uint16 = x: int | 0 <= x < 0x1_0000
  type uint32 = x: int | 0 <= x < 0x1_0000_0000

  /** Conversion of a C++ integer to quint16: reduction modulo 2^16. */
  function ToUint16(x: int): (r: uint16)
    ensures 0 <= x < 0x1_0000 ==> r == x
    ensures (x - r) % 0x1_0000 == 0
  {
    x % 0x1_0000
  }

  /** Conversion of a C++ integer to quint32: reduction modulo 2^32. */
  function ToUint32(x: int): (r: uint32)
    ensures 0 <= x < 0x1_0000_0000 ==> r == x
    ensures (x - r) % 0x1_0000_0000 == 0
  {
    x % 0x1_0000_0000
  }

  /** The larger of two integers (qMax). */
  function Max(a: int, b: int): (r: int)
    ensures a <= r && b <= r && (r == a || r == b)
  {
    if a < b then b else a
  }

  /** The smaller of two integers (qMin). */
  function Min(a: int, b: int): (r: int)
    ensures r <= a && r <= b && (r == a || r == b)
  {
    if a < b then a else b
  }
}
