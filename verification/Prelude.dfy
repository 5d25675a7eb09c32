/** Datatypes and number bounds shared by the other modules. */
module Prelude {
  datatype Option<+T> = None | Some(value: T)

  /** The largest `u64`. */
  const U64_MAX: nat := 0xFFFF_FFFF_FFFF_FFFF

  type u64 = n: nat | n <= U64_MAX

  type byte = n: nat | n < 256

  /** `u64::saturating_add`. */
  function SaturatingAdd(a: u64, b: u64): u64 {
    if a + b > U64_MAX then U64_MAX else a + b
  }

  /** When a snapshot of a session is taken. */
  datatype Moment = BeforeHandoff | AfterHandoff

  function Max(a: int, b: int): int {
    if a < b then b else a
  }

  function Last<T>(s: seq<T>): T
    requires s != []
  {
    s[|s| - 1]
  }

  function Init<T>(s: seq<T>): seq<T>
    requires s != []
  {
    s[..|s| - 1]
  }

  function Digit(d: int): char
    requires 0 <= d <= 9
  {
    '0' + d as char
  }

  /** A number in decimal digits. */
  function Decimal(n: nat): string {
    if n < 10 then [Digit(n)] else Decimal(n / 10) + [Digit(n % 10)]
  }
}
