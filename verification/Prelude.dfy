/** Small vocabulary shared by every module. */
module Prelude {
  datatype Option<+T> = None | Some(value: T)

  /** A D-Bus object path. Sessions and configurations are both named by one. */
  type Path = string

  /** The integer width codes and queue ids have on the bus. */
  type u32 = x: int | 0 <= x < 0x1_0000_0000

  /** Rust's `as u8` and `as u16`: keep the low bits, silently. */
  function AsU8(x: u32): int { x % 0x100 }
  function AsU16(x: u32): int { x % 0x1_0000 }
}
