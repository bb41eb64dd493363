/** Result types and numeric types shared by every component. */
module Basics {

  datatype Option<+T> = None | Some(value: T) {
    function GetOr(default: T): T {
      match this
      case Some(v) => v
      case None => default
    }
  }

  datatype Result<+T, +E> = Ok(value: T) | Err(error: E)

  newtype byte = x: int | 0 <= x < 256

  /** Largest `usize`/`u64` value on the 64-bit targets the proxy is built for. */
  const USIZE_MAX: nat := 0xFFFF_FFFF_FFFF_FFFF

  /** Largest `u16` value. */
  const U16_MAX: nat := 0xFFFF

  /** `usize::saturating_sub`. */
  function SaturatingSub(a: nat, b: nat): nat {
    if a < b then 0 else a - b
  }
}

/** IP addresses as the proxy keys its tables on them. */
module Net {
  import opened Basics

  datatype Ipv4 = Ipv4(a: byte, b: byte, c: byte, d: byte)

  /** The 128 bits of an IPv6 address. */
  type Ipv6 = n: int | 0 <= n < 0x1_0000_0000_0000_0000_0000_0000_0000_0000

  datatype IpAddr = V4(v4: Ipv4) | V6(v6: Ipv6)
}
