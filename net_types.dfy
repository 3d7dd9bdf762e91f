/**
 * Types shared by the per-device IPv4 stack: fixed-width integers, IPv4 and
 * MAC addresses, and the identity of a registered callback.
 */
module NetTypes {

  /** A C++ `uint16_t`: port numbers, the ephemeral cursor, the occupancy counter. */
  type uint16 = x: int | 0 <= x < 0x1_0000

  /** `IP4::addr`: a 32-bit IPv4 address, most significant byte first (a.b.c.d). */
  type IP4Addr = bv32

  /** `MAC::Addr`: a 48-bit link-layer address. */
  type MacAddr = bv48

  /** `IP4::ADDR_ANY`, the "not configured" sentinel 0.0.0.0. */
  const ADDR_ANY: IP4Addr := 0

  /** The canonical loopback address 127.0.0.1. */
  const LOCALHOST: IP4Addr := 0x7F00_0001

  /**
   * `IP4::addr::is_loopback()`: the address lies in 127.0.0.0/8, the block
   * section 3.2.1.3 of RFC 1122 reserves for internal host loopback.
   */
  predicate IsLoopbackAddr(a: IP4Addr) {
    a & 0xFF00_0000 == 0x7F00_0000
  }

  /**
   * A registered closure (`delegate<...>`), known only by its identity:
   * the stack stores and orders these, it never inspects them.
   */
  datatype Delegate = Delegate(id: nat)

  datatype Option<+T> = None | Some(value: T)
}
