/**
 * The ephemeral-port allocator `Port_util`: a 65536-bit map of the port
 * space (1 = free, 0 = bound), a cursor for the last ephemeral port handed
 * out, and a counter of bound ports in the dynamic range 49152..65535.
 *
 * The value-level specification (BoundCount, FirstFreeFrom, Advance,
 * NextEphemeral, CountAfterBind, CountAfterUnbind) comes first, with the
 * lemmas about it; the class PortUtil below is proved against it.
 */
module Ports {
  import opened NetTypes

  const PortCount: int := 0x1_0000
  /** `port_ranges::DYNAMIC_START` and `DYNAMIC_END` (inclusive). */
  const DynamicStart: int := 49152
  const DynamicEnd: int := 65535
  /** Number of ports in the dynamic range. */
  const DynamicSize: int := DynamicEnd - DynamicStart + 1

  /** `port_ranges::is_dynamic`. */
  predicate IsDynamic(p: int) {
    DynamicStart <= p <= DynamicEnd
  }

  /** Why an ephemeral port could not be handed out. */
  datatype Failure =
    | EphemeralExhausted  // `Port_error{"All ephemeral ports are taken"}` is thrown
    | ContractViolated    // the `Ensures` after the fallback scan fails: fatal

  datatype Outcome = Pass | Fail(error: Failure)

  datatype Result<T> = Ok(value: T) | Err(error: Failure)

  // ---------------------------------------------------------------------
  // Specification on the bitmap as a sequence (true = free)
  // ---------------------------------------------------------------------

  /** 1 for a bound bit, 0 for a free one. */
  function BoundBit(free: bool): nat {
    if free then 0 else 1
  }

  /** Number of bound ports p with lo <= p < hi. */
  ghost function BoundCount(s: seq<bool>, lo: int, hi: int): (n: nat)
    requires 0 <= lo <= hi <= |s|
    ensures n <= hi - lo
    decreases hi - lo
  {
    if lo == hi then 0 else BoundCount(s, lo, hi - 1) + BoundBit(s[hi - 1])
  }

  /** Number of bound ports in the dynamic range: what `eph_count` is meant to hold. */
  ghost function BoundDynamic(s: seq<bool>): nat
    requires |s| == PortCount
  {
    BoundCount(s, DynamicStart, PortCount)
  }

  /** A range has no bound port exactly when its bound count is zero. */
  lemma {:induction false} BoundCountZero(s: seq<bool>, lo: int, hi: int)
    requires 0 <= lo <= hi <= |s|
    ensures BoundCount(s, lo, hi) == 0 <==> forall k :: lo <= k < hi ==> s[k]
    decreases hi - lo
  {
    if lo < hi {
      BoundCountZero(s, lo, hi - 1);
    }
  }

  /** A range is entirely bound exactly when its bound count equals its size. */
  lemma {:induction false} BoundCountFull(s: seq<bool>, lo: int, hi: int)
    requires 0 <= lo <= hi <= |s|
    ensures BoundCount(s, lo, hi) == hi - lo <==> forall k :: lo <= k < hi ==> !s[k]
    decreases hi - lo
  {
    if lo < hi {
      BoundCountFull(s, lo, hi - 1);
    }
  }

  /** Changing one bit changes the bound count of a range containing it by the difference of the bits. */
  lemma {:induction false} BoundCountUpdate(s: seq<bool>, lo: int, hi: int, p: int, free: bool)
    requires 0 <= lo <= hi <= |s| && 0 <= p < |s|
    ensures BoundCount(s[p := free], lo, hi)
         == BoundCount(s, lo, hi) + (if lo <= p < hi then BoundBit(free) - BoundBit(s[p]) else 0)
    decreases hi - lo
  {
    if lo < hi {
      BoundCountUpdate(s, lo, hi - 1, p, free);
    }
  }

  /**
   * The lowest free port at or above k, or -1 when every port from k up is
   * bound. From k == DynamicStart this is `eph_view.first_set()` shifted by
   * DynamicStart.
   */
  function FirstFreeFrom(s: seq<bool>, k: int): (r: int)
    requires 0 <= k <= |s|
    ensures r == -1 <==> forall j :: k <= j < |s| ==> !s[j]
    ensures r != -1 ==> k <= r < |s| && s[r] && forall j :: k <= j < r ==> !s[j]
    decreases |s| - k
  {
    if k == |s| then -1
    else if s[k] then k
    else FirstFreeFrom(s, k + 1)
  }

  /**
   * `ephemeral_++` on a `uint16_t`, followed by the wrap to DYNAMIC_START
   * when the increment overflowed to 0.
   */
  function Advance(cursor: uint16): (r: uint16)
    ensures r != 0
    ensures cursor < DynamicEnd ==> r == cursor + 1
    ensures cursor == DynamicEnd ==> r == DynamicStart
    ensures IsDynamic(cursor) ==> IsDynamic(r)
  {
    var next := (cursor + 1) % 0x1_0000;
    if next == 0 then DynamicStart else next
  }

  /**
   * `has_free_ephemeral()` on a counter value. As written it compares with
   * DYNAMIC_END - DYNAMIC_START (16383), one less than the range size.
   */
  function EphemeralAvailable(count: uint16): bool {
    count < DynamicEnd - DynamicStart
  }

  /**
   * What `get_next_ephemeral()` returns for bitmap s, cursor and counter:
   * the advanced cursor if that port is free, otherwise the lowest free
   * dynamic port. The cursor becomes the returned port.
   */
  function NextEphemeral(s: seq<bool>, cursor: uint16, count: uint16): (r: Result<uint16>)
    requires |s| == PortCount
    ensures r == Err(EphemeralExhausted) <==> !EphemeralAvailable(count)
    ensures r.Ok? ==> s[r.value]
    ensures r.Ok? && IsDynamic(cursor) ==> IsDynamic(r.value)
    ensures r.Ok? && s[Advance(cursor)] ==> r.value == Advance(cursor)
    ensures r.Ok? && !s[Advance(cursor)] ==>
      IsDynamic(r.value) && forall k :: DynamicStart <= k < r.value ==> !s[k]
    ensures r == Err(ContractViolated) ==>
      !s[Advance(cursor)] && forall k :: DynamicStart <= k < PortCount ==> !s[k]
  {
    if !EphemeralAvailable(count) then Err(EphemeralExhausted)
    else
      var c := Advance(cursor);
      if s[c] then Ok(c)
      else
        var f := FirstFreeFrom(s, DynamicStart);
        if f == -1 then Err(ContractViolated) else Ok(f)
  }

  /** `eph_count` after `bind(p)`: `++eph_count` for a dynamic port, wrapping as a `uint16_t`. */
  function CountAfterBind(count: uint16, p: uint16): (r: uint16)
    ensures !IsDynamic(p) ==> r == count
    ensures IsDynamic(p) && count < 0xFFFF ==> r == count + 1
    ensures IsDynamic(p) && count == 0xFFFF ==> r == 0
  {
    if IsDynamic(p) then (count + 1) % 0x1_0000 else count
  }

  /** `eph_count` after `unbind(p)`: `--eph_count` for a dynamic port, wrapping as a `uint16_t`. */
  function CountAfterUnbind(count: uint16, p: uint16): (r: uint16)
    ensures !IsDynamic(p) ==> r == count
    ensures IsDynamic(p) && count > 0 ==> r == count - 1
    ensures IsDynamic(p) && count == 0 ==> r == 0xFFFF
  {
    // Dafny's % is Euclidean, so (0 - 1) % 0x1_0000 == 0xFFFF as in C++.
    if IsDynamic(p) then (count - 1) % 0x1_0000 else count
  }

  // ---------------------------------------------------------------------
  // Lemmas about the specification
  // ---------------------------------------------------------------------

  /** A freshly constructed map (every bit free) has no bound dynamic port. */
  lemma AllFreeCountsZero(s: seq<bool>)
    requires |s| == PortCount && forall k :: 0 <= k < PortCount ==> s[k]
    ensures BoundDynamic(s) == 0
  {
    BoundCountZero(s, DynamicStart, PortCount);
  }

  /** Binding a free port keeps an accurate counter accurate. */
  lemma BindKeepsCountAccurate(s: seq<bool>, count: uint16, p: uint16)
    requires |s| == PortCount && count == BoundDynamic(s) && s[p]
    ensures CountAfterBind(count, p) == BoundDynamic(s[p := false])
  {
    BoundCountUpdate(s, DynamicStart, PortCount, p, false);
  }

  /** Unbinding a bound port keeps an accurate counter accurate. */
  lemma UnbindKeepsCountAccurate(s: seq<bool>, count: uint16, p: uint16)
    requires |s| == PortCount && count == BoundDynamic(s) && !s[p]
    ensures CountAfterUnbind(count, p) == BoundDynamic(s[p := true])
  {
    BoundCountUpdate(s, DynamicStart, PortCount, p, true);
  }

  /**
   * `bind` does not look at the previous bit: binding an already bound
   * dynamic port still counts it, so an accurate counter becomes wrong.
   */
  lemma DoubleBindCorruptsCount(s: seq<bool>, count: uint16, p: uint16)
    requires |s| == PortCount && count == BoundDynamic(s) && !s[p] && IsDynamic(p)
    ensures CountAfterBind(count, p) == BoundDynamic(s[p := false]) + 1
  {
    assert s[p := false] == s;
  }

  /**
   * `unbind` does not look at the previous bit either: unbinding a free
   * dynamic port decrements the counter, wrapping it to 65535 when it was 0.
   */
  lemma DoubleUnbindCorruptsCount(s: seq<bool>, count: uint16, p: uint16)
    requires |s| == PortCount && count == BoundDynamic(s) && s[p] && IsDynamic(p)
    ensures count == 0 ==> CountAfterUnbind(count, p) == 0xFFFF
    ensures count > 0 ==> CountAfterUnbind(count, p) == BoundDynamic(s[p := true]) - 1
  {
    assert s[p := true] == s;
  }

  /** `bind(p)` then `unbind(p)` on a free port restores the bitmap and the counter. */
  lemma BindUnbindRestores(s: seq<bool>, count: uint16, p: uint16)
    requires |s| == PortCount && s[p]
    ensures s[p := false][p := true] == s
    ensures CountAfterUnbind(CountAfterBind(count, p), p) == count
  {
    assert s[p := false][p := true] == s[p := true];
  }

  /**
   * With an accurate counter the fallback scan always finds a free port:
   * the call either hands out a port or throws `Port_error`, and it hands
   * out a port whenever `has_free_ephemeral()` holds.
   */
  lemma AccurateCountNeverViolates(s: seq<bool>, cursor: uint16, count: uint16)
    requires |s| == PortCount && count == BoundDynamic(s)
    ensures NextEphemeral(s, cursor, count) != Err(ContractViolated)
    ensures EphemeralAvailable(count) ==> NextEphemeral(s, cursor, count).Ok?
  {
    BoundCountFull(s, DynamicStart, PortCount);
  }

  /**
   * Consequence of the 16383 bound in `has_free_ephemeral()`: with exactly
   * one dynamic port p still free and an accurate counter, the counter reads
   * 16383 and `get_next_ephemeral()` throws instead of returning p.
   */
  lemma LastFreePortIsRefused(s: seq<bool>, p: uint16, cursor: uint16, count: uint16)
    requires |s| == PortCount && IsDynamic(p) && s[p]
    requires forall k :: DynamicStart <= k < PortCount && k != p ==> !s[k]
    requires count == BoundDynamic(s)
    ensures count == DynamicSize - 1
    ensures NextEphemeral(s, cursor, count) == Err(EphemeralExhausted)
  {
    BoundCountUpdate(s, DynamicStart, PortCount, p, false);
    BoundCountFull(s[p := false], DynamicStart, PortCount);
  }

  /** With every dynamic port bound and an accurate counter, `get_next_ephemeral()` throws. */
  lemma FullRangeIsExhausted(s: seq<bool>, cursor: uint16, count: uint16)
    requires |s| == PortCount
    requires forall k :: DynamicStart <= k < PortCount ==> !s[k]
    requires count == BoundDynamic(s)
    ensures count == DynamicSize
    ensures NextEphemeral(s, cursor, count) == Err(EphemeralExhausted)
  {
    BoundCountFull(s, DynamicStart, PortCount);
  }

  // ---------------------------------------------------------------------
  // The allocator object
  // ---------------------------------------------------------------------

  class PortUtil {
    /** `Fixed_bitmap<65536> ports`: true = free, false = bound. */
    const ports: array<bool>
    /** `ephemeral_`: the last ephemeral port handed out. */
    var ephemeral: uint16
    /** `eph_count`: bound ports in the dynamic range, as tracked by bind/unbind. */
    var ephCount: uint16

    ghost predicate Valid()
      reads this
    {
      ports.Length == PortCount
    }

    ghost function Bitmap(): seq<bool>
      reads this, ports
      requires Valid()
    {
      ports[..]
    }

    /** The invariant the allocator relies on: the counter agrees with the bitmap. */
    ghost predicate CountAccurate()
      reads this, ports
      requires Valid()
    {
      ephCount == BoundDynamic(ports[..])
    }

    /**
     * `Port_util()`: every port free, counter 0. The starting cursor comes
     * from `net::new_ephemeral_port()`, a random source, so it is a parameter.
     */
    constructor (start: uint16)
      ensures Valid() && fresh(ports)
      ensures forall p: uint16 :: !IsBound(p)
      ensures ephCount == 0 && ephemeral == start
      ensures CountAccurate()
    {
      ports := new bool[PortCount](_ => true);
      ephemeral := start;
      ephCount := 0;
      new;
      AllFreeCountsZero(ports[..]);
    }

    /** `is_bound(port)`: the port's bit is 0. */
    function IsBound(port: uint16): (r: bool)
      reads this, ports
      requires Valid()
      ensures r <==> !Bitmap()[port]
    {
      !ports[port]
    }

    /** `has_free_ephemeral()`. */
    function HasFreeEphemeral(): (r: bool)
      reads this, ports
      requires Valid()
      ensures r <==> ephCount < DynamicSize - 1
      ensures r && CountAccurate() ==> exists p :: DynamicStart <= p < PortCount && Bitmap()[p]
    {
      BoundCountFull(Bitmap(), DynamicStart, PortCount);
      EphemeralAvailable(ephCount)
    }

    /** `bind(port)`: clears the port's bit and counts a dynamic port, whatever its previous state. */
    method Bind(port: uint16)
      requires Valid()
      modifies ports, this`ephCount
      ensures Bitmap() == old(Bitmap())[port := false]
      ensures ephCount == CountAfterBind(old(ephCount), port)
      ensures IsBound(port)
      ensures old(CountAccurate()) && !old(IsBound(port)) ==> CountAccurate()
    {
      ghost var s, count := ports[..], ephCount;
      ports[port] := false;
      if IsDynamic(port) {
        ephCount := (ephCount + 1) % 0x1_0000;
      }
      if count == BoundDynamic(s) && s[port] {
        BindKeepsCountAccurate(s, count, port);
      }
    }

    /** `unbind(port)`: sets the port's bit and uncounts a dynamic port, whatever its previous state. */
    method Unbind(port: uint16)
      requires Valid()
      modifies ports, this`ephCount
      ensures Bitmap() == old(Bitmap())[port := true]
      ensures ephCount == CountAfterUnbind(old(ephCount), port)
      ensures !IsBound(port)
      ensures old(CountAccurate()) && old(IsBound(port)) ==> CountAccurate()
    {
      ghost var s, count := ports[..], ephCount;
      ports[port] := true;
      if IsDynamic(port) {
        ephCount := (ephCount - 1) % 0x1_0000;
      }
      if count == BoundDynamic(s) && !s[port] {
        UnbindKeepsCountAccurate(s, count, port);
      }
    }

    /**
     * `eph_view.first_set()`: index, relative to DYNAMIC_START, of the first
     * free port in the dynamic range, or -1 when there is none.
     */
    method FirstSet() returns (i: int)
      requires Valid()
      ensures -1 <= i < DynamicSize
      ensures var f := FirstFreeFrom(Bitmap(), DynamicStart); i == if f == -1 then -1 else f - DynamicStart
      ensures i == -1 <==> forall p :: DynamicStart <= p < PortCount ==> IsBound(p)
      ensures i != -1 ==> !IsBound(DynamicStart + i)
      ensures i != -1 ==> forall p :: DynamicStart <= p < DynamicStart + i ==> IsBound(p)
    {
      var p := DynamicStart;
      while p < PortCount
        invariant DynamicStart <= p <= PortCount
        invariant FirstFreeFrom(ports[..], p) == FirstFreeFrom(ports[..], DynamicStart)
      {
        if ports[p] {
          assert !IsBound(p);
          return p - DynamicStart;
        }
        p := p + 1;
      }
      return -1;
    }

    /**
     * `increment_ephemeral()`: throws when the counter says the range is
     * full, otherwise advances the cursor, falling back to the first free
     * dynamic port when the advanced one is bound.
     */
    method IncrementEphemeral() returns (status: Outcome)
      requires Valid()
      modifies this`ephemeral
      ensures var r := NextEphemeral(Bitmap(), old(ephemeral), ephCount);
        && (r.Ok? <==> status == Pass)
        && (r.Ok? ==> ephemeral == r.value)
        && (r.Err? ==> status == Fail(r.error))
      ensures status == Fail(EphemeralExhausted) ==> ephemeral == old(ephemeral)
      ensures status == Fail(ContractViolated) ==> ephemeral == Advance(old(ephemeral))
      ensures status == Pass ==> !IsBound(ephemeral)
    {
      if !HasFreeEphemeral() {
        return Fail(EphemeralExhausted);
      }
      ephemeral := (ephemeral + 1) % 0x1_0000;
      if ephemeral == 0 {
        ephemeral := DynamicStart;
      }
      if IsBound(ephemeral) {
        var i := FirstSet();
        if i == -1 {
          return Fail(ContractViolated);
        }
        ephemeral := DynamicStart + i;
      }
      // The `Expects` that closes the source function never fails.
      assert !IsBound(ephemeral);
      return Pass;
    }

    /**
     * `get_next_ephemeral()`: the next ephemeral port. It does not bind the
     * port, so the bitmap and the counter are unchanged.
     */
    method GetNextEphemeral() returns (r: Result<uint16>)
      requires Valid()
      modifies this`ephemeral
      ensures r == NextEphemeral(Bitmap(), old(ephemeral), ephCount)
      ensures r.Ok? ==> ephemeral == r.value && !IsBound(r.value)
      ensures CountAccurate() ==> r != Err(ContractViolated)
      ensures CountAccurate() && HasFreeEphemeral() ==> r.Ok?
    {
      var status := IncrementEphemeral();
      if status.Fail? {
        r := Err(status.error);
      } else {
        r := Ok(ephemeral);
      }
      if CountAccurate() {
        AccurateCountNeverViolates(ports[..], old(ephemeral), ephCount);
      }
    }
  }
}
