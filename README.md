# IncludeOS IPv4 stack: port allocator, stack configuration, ARP cache bookkeeping

A Dafny model of three pieces of the per-device IPv4 stack of the IncludeOS
unikernel:

- **`Port_util`** (`ports.dfy`, module `Ports`): the ephemeral-port
  allocator. It keeps a 65536-bit map of the port space (1 = free,
  0 = bound), a cursor `ephemeral_` for the last ephemeral port handed out,
  and a `uint16_t` counter `eph_count` of bound ports in the dynamic range
  49152..65535. The class `PortUtil` keeps the bitmap as an `array<bool>`
  and updates it in place. Its methods are proved against value-level
  functions:
  - `NextEphemeral` says what `get_next_ephemeral()` returns;
  - `CountAfterBind` and `CountAfterUnbind` give the counter after
    `bind`/`unbind`, with explicit 16-bit wrap-around;
  - `FirstFreeFrom` is the first-free-bit scan of the dynamic-range view;
  - `BoundDynamic` is what the counter is meant to hold.

  The lemmas prove the allocator's two guarantees: the returned port is never
  bound, and the fallback scan always finds a port. The second one holds as
  long as the counter agrees with the bitmap. The lemmas also show how
  unpaired `bind`/`unbind` breaks that agreement.
- **`Inet4`** (`inet4.dfy`, module `Inet`): the stack's configuration:
  - address, netmask, gateway, DNS server and domain name;
  - the broadcast address `ip | ~netmask` on `bv32`;
  - `is_configured`, `reset_config` and the one-field setters;
  - the append-only configuration and transmit-queue handler lists;
  - the virtual-loopback (VIP) set with `is_loopback`, `add_vip`,
    `remove_vip`, `get_source_addr` and the anti-spoofing check
    `is_valid_source`;
  - the three calls it forwards to its ARP manager.
- **`Arp`** (`arp.dfy`, module `ArpLayer`): the bookkeeping part of the
  ARP manager (RFC 826; cache rules of section 2.3.2.1 of RFC 1122):
  - cache entries (MAC and timestamp) that expire 300 seconds after their
    timestamp;
  - `flush_cache`;
  - the stored flush interval and proxy policy.

  The clock `RTC::time_since_boot()` is an explicit `now` parameter.

`net_types.dfy` (module `NetTypes`) holds the shared types:
- `uint16`;
- `IP4Addr` as `bv32`, most significant byte first;
- `MacAddr` as `bv48`;
- `Delegate`, the identity of a registered closure.

The model follows the code in three places where a plain reading of the
allocator's and stack's purpose suggests something else:

- `has_free_ephemeral()` compares `eph_count` with `DYNAMIC_END -
  DYNAMIC_START` = 16383, not with the range size 16384. So when exactly
  one dynamic port is left free, `get_next_ephemeral()` throws instead of
  returning it (`Ports.LastFreePortIsRefused`).
- `remove_vip(127.0.0.1)` does erase 127.0.0.1 from the VIP set. The
  address still counts as loopback, because `is_loopback` also checks
  127.0.0.0/8.
- `get_source_addr(d)` tests `d.is_loopback()` (127.0.0.0/8) first. So for
  every `d` in 127.0.0.0/8 the source is 127.0.0.1, even when `d` is also in
  the VIP set. A VIP outside 127.0.0.0/8 is returned unchanged.

Constants from headers that are not part of this model:
- `port_ranges::DYNAMIC_START`/`DYNAMIC_END`/`is_dynamic` are taken as
  49152/65535 and 49152 <= p <= 65535, as the comment at
  api/net/port_util.hpp:45 says.
- `IP4::addr::is_loopback()` is taken as membership of 127.0.0.0/8
  (section 3.2.1.3 of RFC 1122).
- The `Inet4(hw::Nic&)` and `Arp(Stack&)` constructor bodies are not part of
  this model. Their initial state follows the comment "Initialize with
  ANY_ADDR" (api/net/inet4.hpp:330) and the member initialisers: VIP set
  `{127.0.0.1}`; 5-minute flush interval; null proxy; empty cache.

## Model

| member | source | states |
|---|---|---|
| `Ports.FirstFreeFrom` | api/net/port_util.hpp:135-136 | returns -1 iff every port from k up is bound; otherwise a free port, with every port between k and it bound (the first free one) |
| `Ports.Advance` | api/net/port_util.hpp:127-131 | the advanced cursor is never 0: 65535 wraps to 49152, any smaller value goes up by one, and a dynamic cursor stays dynamic |
| `Ports.NextEphemeral` | api/net/port_util.hpp:122-141 | throws (EphemeralExhausted) iff the counter is not below 16383; a returned port is always free; it is the advanced cursor when that port is free, otherwise the lowest free dynamic port; the fatal outcome happens only when every dynamic port is bound |
| `Ports.CountAfterBind` | api/net/port_util.hpp:77 | the counter goes up by one, wrapping 65535 to 0, iff the port is dynamic; otherwise it is unchanged |
| `Ports.CountAfterUnbind` | api/net/port_util.hpp:89 | the counter goes down by one, wrapping 0 to 65535, iff the port is dynamic; otherwise it is unchanged |
| `Ports.AllFreeCountsZero` | api/net/port_util.hpp:43-54 | a map with every port free has no bound dynamic port, so the initial counter 0 is accurate |
| `Ports.BindKeepsCountAccurate` | api/net/port_util.hpp:73-78 | binding a free port keeps an accurate counter accurate |
| `Ports.UnbindKeepsCountAccurate` | api/net/port_util.hpp:85-90 | unbinding a bound port keeps an accurate counter accurate |
| `Ports.DoubleBindCorruptsCount` | api/net/port_util.hpp:73-78 | binding an already bound dynamic port leaves the counter one above the real number of bound dynamic ports |
| `Ports.DoubleUnbindCorruptsCount` | api/net/port_util.hpp:85-90 | unbinding an already free dynamic port leaves the counter one below the real number, or wraps it from 0 to 65535 |
| `Ports.BindUnbindRestores` | api/net/port_util.hpp:73-90 | `bind(p)` then `unbind(p)` on a free port restores the bitmap exactly, and the counter for any p |
| `Ports.AccurateCountNeverViolates` | api/net/port_util.hpp:122-141 | with an accurate counter the check at line 136 never fails: the call throws or returns a port, and returns one whenever `has_free_ephemeral()` holds |
| `Ports.LastFreePortIsRefused` | api/net/port_util.hpp:109-110 | with one dynamic port free and an accurate counter, the counter is 16383 and the allocator throws instead of returning that port |
| `Ports.FullRangeIsExhausted` | api/net/port_util.hpp:124-125 | with every dynamic port bound and an accurate counter, the counter is 16384 and the allocator throws |
| `Ports.PortUtil.constructor` | api/net/port_util.hpp:43-54 | every port is free, the counter is 0 and accurate, and the cursor is the supplied start |
| `Ports.PortUtil.IsBound` | api/net/port_util.hpp:99-102 | a port is bound iff its bit is 0 |
| `Ports.PortUtil.HasFreeEphemeral` | api/net/port_util.hpp:109-110 | holds iff the counter is below 16383; when it holds and the counter is accurate, some dynamic port is free |
| `Ports.PortUtil.Bind` | api/net/port_util.hpp:73-78 | clears exactly the port's bit; the counter follows CountAfterBind whatever the previous bit; the port is bound afterwards; an accurate counter stays accurate when the port was free |
| `Ports.PortUtil.Unbind` | api/net/port_util.hpp:85-90 | sets exactly the port's bit; the counter follows CountAfterUnbind whatever the previous bit; the port is free afterwards; an accurate counter stays accurate when the port was bound |
| `Ports.PortUtil.FirstSet` | api/net/port_util.hpp:135 | returns -1 iff every dynamic port is bound; otherwise the offset from 49152 of the lowest free dynamic port |
| `Ports.PortUtil.IncrementEphemeral` | api/net/port_util.hpp:122-141 | the outcome and the new cursor agree with NextEphemeral; on a throw the cursor is unchanged; on success the cursor is a free port, so the check at line 140 never fails |
| `Ports.PortUtil.GetNextEphemeral` | api/net/port_util.hpp:62-66 | returns NextEphemeral of the state without binding anything; a returned port is free and becomes the cursor; with an accurate counter the fatal outcome never happens, and a port is returned whenever `has_free_ephemeral()` holds |
| `Inet.Broadcast` | api/net/inet4.hpp:64-65 | the broadcast address agrees with the address on every network bit and has every host bit set |
| `Inet.BroadcastUnique` | api/net/inet4.hpp:64-65 | any address with those two properties is the broadcast address |
| `Inet.BroadcastExample` | api/net/inet4.hpp:64-65 | 10.0.0.5 with netmask 255.255.255.0 broadcasts to 10.0.0.255 |
| `Inet.Inet4.BroadcastAddr` | api/net/inet4.hpp:64-65 | the stack's broadcast address is Broadcast of its current address and netmask |
| `Inet.Inet4.constructor` | api/net/inet4.hpp:330-344 | all four addresses are ANY, so the stack is unconfigured; the VIP set is {127.0.0.1}; both handler lists are empty; a fresh ARP manager with an empty cache and no proxy |
| `Inet.Inet4.IsConfigured` | api/net/inet4.hpp:187-190 | configured iff the address is not ANY |
| `Inet.Inet4.IsLoopback` | api/net/inet4.hpp:276-280 | loopback iff in 127.0.0.0/8 or in the VIP set |
| `Inet.Inet4.GetSourceAddr` | api/net/inet4.hpp:295-305 | 127.0.0.1 for a 127.0.0.0/8 destination, the destination itself for any other VIP, the stack's address otherwise; the result always passes IsValidSource |
| `Inet.Inet4.IsValidSource` | api/net/inet4.hpp:307-308 | valid iff in 127.0.0.0/8, in the VIP set, or equal to the stack's address |
| `Inet.Inet4.SetGateway` | api/net/inet4.hpp:167-170 | sets the gateway and may change no other field |
| `Inet.Inet4.SetDnsServer` | api/net/inet4.hpp:172-175 | sets the DNS server and may change no other field |
| `Inet.Inet4.SetDomainName` | api/net/inet4.hpp:161-162 | sets the domain name and may change no other field |
| `Inet.Inet4.ResetConfig` | api/net/inet4.hpp:210-216 | address, gateway and netmask become ANY, so the stack is unconfigured; the DNS server, domain name, VIPs and handler lists cannot change |
| `Inet.Inet4.OnConfig` | api/net/inet4.hpp:194-197 | appends the handler at the end, keeping earlier handlers in order, with no duplicate check |
| `Inet.Inet4.OnTransmitQueueAvailable` | api/net/inet4.hpp:219-222 | appends the delegate at the end, keeping earlier delegates in order, with no duplicate check |
| `Inet.Inet4.AddVip` | api/net/inet4.hpp:283-289 | leaves the set unchanged when the address is already loopback, otherwise inserts it; afterwards it is loopback and no other address changes status |
| `Inet.Inet4.RemoveVip` | api/net/inet4.hpp:292-293 | erases the address from the set; afterwards it is loopback iff it is in 127.0.0.0/8, and no other address changes status |
| `Inet.Inet4.FlushLinkCache` | api/net/inet4.hpp:73-74 | empties the ARP cache and touches nothing else |
| `Inet.Inet4.SetLinkCacheFlushInterval` | api/net/inet4.hpp:76-77 | sets the ARP flush interval and touches nothing else |
| `Inet.Inet4.SetRouteChecker` | api/net/inet4.hpp:110-111 | installs the ARP proxy policy and touches nothing else |
| `ArpLayer.CacheEntry.constructor` | api/net/ip4/arp.hpp:110-111 | the entry holds the given MAC, is stamped with `now` and is not expired at `now` |
| `ArpLayer.CacheEntry.Copy` | api/net/ip4/arp.hpp:113-114 | the copy has the same MAC and timestamp, so it expires at the same times |
| `ArpLayer.CacheEntry.Update` | api/net/ip4/arp.hpp:116 | the timestamp becomes `now` and the MAC cannot change; the entry is not expired at `now` and expires 300 s later |
| `ArpLayer.CacheEntry.Expired` | api/net/ip4/arp.hpp:118-119 | expired iff `now` is past the expiry instant; never expired at or before its timestamp |
| `ArpLayer.CacheEntry.Expires` | api/net/ip4/arp.hpp:127-128 | the expiry instant is the timestamp plus 60 * 5 seconds |
| `ArpLayer.Arp.constructor` | api/net/ip4/arp.hpp:145-160 | empty cache, flush interval 5 minutes, no proxy policy (proxy ARP disabled) |
| `ArpLayer.Arp.FlushCache` | api/net/ip4/arp.hpp:90-91 | the cache map is empty afterwards |
| `ArpLayer.Arp.SetCacheFlushInterval` | api/net/ip4/arp.hpp:96-98 | stores the interval and changes nothing else |
| `ArpLayer.Arp.SetProxyPolicy` | api/net/ip4/arp.hpp:70-77 | stores the route checker (None is the null delegate) and changes nothing else |

## Left out

- The dynamic-range view `eph_view` (api/net/port_util.hpp:45-48) is modelled by its stated meaning: the first free port in 49152..65535. The constructor builds it with `ports.data() + DYNAMIC_START` and size `(DYNAMIC_END - DYNAMIC_START + 1) / sizeof(MemBitmap::word)`. Whether that offsets and sizes the view in bits or in words depends on the `Fixed_bitmap`/`MemBitmap` word layout, and util/fixed_bitmap.hpp is not part of this model. That arithmetic is neither modelled nor verified.
- `net::new_ephemeral_port()` is a random source. The starting cursor is a constructor parameter instead, and the model does not assume it is dynamic. `Advance` proves that a dynamic cursor stays dynamic.
- The `Ensures`/`Expects` checks of `increment_ephemeral` terminate the program. The `Ensures` at line 136 is the `ContractViolated` outcome. The `Expects` at line 140 is proved never to fail.
- `network_config`, `error_report`, `negotiate_dhcp`, `force_start_send_queues`, `move_to_this_cpu` and `process_sendq` are only declared in inet4.hpp. Their bodies are not part of this model. So configuration-observer dispatch (running `configured_handlers_` on configuration) and DHCP timeouts are not modelled. Only the registration order of handlers is.
- Forwarding to the NIC, IP4, DNS, TCP, UDP and ICMP objects is left out: `ifname`, `link_addr`, `nic`, `create_packet`, `create_ip_packet`, `ip_packet_factory`, `resolve`, `MTU`, buffer and queue counts, `set_forward_delg`/`forward_delg`, `cache_link_addr`, `get_cpu_id`. Those collaborators are not part of this model.
- The five filter chains appear in inet4.hpp only as accessors. The `Filter_chain` type and its traversal are not part of this model.
- The `Super_stack` registry (`stack<N>`, both `ifconfig<N>` overloads) is process-wide global lookup outside this model. The DHCP overload also takes a `double` timeout.
- ARP `receive`, `transmit`, `cache`, `arp_respond`, `arp_resolve`, `await_resolution`, `resolve_waiting`, `flush_expired`, `set_resolver`, `set_linklayer_out`, the timers and the packed `header` wire layout are left out. Their bodies are not part of this model, so nothing in the model inserts into the cache.
- The default `Cache_entry()` constructor is left out. Its field values come from `MAC::Addr` and `RTC` headers that are not part of this model.
- `ArpLayer.CacheEntry.Expires`: timestamps are unbounded integers, so the `int64_t` overflow of `timestamp_ + cache_exp_sec_` is not modelled.
- `INFO` logging and the ARP statistics counters are left out.
- Delegates and handlers are modelled by identity only (`Delegate(id)`); invoking them is not modelled.
