/**
 * The bookkeeping half of the ARP manager (RFC 826): cache entries that
 * expire five minutes after they were last refreshed, the cache map, the
 * flush interval and the proxy-ARP policy. The clock
 * `RTC::time_since_boot()` is the explicit parameter `now`, in seconds.
 */
module ArpLayer {
  import opened NetTypes

  /** `cache_exp_sec_`: an entry lives 60 * 5 seconds after its timestamp. */
  const CacheExpSec: int := 60 * 5

  /** Default `flush_interval_`, in minutes. */
  const DefaultFlushInterval: int := 5

  /** `Arp::Cache_entry`: a resolved MAC address and when it was last refreshed. */
  class CacheEntry {
    var mac: MacAddr
    var timestamp: int

    /** `Cache_entry(MAC::Addr)`: stamped with the current time. */
    constructor (mac: MacAddr, now: int)
      ensures this.mac == mac && timestamp == now
      ensures !Expired(now)
    {
      this.mac := mac;
      timestamp := now;
    }

    /** The copy constructor: same MAC, same timestamp. */
    constructor Copy(cpy: CacheEntry)
      ensures mac == cpy.mac && timestamp == cpy.timestamp
      ensures forall t :: Expired(t) == cpy.Expired(t)
    {
      mac := cpy.mac;
      timestamp := cpy.timestamp;
    }

    /** `update()`: refreshes the timestamp; the MAC is outside the frame. */
    method Update(now: int)
      modifies this`timestamp
      ensures timestamp == now
      ensures !Expired(now)
      ensures Expires() == now + CacheExpSec
    {
      timestamp := now;
    }

    /** `expired()`: the entry has outlived its five minutes at time `now`. */
    function Expired(now: int): (r: bool)
      reads this
      ensures r <==> now > Expires()
      ensures now <= timestamp ==> !r
    {
      now > timestamp + CacheExpSec
    }

    /** `expires()`: the instant after which the entry is expired. */
    function Expires(): (r: int)
      reads this
      ensures r - timestamp == CacheExpSec
      ensures r > timestamp
    {
      timestamp + CacheExpSec
    }
  }

  /** `Arp`: the cache and its policy settings. */
  class Arp {
    /** `cache_`: IPv4 address to cache entry. */
    var cache: map<IP4Addr, CacheEntry>
    /** `flush_interval_`, in minutes. */
    var flushInterval: int
    /** `proxy_`, the route checker; None is the null delegate, meaning proxy ARP is off. */
    var proxy: Option<Delegate>

    /** The member initialisers of `Arp`: empty cache, 5 minutes, no proxy. */
    constructor ()
      ensures cache == map[]
      ensures flushInterval == DefaultFlushInterval
      ensures proxy == None
    {
      cache := map[];
      flushInterval := DefaultFlushInterval;
      proxy := None;
    }

    /** `flush_cache()`: drops every entry. */
    method FlushCache()
      modifies this`cache
      ensures cache == map[]
      ensures forall ip :: ip !in cache
    {
      cache := map[];
    }

    /** `set_cache_flush_interval(m)`. */
    method SetCacheFlushInterval(m: int)
      modifies this`flushInterval
      ensures flushInterval == m
    {
      flushInterval := m;
    }

    /** `set_proxy_policy(delg)`. */
    method SetProxyPolicy(delg: Option<Delegate>)
      modifies this`proxy
      ensures proxy == delg
    {
      proxy := delg;
    }
  }
}
