/**
 * The configuration and virtual-IP logic of `Inet4`, the IPv4 stack that
 * owns one network device: address, netmask, gateway, DNS server and domain
 * name; the configuration and transmit-queue handler lists; the set of
 * virtual loopback addresses; and the ARP manager it delegates to.
 */
module Inet {
  import opened NetTypes
  import ArpLayer

  /**
   * `ip | ~netmask`, the computation behind `broadcast_addr()`: the
   * directed broadcast address of ip's subnet, which agrees with ip on every
   * network bit and has every host bit set.
   */
  function Broadcast(ip: IP4Addr, mask: IP4Addr): (r: IP4Addr)
    ensures r & mask == ip & mask
    ensures r & !mask == !mask
  {
    ip | !mask
  }

  /** Those two properties pin the broadcast address down: any address having both is it. */
  lemma BroadcastUnique(b: IP4Addr, ip: IP4Addr, mask: IP4Addr)
    requires b & mask == ip & mask && b & !mask == !mask
    ensures b == Broadcast(ip, mask)
  {
  }

  /** 10.0.0.5 with netmask 255.255.255.0 broadcasts to 10.0.0.255. */
  lemma BroadcastExample()
    ensures Broadcast(0x0A00_0005, 0xFFFF_FF00) == 0x0A00_00FF
  {
  }

  class Inet4 {
    var ip4Addr: IP4Addr
    var netmask: IP4Addr
    var gateway: IP4Addr
    var dnsServer: IP4Addr
    var domainName: string
    /** `vip4s_`: addresses treated as loopback besides 127.0.0.0/8. */
    var vips: set<IP4Addr>
    /** `configured_handlers_`, in registration order. */
    var configuredHandlers: seq<Delegate>
    /** `tqa`: transmit-queue-available delegates, in registration order. */
    var tqa: seq<Delegate>
    /** `arp_`. */
    const arp: ArpLayer.Arp

    /** `Inet4(nic)`: every address ANY, the VIP set {127.0.0.1}, no handlers. */
    constructor ()
      ensures ip4Addr == ADDR_ANY && netmask == ADDR_ANY && gateway == ADDR_ANY && dnsServer == ADDR_ANY
      ensures domainName == "" && vips == {LOCALHOST}
      ensures configuredHandlers == [] && tqa == []
      ensures !IsConfigured() && IsLoopback(LOCALHOST)
      ensures fresh(arp) && arp.cache == map[] && arp.proxy == None
    {
      ip4Addr, netmask, gateway, dnsServer := ADDR_ANY, ADDR_ANY, ADDR_ANY, ADDR_ANY;
      domainName := "";
      vips := {LOCALHOST};
      configuredHandlers, tqa := [], [];
      arp := new ArpLayer.Arp();
    }

    /**
     * `broadcast_addr()`: `ip | ~netmask`, the address whose network bits
     * are the stack's own and whose host bits are all ones.
     */
    function BroadcastAddr(): (r: IP4Addr)
      reads this
      ensures r == Broadcast(ip4Addr, netmask)
    {
      Broadcast(ip4Addr, netmask)
    }

    /** `is_configured()`: an address other than ANY is set. */
    function IsConfigured(): (r: bool)
      reads this
      ensures r <==> ip4Addr != ADDR_ANY
    {
      ip4Addr != 0
    }

    /** `is_loopback(a)`: in 127.0.0.0/8 or a virtual IP. */
    function IsLoopback(a: IP4Addr): (r: bool)
      reads this
      ensures IsLoopbackAddr(a) ==> r
      ensures a in vips ==> r
      ensures r ==> IsLoopbackAddr(a) || a in vips
    {
      IsLoopbackAddr(a) || a in vips
    }

    /**
     * `get_source_addr(dest)`: 127.0.0.1 towards 127.0.0.0/8, the virtual
     * IP itself towards a virtual IP, the stack's address otherwise. The
     * choice always passes `is_valid_source`.
     */
    function GetSourceAddr(dest: IP4Addr): (r: IP4Addr)
      reads this
      ensures IsLoopbackAddr(dest) ==> r == LOCALHOST
      ensures !IsLoopbackAddr(dest) && IsLoopback(dest) ==> r == dest
      ensures !IsLoopback(dest) ==> r == ip4Addr
      ensures IsLoopback(dest) ==> IsLoopback(r)
      ensures IsValidSource(r)
    {
      if IsLoopbackAddr(dest) then LOCALHOST
      else if IsLoopback(dest) then dest
      else ip4Addr
    }

    /** `is_valid_source(src)`: the anti-spoofing check. */
    function IsValidSource(src: IP4Addr): (r: bool)
      reads this
      ensures r <==> IsLoopbackAddr(src) || src in vips || src == ip4Addr
    {
      IsLoopback(src) || src == ip4Addr
    }

    /** `set_gateway(gateway)`: only the gateway changes. */
    method SetGateway(gw: IP4Addr)
      modifies this`gateway
      ensures gateway == gw
    {
      gateway := gw;
    }

    /** `set_dns_server(server)`: only the DNS server changes. */
    method SetDnsServer(server: IP4Addr)
      modifies this`dnsServer
      ensures dnsServer == server
    {
      dnsServer := server;
    }

    /** `set_domain_name(name)`: only the domain name changes. */
    method SetDomainName(name: string)
      modifies this`domainName
      ensures domainName == name
    {
      domainName := name;
    }

    /**
     * `reset_config()`: address, gateway and netmask back to ANY; the DNS
     * server, domain name, VIPs and handler lists stay.
     */
    method ResetConfig()
      modifies this`ip4Addr, this`gateway, this`netmask
      ensures ip4Addr == ADDR_ANY && gateway == ADDR_ANY && netmask == ADDR_ANY
      ensures !IsConfigured()
    {
      ip4Addr := ADDR_ANY;
      gateway := ADDR_ANY;
      netmask := ADDR_ANY;
    }

    /** `on_config(handler)`: appended, duplicates allowed. */
    method OnConfig(handler: Delegate)
      modifies this`configuredHandlers
      ensures configuredHandlers == old(configuredHandlers) + [handler]
      ensures configuredHandlers[..|old(configuredHandlers)|] == old(configuredHandlers)
    {
      configuredHandlers := configuredHandlers + [handler];
    }

    /** `on_transmit_queue_available(del)`: appended, duplicates allowed. */
    method OnTransmitQueueAvailable(del: Delegate)
      modifies this`tqa
      ensures tqa == old(tqa) + [del]
      ensures tqa[..|old(tqa)|] == old(tqa)
    {
      tqa := tqa + [del];
    }

    /** `add_vip(a)`: inserts a unless it is already loopback. */
    method AddVip(a: IP4Addr)
      modifies this`vips
      ensures vips == if old(IsLoopback(a)) then old(vips) else old(vips) + {a}
      ensures IsLoopback(a)
      ensures forall b :: b != a ==> (IsLoopback(b) <==> old(IsLoopback(b)))
    {
      if !IsLoopback(a) {
        vips := vips + {a};
      }
    }

    /** `remove_vip(a)`: erases a; an address in 127.0.0.0/8 stays loopback. */
    method RemoveVip(a: IP4Addr)
      modifies this`vips
      ensures vips == old(vips) - {a}
      ensures IsLoopback(a) <==> IsLoopbackAddr(a)
      ensures forall b :: b != a ==> (IsLoopback(b) <==> old(IsLoopback(b)))
    {
      vips := vips - {a};
    }

    /** `flush_link_cache()`: forwarded to the ARP manager. */
    method FlushLinkCache()
      modifies arp`cache
      ensures arp.cache == map[]
    {
      arp.FlushCache();
    }

    /** `set_link_cache_flush_interval(min)`: forwarded to the ARP manager. */
    method SetLinkCacheFlushInterval(min: int)
      modifies arp`flushInterval
      ensures arp.flushInterval == min
    {
      arp.SetCacheFlushInterval(min);
    }

    /** `set_route_checker(delg)`: installs the ARP proxy policy. */
    method SetRouteChecker(delg: Option<Delegate>)
      modifies arp`proxy
      ensures arp.proxy == delg
    {
      arp.SetProxyPolicy(delg);
    }
  }
}
