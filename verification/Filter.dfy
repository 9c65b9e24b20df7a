/** The ordered address filter, and the rule lists that the command line compiles to. */
module Filter {
  import opened Basics

  /** An IPv6 address is its 128-bit value. */
  type u128 = n: int | 0 <= n < 0x1_0000_0000_0000_0000_0000_0000_0000_0000

  datatype IpAddr = V4(a: u8, b: u8, c: u8, d: u8) | V6(bits: u128)

  datatype SocketAddr = SocketAddr(ip: IpAddr, port: u16)

  datatype PortType = Tcp | Udp | TcpUdp

  /** 127.0.0.0/8 and ::1. */
  predicate IsLoopback(ip: IpAddr) {
    match ip
    case V4(a, _, _, _) => a == 127
    case V6(bits) => bits == 1
  }

  /** Section 3 of RFC 1918; for IPv6 the unique local addresses of section 3 of RFC 4193, fc00::/7. */
  predicate IsPrivate(ip: IpAddr) {
    match ip
    case V4(a, b, _, _) => a == 10 || (a == 172 && 16 <= b <= 31) || (a == 192 && b == 168)
    case V6(bits) => bits / 0x200_0000_0000_0000_0000_0000_0000_0000 == 0x7E
  }

  datatype AddressFilter = All | Address(ip: IpAddr) | Private | Localhost

  datatype PortFilterType = Single(port: u16) | AllPorts

  datatype PortFilter = PortFilter(port: PortFilterType, portType: PortType)

  datatype FilterResult = Exclude | Include

  datatype Rule = Rule(address: AddressFilter, port: PortFilter, result: FilterResult)

  predicate AddressMatches(filter: AddressFilter, addr: SocketAddr) {
    match filter
    case All => true
    case Address(ip) => addr.ip == ip
    case Private => IsPrivate(addr.ip)
    case Localhost => IsLoopback(addr.ip)
  }

  predicate PortMatches(filter: PortFilter, addr: SocketAddr) {
    match filter.port
    case Single(port) => addr.port == port
    case AllPorts => true
  }

  predicate TypeMatches(rule: PortType, queried: PortType) {
    rule.TcpUdp? || (rule == queried)
  }

  predicate Matches(rule: Rule, addr: SocketAddr, portType: PortType) {
    && TypeMatches(rule.port.portType, portType)
    && AddressMatches(rule.address, addr)
    && PortMatches(rule.port, addr)
  }

  /** Rule i has the last word on this address. */
  predicate Decides(rules: seq<Rule>, i: nat, addr: SocketAddr, portType: PortType) {
    && i < |rules|
    && Matches(rules[i], addr, portType)
    && forall j | i < j < |rules| :: !Matches(rules[j], addr, portType)
  }

  /** Allowed means that the last matching rule is an Include; without a matching rule nothing is. */
  predicate Admits(rules: seq<Rule>, addr: SocketAddr, portType: PortType) {
    exists i | 0 <= i < |rules| :: Decides(rules, i, addr, portType) && rules[i].result.Include?
  }

  method AllowedIp(addr: SocketAddr, rules: seq<Rule>, portType: PortType) returns (included: bool)
    ensures included <==> Admits(rules, addr, portType)
    ensures (forall i | 0 <= i < |rules| :: !Matches(rules[i], addr, portType)) ==> !included
  {
    included := false;
    ghost var last: int := -1;
    for k := 0 to |rules|
      invariant -1 <= last < k
      invariant forall j | last < j < k :: !Matches(rules[j], addr, portType)
      invariant last >= 0 ==> Matches(rules[last], addr, portType)
      invariant included <==> last >= 0 && rules[last].result.Include?
    {
      var rule := rules[k];
      if TypeMatches(rule.port.portType, portType) && AddressMatches(rule.address, addr) && PortMatches(rule.port, addr) {
        match rule.result {
          case Exclude => included := false;
          case Include => included := true;
        }
        last := k;
      }
    }
    if last >= 0 {
      assert Decides(rules, last, addr, portType);
    }
  }

  /** At most one rule decides, so the verdict is that rule's. */
  lemma DecidesOnce(rules: seq<Rule>, i: nat, j: nat, addr: SocketAddr, portType: PortType)
    requires Decides(rules, i, addr, portType) && Decides(rules, j, addr, portType)
    ensures i == j
  {
  }

  lemma LastMatch(rules: seq<Rule>, i: nat, addr: SocketAddr, portType: PortType)
    requires i < |rules| && Matches(rules[i], addr, portType)
    ensures exists k | i <= k < |rules| :: Decides(rules, k, addr, portType)
    decreases |rules| - i
  {
    if k :| i < k < |rules| && Matches(rules[k], addr, portType) {
      LastMatch(rules, k, addr, portType);
    } else {
      assert Decides(rules, i, addr, portType);
    }
  }

  /** A list of Includes only admits what any of its rules matches. */
  lemma IncludesAdmit(rules: seq<Rule>, addr: SocketAddr, portType: PortType)
    requires forall rule | rule in rules :: rule.result.Include?
    ensures Admits(rules, addr, portType) <==> exists rule | rule in rules :: Matches(rule, addr, portType)
  {
    if rule :| rule in rules && Matches(rule, addr, portType) {
      var i :| 0 <= i < |rules| && rules[i] == rule;
      LastMatch(rules, i, addr, portType);
    }
  }

  // ---------------------------------------------------------------------------
  // Single rules
  // ---------------------------------------------------------------------------

  /** An IPv4 address as a number. */
  function Value(ip: IpAddr): nat
    requires ip.V4?
  {
    ip.a as int * 0x100_0000 + ip.b as int * 0x1_0000 + ip.c as int * 0x100 + ip.d
  }

  /**
   The address ranges: 127.0.0.0 to 127.255.255.255 and ::1; 10.0.0.0 to 10.255.255.255,
   172.16.0.0 to 172.31.255.255 and 192.168.0.0 to 192.168.255.255; fc00:: to the last
   address before fe00::.
   */
  lemma AddressRanges(ip: IpAddr)
    ensures ip.V4? ==> (IsLoopback(ip) <==> 0x7F00_0000 <= Value(ip) <= 0x7FFF_FFFF)
    ensures ip.V6? ==> (IsLoopback(ip) <==> ip.bits == 1)
    ensures ip.V4? ==> (IsPrivate(ip) <==>
              || 0x0A00_0000 <= Value(ip) <= 0x0AFF_FFFF
              || 0xAC10_0000 <= Value(ip) <= 0xAC1F_FFFF
              || 0xC0A8_0000 <= Value(ip) <= 0xC0A8_FFFF)
    ensures ip.V6? ==> (IsPrivate(ip) <==>
              0xFC00_0000_0000_0000_0000_0000_0000_0000 <= ip.bits < 0xFE00_0000_0000_0000_0000_0000_0000_0000)
  {
  }

  /** Which protocols a rule for one of them, or for both, is about. */
  predicate About(rule: PortType, queried: PortType) {
    match (rule, queried)
    case (Tcp, Tcp) => true
    case (Udp, Udp) => true
    case (TcpUdp, _) => true
    case _ => false
  }

  /** What a list of one rule admits: what an Include is about, and nothing for an Exclude. */
  lemma OneRule(rule: Rule, addr: SocketAddr, portType: PortType)
    ensures Admits([rule], addr, portType) <==>
              && rule.result.Include?
              && (rule.address.Address? ==> addr.ip == rule.address.ip)
              && (rule.address.Private? ==> IsPrivate(addr.ip))
              && (rule.address.Localhost? ==> IsLoopback(addr.ip))
              && (rule.port.port.Single? ==> addr.port == rule.port.port.port)
              && About(rule.port.portType, portType)
  {
    if Matches(rule, addr, portType) {
      assert [rule][0] == rule;
      assert Decides([rule], 0, addr, portType);
    }
  }

  /** The repository's own test: one TCP port of one address is open for TCP and for nothing else. */
  lemma PortTypeIsEnforced(ip: IpAddr, port: u16, addr: SocketAddr, portType: PortType)
    ensures var rules := [Rule(Address(ip), PortFilter(Single(port), Tcp), Include)];
            Admits(rules, addr, portType) <==> addr == SocketAddr(ip, port) && portType == Tcp
  {
    OneRule(Rule(Address(ip), PortFilter(Single(port), Tcp), Include), addr, portType);
  }

  // ---------------------------------------------------------------------------
  // rns-proxy forward
  // ---------------------------------------------------------------------------

  function ForwardRule(port: u16, portType: PortType): Rule {
    Rule(Localhost, PortFilter(Single(port), portType), Include)
  }

  /** The rules for one of the three flags. */
  function ForwardRules(ports: seq<u16>, portType: PortType): seq<Rule> {
    seq(|ports|, i requires 0 <= i < |ports| => ForwardRule(ports[i], portType))
  }

  method CompileForward(tcp: seq<u16>, udp: seq<u16>, both: seq<u16>) returns (rules: seq<Rule>)
    ensures rules == ForwardRules(tcp, Tcp) + ForwardRules(udp, Udp) + ForwardRules(both, TcpUdp)
  {
    rules := [];
    for i := 0 to |tcp|
      invariant rules == ForwardRules(tcp[..i], Tcp)
    {
      rules := rules + [Rule(Localhost, PortFilter(Single(tcp[i]), Tcp), Include)];
    }
    assert tcp[..|tcp|] == tcp;
    for i := 0 to |udp|
      invariant rules == ForwardRules(tcp, Tcp) + ForwardRules(udp[..i], Udp)
    {
      rules := rules + [Rule(Localhost, PortFilter(Single(udp[i]), Udp), Include)];
    }
    assert udp[..|udp|] == udp;
    for i := 0 to |both|
      invariant rules == ForwardRules(tcp, Tcp) + ForwardRules(udp, Udp) + ForwardRules(both[..i], TcpUdp)
    {
      rules := rules + [Rule(Localhost, PortFilter(Single(both[i]), TcpUdp), Include)];
    }
    assert both[..|both|] == both;
  }

  lemma ForwardRulesMatch(ports: seq<u16>, portType: PortType, addr: SocketAddr, queried: PortType)
    ensures (exists rule | rule in ForwardRules(ports, portType) :: Matches(rule, addr, queried)) <==>
            IsLoopback(addr.ip) && addr.port in ports && TypeMatches(portType, queried)
  {
    var rules := ForwardRules(ports, portType);
    if rule :| rule in rules && Matches(rule, addr, queried) {
      var i :| 0 <= i < |rules| && rules[i] == rule;
      assert rule == ForwardRule(ports[i], portType);
    }
    if addr.port in ports {
      var i :| 0 <= i < |ports| && ports[i] == addr.port;
      assert rules[i] == ForwardRule(addr.port, portType);
      assert ForwardRule(addr.port, portType) in rules;
    }
  }

  /**
   The compiled list admits a TCP or UDP socket address exactly when it is a
   loopback address on a port listed for that protocol or for both. Order and
   duplicates do not matter, since only membership does.
   */
  lemma ForwardIsExact(tcp: seq<u16>, udp: seq<u16>, both: seq<u16>, addr: SocketAddr, portType: PortType)
    ensures var rules := ForwardRules(tcp, Tcp) + ForwardRules(udp, Udp) + ForwardRules(both, TcpUdp);
            Admits(rules, addr, portType) <==>
              && IsLoopback(addr.ip)
              && ((portType.Tcp? && addr.port in tcp) || (portType.Udp? && addr.port in udp) || addr.port in both)
  {
    var t, u, b := ForwardRules(tcp, Tcp), ForwardRules(udp, Udp), ForwardRules(both, TcpUdp);
    var rules := t + u + b;
    IncludesAdmit(rules, addr, portType);
    ForwardRulesMatch(tcp, Tcp, addr, portType);
    ForwardRulesMatch(udp, Udp, addr, portType);
    ForwardRulesMatch(both, TcpUdp, addr, portType);
    assert forall rule :: rule in rules <==> rule in t || rule in u || rule in b;
  }

  // ---------------------------------------------------------------------------
  // rns-proxy server
  // ---------------------------------------------------------------------------

  method CompileServer(localhostBlock: bool, privateNetworkBlock: bool) returns (rules: seq<Rule>)
    ensures forall addr: SocketAddr, portType: PortType ::
              Admits(rules, addr, portType) <==>
                !(localhostBlock && IsLoopback(addr.ip)) && !(privateNetworkBlock && IsPrivate(addr.ip))
  {
    var everyPort := PortFilter(AllPorts, TcpUdp);
    rules := [Rule(All, everyPort, Include)];
    if localhostBlock {
      rules := rules + [Rule(Localhost, everyPort, Exclude)];
    }
    if privateNetworkBlock {
      rules := rules + [Rule(Private, everyPort, Exclude)];
    }
    forall addr: SocketAddr, portType: PortType
      ensures Admits(rules, addr, portType) <==>
                !(localhostBlock && IsLoopback(addr.ip)) && !(privateNetworkBlock && IsPrivate(addr.ip))
    {
      FirstIncludeOnly(rules, addr, portType);
      assert localhostBlock ==> rules[1] == Rule(Localhost, everyPort, Exclude);
      assert privateNetworkBlock ==> rules[|rules| - 1] == Rule(Private, everyPort, Exclude);
    }
  }

  /** An Include for everything, overruled by any later Exclude that matches. */
  lemma FirstIncludeOnly(rules: seq<Rule>, addr: SocketAddr, portType: PortType)
    requires rules != [] && rules[0].result.Include? && Matches(rules[0], addr, portType)
    requires forall i | 1 <= i < |rules| :: rules[i].result.Exclude?
    ensures Admits(rules, addr, portType) <==> forall i | 1 <= i < |rules| :: !Matches(rules[i], addr, portType)
  {
    if forall i | 1 <= i < |rules| :: !Matches(rules[i], addr, portType) {
      assert Decides(rules, 0, addr, portType);
    }
  }
}
