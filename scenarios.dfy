/** Worked examples of the whole pipeline on concrete scanner output. */
module Scenarios {
  import opened Wrappers
  import opened Decimal
  import opened Ipv4
  import opened Classifier
  import opened Topology

  /** A dotted quad reads as the address packed from its four octets. */
  lemma ParseQuadText(o: seq<bv8>, s: string)
    requires |o| == 4 && s == FormatQuad(o)
    ensures ParseAddr(s) == Some(Pack(o))
  {
    ParseFormatQuad(o);
  }

  lemma JoinFour(p0: string, p1: string, p2: string, p3: string)
    ensures Join([p0, p1, p2, p3], '.') == p0 + "." + p1 + "." + p2 + "." + p3
  {
    var ps := [p0, p1, p2, p3];
    assert ps[1..][1..][1..] == [p3];
    assert Join(ps[1..][1..], '.') == p2 + "." + p3;
    assert Join(ps[1..], '.') == p1 + "." + p2 + "." + p3;
  }

  lemma QuadText(a: bv8, b: bv8, c: bv8, d: bv8, s: string)
    requires s == Render(a as int) + "." + Render(b as int) + "." + Render(c as int) + "." + Render(d as int)
    ensures FormatQuad([a, b, c, d]) == s
  {
    JoinFour(Render(a as int), Render(b as int), Render(c as int), Render(d as int));
  }

  function Open(port: int): PortEntry { PortEntry("open", Some(port)) }

  const Host1: string := "192.168.1.1"
  const Host2: string := "192.168.1.2"
  const Host3: string := "192.168.1.3"

  /** Three hosts answering: the first on 23 and 161, the second on 80 and 22, the third on nothing. */
  function ThreeHostScan(h1: string, h2: string, h3: string): RawScan
  {
    [(h1, Some(HostRecord([Open(23), Open(161)]))),
     (h2, Some(HostRecord([Open(80), Open(22)]))),
     (h3, Some(HostRecord([])))]
  }

  /** The nodes the three hosts should yield. */
  function RouterNode(h: string, a: Addr): Probe { Probe(Node(h, Router, [23, 161], 2), a) }
  function FirewallNode(h: string, a: Addr): Probe { Probe(Node(h, Firewall, [80, 22], 2), a) }
  function EndpointNode(h: string, a: Addr): Probe { Probe(Node(h, Endpoint, [], 0), a) }

  function ThreeHostProbes(h1: string, h2: string, h3: string, a1: Addr, a2: Addr, a3: Addr): seq<Probe>
  {
    [RouterNode(h1, a1), FirewallNode(h2, a2), EndpointNode(h3, a3)]
  }

  /** The text 192.168.1.d, for a last octet d written as `last`. */
  lemma HomeHost(d: bv8, last: string, s: string)
    requires Render(d as int) == last && s == "192.168.1." + last
    ensures ParseAddr(s) == Some(Pack([192, 168, 1, d]))
  {
    assert Render(192) == "192" && Render(168) == "168" && Render(1) == "1";
    QuadText(192, 168, 1, d, s);
    ParseQuadText([192, 168, 1, d], s);
  }

  lemma Host1Address()
    ensures ParseAddr(Host1) == Some(0xC0A8_0101)
  {
    assert Render(1) == "1";
    HomeHost(1, "1", Host1);
    assert Pack([192, 168, 1, 1]) == 0xC0A8_0101;
  }

  lemma Host2Address()
    ensures ParseAddr(Host2) == Some(0xC0A8_0102)
  {
    assert Render(2) == "2";
    HomeHost(2, "2", Host2);
    assert Pack([192, 168, 1, 2]) == 0xC0A8_0102;
  }

  lemma Host3Address()
    ensures ParseAddr(Host3) == Some(0xC0A8_0103)
  {
    assert Render(3) == "3";
    HomeHost(3, "3", Host3);
    assert Pack([192, 168, 1, 3]) == 0xC0A8_0103;
  }

  lemma HomeNetworkBytes()
    ensures Unpack(0xC0A8_0100) == [192, 168, 1, 0]
  {
  }

  lemma HomeNetworkRenders()
    ensures Render(192) == "192" && Render(168) == "168" && Render(1) == "1" && Render(0) == "0"
    ensures Render(24) == "24"
  {
  }

  lemma HomeNetworkText()
    ensures FormatAddr(0xC0A8_0100) + "/" + Render(24) == "192.168.1.0/24"
  {
    HomeNetworkBytes();
    HomeNetworkRenders();
    QuadText(192, 168, 1, 0, "192.168.1.0");
  }

  lemma HomeNetworkMasked()
    ensures NetworkOf(0xC0A8_0100, 24) == Network(0xC0A8_0100, 24)
  {
  }

  lemma HomeNetwork()
    ensures ParseCidr("192.168.1.0/24") == Some(Network(0xC0A8_0100, 24))
  {
    HomeNetworkText();
    ParseCidrFormat(0xC0A8_0100, 24);
    HomeNetworkMasked();
  }

  lemma ThreeHostsInNetwork()
    ensures Contains(Network(0xC0A8_0100, 24), 0xC0A8_0101)
    ensures Contains(Network(0xC0A8_0100, 24), 0xC0A8_0102)
    ensures Contains(Network(0xC0A8_0100, 24), 0xC0A8_0103)
  {
  }

  lemma ThreeHostPorts()
    ensures OpenPorts([Open(23), Open(161)]) == [23, 161]
    ensures OpenPorts([Open(80), Open(22)]) == [80, 22]
    ensures OpenPorts([]) == []
    ensures DetectNodeType([23, 161]) == Router
    ensures DetectNodeType([80, 22]) == Firewall
    ensures DetectNodeType([]) == Endpoint
  {
    assert [Open(23), Open(161)][..1] == [Open(23)];
    assert [Open(80), Open(22)][..1] == [Open(80)];
  }

  /** One more host of the scan adds its node, or nothing when it is not kept. */
  lemma ProbesStep(raw: RawScan, n: nat)
    requires n < |raw|
    ensures Probes(raw[..n + 1]) == Probes(raw[..n])
      + (if Kept(raw[n]) then [ProbeOf(raw[n].0, raw[n].1.value, ParseAddr(raw[n].0).value)] else [])
  {
    assert raw[..n + 1][..n] == raw[..n];
  }

  /** A kept host that yields `p` extends the nodes built so far by `p`. */
  lemma ProbesExtend(raw: RawScan, n: nat, built: seq<Probe>, p: Probe)
    requires n < |raw| && Probes(raw[..n]) == built && Kept(raw[n])
    requires ProbeOf(raw[n].0, raw[n].1.value, ParseAddr(raw[n].0).value) == p
    ensures Probes(raw[..n + 1]) == built + [p]
  {
    ProbesStep(raw, n);
  }

  /** The node a kept host yields, given what its ports classify as. */
  lemma HostProbe(key: string, ports: seq<PortEntry>, a: Addr, open: seq<int>, kind: NodeType)
    requires OpenPorts(ports) == open && DetectNodeType(open) == kind
    ensures ProbeOf(key, HostRecord(ports), a) == Probe(Node(key, kind, open, |open|), a)
  {
  }

  /** Each host key parses to its address. */
  predicate ThreeAddresses(h1: string, h2: string, h3: string, a1: Addr, a2: Addr, a3: Addr)
  {
    ParseAddr(h1) == Some(a1) && ParseAddr(h2) == Some(a2) && ParseAddr(h3) == Some(a3)
  }

  /** All three addresses lie in the range. */
  predicate AllInRange(net: Network, a1: Addr, a2: Addr, a3: Addr)
  {
    Contains(net, a1) && Contains(net, a2) && Contains(net, a3)
  }

  lemma ThreeHostFirst(h1: string, h2: string, h3: string, a1: Addr)
    requires ParseAddr(h1) == Some(a1)
    ensures Probes(ThreeHostScan(h1, h2, h3)[..1]) == [RouterNode(h1, a1)]
  {
    var raw := ThreeHostScan(h1, h2, h3);
    assert ProbeOf(h1, HostRecord([Open(23), Open(161)]), a1) == RouterNode(h1, a1) by {
      ThreeHostPorts();
      HostProbe(h1, [Open(23), Open(161)], a1, [23, 161], Router);
    }
    assert Probes(raw[..0]) == [] by { assert raw[..0] == []; }
    ProbesExtend(raw, 0, [], RouterNode(h1, a1));
  }

  lemma ThreeHostSecond(h1: string, h2: string, h3: string, a1: Addr, a2: Addr)
    requires ParseAddr(h1) == Some(a1) && ParseAddr(h2) == Some(a2)
    ensures Probes(ThreeHostScan(h1, h2, h3)[..2]) == [RouterNode(h1, a1), FirewallNode(h2, a2)]
  {
    var raw := ThreeHostScan(h1, h2, h3);
    ThreeHostFirst(h1, h2, h3, a1);
    assert ProbeOf(h2, HostRecord([Open(80), Open(22)]), a2) == FirewallNode(h2, a2) by {
      ThreeHostPorts();
      HostProbe(h2, [Open(80), Open(22)], a2, [80, 22], Firewall);
    }
    ProbesExtend(raw, 1, [RouterNode(h1, a1)], FirewallNode(h2, a2));
  }

  lemma ThreeHostNodes(h1: string, h2: string, h3: string, a1: Addr, a2: Addr, a3: Addr)
    requires ThreeAddresses(h1, h2, h3, a1, a2, a3)
    ensures Probes(ThreeHostScan(h1, h2, h3)) == ThreeHostProbes(h1, h2, h3, a1, a2, a3)
  {
    var raw := ThreeHostScan(h1, h2, h3);
    ThreeHostSecond(h1, h2, h3, a1, a2);
    assert ProbeOf(h3, HostRecord([]), a3) == EndpointNode(h3, a3) by {
      ThreeHostPorts();
      HostProbe(h3, [], a3, [], Endpoint);
    }
    ProbesExtend(raw, 2, [RouterNode(h1, a1), FirewallNode(h2, a2)], EndpointNode(h3, a3));
    assert raw[..3] == raw;
  }

  lemma ThreeHostLinks(h1: string, h2: string, h3: string, a1: Addr, a2: Addr, a3: Addr, net: Network)
    requires h1 != h2 && h1 != h3
    requires AllInRange(net, a1, a2, a3)
    ensures Links(ThreeHostProbes(h1, h2, h3, a1, a2, a3), net) == [Link(h1, h2)]
  {
    var ps := ThreeHostProbes(h1, h2, h3, a1, a2, a3);
    assert ps[..1][..0] == [];
    assert ps[..2][..1] == ps[..1];
    assert ps[..3][..2] == ps[..2] && ps[..3] == ps;
    assert Routers(ps[..1], net) == [ps[0]];
    assert Routers(ps[..2], net) == [ps[0]];
    assert Routers(ps, net) == [ps[0]];
    var hub := ps[0].node;
    assert Spokes(ps[..1], hub, net) == [];
    assert Spokes(ps[..2], hub, net) == [Link(h1, h2)];
  }

  lemma ThreeHostNodeList(h1: string, h2: string, h3: string, a1: Addr, a2: Addr, a3: Addr)
    ensures Nodes(ThreeHostProbes(h1, h2, h3, a1, a2, a3))
         == [Node(h1, Router, [23, 161], 2), Node(h2, Firewall, [80, 22], 2), Node(h3, Endpoint, [], 0)]
  {
    var ps := ThreeHostProbes(h1, h2, h3, a1, a2, a3);
    assert Nodes(ps) == [ps[0].node, ps[1].node, ps[2].node];
  }

  lemma ThreeHostsIn(h1: string, h2: string, h3: string, a1: Addr, a2: Addr, a3: Addr,
                     cidr: string, net: Network, scanTime: string)
    requires ThreeAddresses(h1, h2, h3, a1, a2, a3) && h1 != h2 && h1 != h3
    requires ParseCidr(cidr) == Some(net) && AllInRange(net, a1, a2, a3)
    ensures Scan(ThreeHostScan(h1, h2, h3), cidr, scanTime)
         == Success(Topology(scanTime,
              [Node(h1, Router, [23, 161], 2), Node(h2, Firewall, [80, 22], 2), Node(h3, Endpoint, [], 0)],
              [Link(h1, h2)]))
  {
    var ps := ThreeHostProbes(h1, h2, h3, a1, a2, a3);
    ThreeHostNodes(h1, h2, h3, a1, a2, a3);
    ScanOf(ThreeHostScan(h1, h2, h3), cidr, scanTime, ps, net);
    ThreeHostLinks(h1, h2, h3, a1, a2, a3, net);
    ThreeHostNodeList(h1, h2, h3, a1, a2, a3);
  }

  /** A scan with nodes over a range that parses yields those nodes and their links. */
  lemma ScanOf(raw: RawScan, cidr: string, scanTime: string, ps: seq<Probe>, net: Network)
    requires Probes(raw) == ps && ps != [] && ParseCidr(cidr) == Some(net)
    ensures Scan(raw, cidr, scanTime) == Success(Topology(scanTime, Nodes(ps), Links(ps, net)))
  {
  }

  /**
   * Range 192.168.1.0/24; .1 answers on 23 and 161, .2 on 80 and 22, .3 on
   * nothing: .1 is a router and the hub, .2 a firewall linked to it, .3 an
   * endpoint that is listed but not linked.
   */
  lemma ThreeHosts(scanTime: string)
    ensures Scan(ThreeHostScan(Host1, Host2, Host3), "192.168.1.0/24", scanTime)
         == Success(Topology(scanTime,
              [Node(Host1, Router, [23, 161], 2),
               Node(Host2, Firewall, [80, 22], 2),
               Node(Host3, Endpoint, [], 0)],
              [Link(Host1, Host2)]))
  {
    Host1Address();
    Host2Address();
    Host3Address();
    HomeNetwork();
    ThreeHostsInNetwork();
    ThreeHostsIn(Host1, Host2, Host3, 0xC0A8_0101, 0xC0A8_0102, 0xC0A8_0103,
                 "192.168.1.0/24", Network(0xC0A8_0100, 24), scanTime);
  }
}
