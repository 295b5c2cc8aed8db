/**
 * The node and link building of `scan_network` (main.py): the raw per-host
 * result of the port scan becomes node records, each classified, and a star
 * of links is drawn from the first in-subnet router to every other in-subnet
 * node with an open port.
 *
 * The scan itself and the clock are not part of the model: the scanner's
 * result and the scan time are inputs.
 */
module Topology {
  import opened Wrappers
  import opened Ipv4
  import opened Classifier

  /**
   * One entry of a host's "ports" list: its "state" (a missing state is any
   * string other than "open") and its "portid" as `int()` reads it (`None`
   * when the key is missing or the value is not a number).
   */
  datatype PortEntry = PortEntry(state: string, portid: Option<int>)

  /** A host record that is a dict; a missing "ports" key reads as `[]`. */
  datatype HostRecord = HostRecord(ports: seq<PortEntry>)

  /**
   * The scanner's result in its iteration order: each key with its record,
   * `None` when the value is not a dict (nmap's summary entries, for one).
   */
  type RawScan = seq<(string, Option<HostRecord>)>

  /** A node as it appears in the topology. */
  datatype Node = Node(id: string, kind: NodeType, openPorts: seq<int>, openPortCount: nat)

  /** A node while links are built, with its parsed address (`ip_obj`). */
  datatype Probe = Probe(node: Node, addr: Addr)

  datatype Link = Link(source: string, target: string)

  datatype Topology = Topology(scanTime: string, nodes: seq<Node>, links: seq<Link>)

  /** `ip_network` rejected the scan range. */
  datatype ScanError = InvalidNetwork(cidr: string)

  /** The ports of entries whose state is exactly "open" and whose port id is a number, in order. */
  function OpenPorts(entries: seq<PortEntry>): seq<int>
  {
    if entries == [] then []
    else
      var e := entries[|entries| - 1];
      OpenPorts(entries[..|entries| - 1])
        + (if e.state == "open" && e.portid.Some? then [e.portid.value] else [])
  }

  /** The node built for a kept host. */
  function ProbeOf(key: string, rec: HostRecord, a: Addr): Probe
  {
    var ports := OpenPorts(rec.ports);
    Probe(Node(key, DetectNodeType(ports), ports, |ports|), a)
  }

  /** A host is kept when its record is a dict and its key is an address. */
  predicate Kept(host: (string, Option<HostRecord>))
  {
    host.1.Some? && ParseAddr(host.0).Some?
  }

  /** The nodes of the scan, one per kept host, in scan order. */
  function Probes(raw: RawScan): seq<Probe>
  {
    if raw == [] then []
    else
      var h := raw[|raw| - 1];
      Probes(raw[..|raw| - 1])
        + (if Kept(h) then [ProbeOf(h.0, h.1.value, ParseAddr(h.0).value)] else [])
  }

  predicate IsSubnetRouter(p: Probe, net: Network)
  {
    p.node.kind == Router && Contains(net, p.addr)
  }

  /** The routers inside the scanned network, in node order. */
  function Routers(ps: seq<Probe>, net: Network): seq<Probe>
  {
    if ps == [] then []
    else
      Routers(ps[..|ps| - 1], net)
        + (if IsSubnetRouter(ps[|ps| - 1], net) then [ps[|ps| - 1]] else [])
  }

  /** The hub: the first router inside the scanned network, if any. */
  function MainRouter(ps: seq<Probe>, net: Network): Option<Probe>
  {
    var routers := Routers(ps, net);
    if |routers| > 0 then Some(routers[0]) else None
  }

  /** Whether node `p` gets a link from the hub. */
  predicate IsSpoke(p: Probe, hub: Node, net: Network)
  {
    p.node.openPortCount != 0 && p.node.id != hub.id && Contains(net, p.addr)
  }

  /** The links from `hub` to the spokes among `ps`, in node order. */
  function Spokes(ps: seq<Probe>, hub: Node, net: Network): seq<Link>
  {
    if ps == [] then []
    else
      var p := ps[|ps| - 1];
      Spokes(ps[..|ps| - 1], hub, net)
        + (if IsSpoke(p, hub, net) then [Link(hub.id, p.node.id)] else [])
  }

  function Links(ps: seq<Probe>, net: Network): seq<Link>
  {
    match MainRouter(ps, net)
    case None => []
    case Some(hub) => Spokes(ps, hub.node, net)
  }

  /** The node records without their parsed addresses. */
  function Nodes(ps: seq<Probe>): (nodes: seq<Node>)
    ensures |nodes| == |ps|
    ensures forall k :: 0 <= k < |ps| ==> nodes[k] == ps[k].node
  {
    if ps == [] then [] else Nodes(ps[..|ps| - 1]) + [ps[|ps| - 1].node]
  }

  /**
   * What `scan_network` returns for the scanner's result `raw`: the scan
   * range is parsed only when there is a node, and a range that does not
   * parse is an error.
   */
  function Scan(raw: RawScan, cidr: string, scanTime: string): Result<Topology, ScanError>
  {
    var ps := Probes(raw);
    if ps == [] then Success(Topology(scanTime, [], []))
    else match ParseCidr(cidr)
      case None => Failure(InvalidNetwork(cidr))
      case Some(net) => Success(Topology(scanTime, Nodes(ps), Links(ps, net)))
  }

  /** The spokes of `hub` among `ps`, or none when there is no hub. */
  function SpokesOf(ps: seq<Probe>, hub: Option<Probe>, net: Network): seq<Link>
  {
    match hub
    case None => []
    case Some(h) => Spokes(ps, h.node, net)
  }

  /** The inner loop of `scan_network`: the open ports of one host record. */
  method CollectOpenPorts(entries: seq<PortEntry>) returns (ports: seq<int>)
    ensures ports == OpenPorts(entries)
  {
    ports := [];
    for j := 0 to |entries|
      invariant ports == OpenPorts(entries[..j])
    {
      assert entries[..j + 1][..j] == entries[..j];
      var p := entries[j];
      if p.state == "open" {
        if p.portid.None? {
          continue;
        }
        ports := ports + [p.portid.value];
      }
    }
    assert entries[..|entries|] == entries;
  }

  /** The outer loop of `scan_network`: one node per kept host. */
  method BuildNodes(raw: RawScan) returns (probes: seq<Probe>)
    ensures probes == Probes(raw)
  {
    probes := [];
    for i := 0 to |raw|
      invariant probes == Probes(raw[..i])
    {
      assert raw[..i + 1][..i] == raw[..i];
      var (ip, pdata) := raw[i];
      if pdata.None? {
        continue;
      }
      var ipObj := ParseAddr(ip);
      if ipObj.None? {
        continue;
      }
      var ports := CollectOpenPorts(pdata.value.ports);
      probes := probes + [Probe(Node(ip, DetectNodeType(ports), ports, |ports|), ipObj.value)];
    }
    assert raw[..|raw|] == raw;
  }

  /** The list comprehension of the routers inside the scanned network. */
  method FindRouters(probes: seq<Probe>, net: Network) returns (routers: seq<Probe>)
    ensures routers == Routers(probes, net)
  {
    routers := [];
    for k := 0 to |probes|
      invariant routers == Routers(probes[..k], net)
    {
      assert probes[..k + 1][..k] == probes[..k];
      var n := probes[k];
      if n.node.kind == Router && Contains(net, n.addr) {
        routers := routers + [n];
      }
    }
    assert probes[..|probes|] == probes;
  }

  /** The link loop: one link from the main router to every spoke. */
  method BuildLinks(probes: seq<Probe>, mainRouter: Option<Probe>, net: Network) returns (links: seq<Link>)
    ensures links == SpokesOf(probes, mainRouter, net)
  {
    links := [];
    for k := 0 to |probes|
      invariant links == SpokesOf(probes[..k], mainRouter, net)
    {
      assert probes[..k + 1][..k] == probes[..k];
      var n := probes[k];
      if n.node.openPortCount == 0 {
        continue;
      }
      if mainRouter.Some? && n.node.id != mainRouter.value.node.id && Contains(net, n.addr) {
        links := links + [Link(mainRouter.value.node.id, n.node.id)];
      }
    }
    assert probes[..|probes|] == probes;
  }

  /** The final loop: every node loses its parsed address. */
  method DropAddresses(probes: seq<Probe>) returns (nodes: seq<Node>)
    ensures nodes == Nodes(probes)
  {
    nodes := [];
    for k := 0 to |probes|
      invariant nodes == Nodes(probes[..k])
    {
      assert probes[..k + 1][..k] == probes[..k];
      nodes := nodes + [probes[k].node];
    }
    assert probes[..|probes|] == probes;
  }

  /** `scan_network`, minus the scanner call and the clock read. */
  method ScanNetwork(raw: RawScan, cidr: string, scanTime: string) returns (r: Result<Topology, ScanError>)
    ensures r == Scan(raw, cidr, scanTime)
  {
    var probes := BuildNodes(raw);
    var links: seq<Link> := [];
    if |probes| > 0 {
      var net := ParseCidr(cidr);
      if net.None? {
        return Failure(InvalidNetwork(cidr));
      }
      var routers := FindRouters(probes, net.value);
      var mainRouter := if |routers| > 0 then Some(routers[0]) else None;
      links := BuildLinks(probes, mainRouter, net.value);
    }
    var nodes := DropAddresses(probes);
    r := Success(Topology(scanTime, nodes, links));
  }
}
