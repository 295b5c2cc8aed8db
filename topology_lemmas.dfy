/**
 * What `scan_network` promises about the topology it builds: node records
 * agree with their ports, one node per kept host, and the links form a star
 * around the first in-subnet router with no self-links, no repeats and no
 * endpoint without an open port.
 */
module TopologyLemmas {
  import opened Wrappers
  import opened Ipv4
  import opened Classifier
  import opened Topology

  // ---------------------------------------------------------------- nodes

  /** A port is kept exactly when some entry is open with that numeric port id. */
  lemma {:induction false} OpenPortsExact(entries: seq<PortEntry>, x: int)
    ensures x in OpenPorts(entries)
        <==> exists e :: e in entries && e.state == "open" && e.portid == Some(x)
  {
    if entries != [] {
      var init := entries[..|entries| - 1];
      OpenPortsExact(init, x);
      assert entries == init + [entries[|entries| - 1]];
    }
  }

  /** Bad and closed entries are dropped one at a time, never anything more. */
  lemma {:induction false} OpenPortsLength(entries: seq<PortEntry>)
    ensures |OpenPorts(entries)| <= |entries|
    ensures |OpenPorts(entries)| == |entries|
        <==> forall e :: e in entries ==> e.state == "open" && e.portid.Some?
  {
    if entries != [] {
      var init := entries[..|entries| - 1];
      OpenPortsLength(init);
      assert entries == init + [entries[|entries| - 1]];
    }
  }

  /** Open ports are collected entry by entry, keeping order and repeats. */
  lemma {:induction false} OpenPortsAppend(a: seq<PortEntry>, b: seq<PortEntry>)
    ensures OpenPorts(a + b) == OpenPorts(a) + OpenPorts(b)
  {
    if b == [] {
      assert a + b == a;
    } else {
      var init := b[..|b| - 1];
      OpenPortsAppend(a, init);
      assert (a + b)[..|a + b| - 1] == a + init;
      assert (a + b)[|a + b| - 1] == b[|b| - 1];
    }
  }

  /** A single entry adds its port id when it is open and has one, and nothing otherwise. */
  lemma OpenPortsSingle(e: PortEntry)
    ensures OpenPorts([e]) == (if e.state == "open" && e.portid.Some? then [e.portid.value] else [])
  {
    assert [e][..0] == [];
  }

  /** The positions of the kept hosts, in scan order. */
  function KeptIndices(raw: RawScan): seq<nat>
  {
    if raw == [] then []
    else KeptIndices(raw[..|raw| - 1]) + (if Kept(raw[|raw| - 1]) then [|raw| - 1] else [])
  }

  /** Every listed position holds a kept host. */
  lemma {:induction false} KeptIndicesKept(raw: RawScan)
    ensures forall j :: 0 <= j < |KeptIndices(raw)| ==>
      KeptIndices(raw)[j] < |raw| && Kept(raw[KeptIndices(raw)[j]])
  {
    if raw != [] {
      var init := raw[..|raw| - 1];
      var ix, ix0 := KeptIndices(raw), KeptIndices(init);
      KeptIndicesKept(init);
      assert forall j :: 0 <= j < |ix0| ==> ix[j] == ix0[j] && raw[ix0[j]] == init[ix0[j]];
    }
  }

  /** The positions are listed in increasing order, so each once. */
  lemma {:induction false} KeptIndicesIncreasing(raw: RawScan)
    ensures forall j :: 0 <= j < |KeptIndices(raw)| ==> KeptIndices(raw)[j] < |raw|
    ensures forall a, b :: 0 <= a < b < |KeptIndices(raw)| ==> KeptIndices(raw)[a] < KeptIndices(raw)[b]
  {
    if raw != [] {
      var init := raw[..|raw| - 1];
      var ix, ix0 := KeptIndices(raw), KeptIndices(init);
      KeptIndicesIncreasing(init);
      assert forall j :: 0 <= j < |ix0| ==> ix[j] == ix0[j];
    }
  }

  /** Every kept host's position is listed. */
  lemma {:induction false} KeptIndicesComplete(raw: RawScan)
    ensures forall i :: 0 <= i < |raw| && Kept(raw[i]) ==> i in KeptIndices(raw)
  {
    if raw != [] {
      var init := raw[..|raw| - 1];
      KeptIndicesComplete(init);
      assert forall i :: 0 <= i < |init| ==> raw[i] == init[i];
    }
  }

  /** The kept positions are exactly the kept hosts, each once, in increasing order. */
  lemma KeptIndicesExact(raw: RawScan)
    ensures forall j :: 0 <= j < |KeptIndices(raw)| ==>
      KeptIndices(raw)[j] < |raw| && Kept(raw[KeptIndices(raw)[j]])
    ensures forall a, b :: 0 <= a < b < |KeptIndices(raw)| ==> KeptIndices(raw)[a] < KeptIndices(raw)[b]
    ensures forall i :: 0 <= i < |raw| && Kept(raw[i]) ==> i in KeptIndices(raw)
  {
    KeptIndicesKept(raw);
    KeptIndicesIncreasing(raw);
    KeptIndicesComplete(raw);
  }

  /** The node built from the host at position `i` of the scan. */
  function ProbeAt(raw: RawScan, i: nat): Probe
    requires i < |raw| && Kept(raw[i])
  {
    ProbeOf(raw[i].0, raw[i].1.value, ParseAddr(raw[i].0).value)
  }

  /**
   * The k-th node is built from the k-th kept host: its id is that host's
   * key, its address the key's address, its ports that host's open entries.
   */
  lemma {:induction false} ProbesFromKept(raw: RawScan)
    ensures |Probes(raw)| == |KeptIndices(raw)|
    ensures forall k :: 0 <= k < |Probes(raw)| ==>
      KeptIndices(raw)[k] < |raw| && Kept(raw[KeptIndices(raw)[k]])
      && Probes(raw)[k] == ProbeAt(raw, KeptIndices(raw)[k])
  {
    KeptIndicesKept(raw);
    if raw != [] {
      var init := raw[..|raw| - 1];
      ProbesFromKept(init);
      var ps, ps0 := Probes(raw), Probes(init);
      var ix, ix0 := KeptIndices(raw), KeptIndices(init);
      forall k | 0 <= k < |ps| ensures ps[k] == ProbeAt(raw, ix[k]) {
        if k < |ps0| {
          assert ps[k] == ps0[k] && ix[k] == ix0[k];
          assert raw[ix0[k]] == init[ix0[k]];
        }
      }
    }
  }

  /** Spelled out: the node's id, address and ports come from its own host record. */
  lemma ProbeSource(raw: RawScan, k: nat)
    requires k < |Probes(raw)|
    ensures exists i :: (0 <= i < |raw| && Kept(raw[i])
      && Probes(raw)[k].node.id == raw[i].0
      && Probes(raw)[k].addr == ParseAddr(raw[i].0).value
      && Probes(raw)[k].node.openPorts == OpenPorts(raw[i].1.value.ports))
  {
    ProbesFromKept(raw);
    var i := KeptIndices(raw)[k];
    assert Probes(raw)[k] == ProbeAt(raw, i);
  }

  /** A node agrees with its ports and with the key it was built from. */
  predicate WellFormed(p: Probe)
  {
    p.node.openPortCount == |p.node.openPorts|
    && p.node.kind == DetectNodeType(p.node.openPorts)
    && ParseAddr(p.node.id) == Some(p.addr)
  }

  predicate AllWellFormed(ps: seq<Probe>)
  {
    forall k :: 0 <= k < |ps| ==> WellFormed(ps[k])
  }

  predicate UniqueIds(ps: seq<Probe>)
  {
    forall a, b :: 0 <= a < b < |ps| ==> ps[a].node.id != ps[b].node.id
  }

  /** The keys of a dict are distinct. */
  predicate DistinctKeys(raw: RawScan)
  {
    forall a, b :: 0 <= a < b < |raw| ==> raw[a].0 != raw[b].0
  }

  lemma {:induction false} ProbesWellFormed(raw: RawScan)
    ensures AllWellFormed(Probes(raw))
  {
    if raw != [] {
      ProbesWellFormed(raw[..|raw| - 1]);
    }
  }

  predicate NamesNode(ps: seq<Probe>, key: string)
  {
    exists k :: 0 <= k < |ps| && ps[k].node.id == key
  }

  predicate KeepsKey(raw: RawScan, key: string)
  {
    exists i :: 0 <= i < |raw| && raw[i].0 == key && Kept(raw[i])
  }

  /** Every node's id is the key of a kept host. */
  lemma {:induction false} ProbeIdsSound(raw: RawScan, key: string)
    ensures NamesNode(Probes(raw), key) ==> KeepsKey(raw, key)
  {
    if raw != [] && NamesNode(Probes(raw), key) {
      var init := raw[..|raw| - 1];
      var ps, ps0 := Probes(raw), Probes(init);
      var k :| 0 <= k < |ps| && ps[k].node.id == key;
      if k < |ps0| {
        assert ps0[k] == ps[k];
        ProbeIdsSound(init, key);
        var i :| 0 <= i < |init| && init[i].0 == key && Kept(init[i]);
        assert raw[i] == init[i];
      } else {
        assert raw[|raw| - 1].0 == key && Kept(raw[|raw| - 1]);
      }
    }
  }

  /** Every kept host's key names a node. */
  lemma {:induction false} ProbeIdsComplete(raw: RawScan, key: string)
    ensures KeepsKey(raw, key) ==> NamesNode(Probes(raw), key)
  {
    if raw != [] && KeepsKey(raw, key) {
      var init := raw[..|raw| - 1];
      var ps, ps0 := Probes(raw), Probes(init);
      var i :| 0 <= i < |raw| && raw[i].0 == key && Kept(raw[i]);
      if i == |raw| - 1 {
        assert ps[|ps| - 1].node.id == key;
      } else {
        assert init[i] == raw[i];
        ProbeIdsComplete(init, key);
        var k :| 0 <= k < |ps0| && ps0[k].node.id == key;
        assert ps[k] == ps0[k];
      }
    }
  }

  /** A key names a node exactly when its host is kept. */
  lemma ProbeIds(raw: RawScan, key: string)
    ensures NamesNode(Probes(raw), key) <==> KeepsKey(raw, key)
  {
    ProbeIdsSound(raw, key);
    ProbeIdsComplete(raw, key);
  }

  /** With distinct keys, distinct hosts give distinct nodes: one node per kept host. */
  lemma {:induction false} ProbeIdsUnique(raw: RawScan)
    requires DistinctKeys(raw)
    ensures UniqueIds(Probes(raw))
  {
    if raw != [] {
      var init := raw[..|raw| - 1];
      var last := raw[|raw| - 1];
      var ps, ps0 := Probes(raw), Probes(init);
      ProbeIdsUnique(init);
      if Kept(last) {
        forall k | 0 <= k < |ps0| ensures ps0[k].node.id != last.0 {
          ProbeIds(init, ps0[k].node.id);
          assert NamesNode(ps0, ps0[k].node.id);
        }
        assert forall k :: 0 <= k < |ps0| ==> ps[k] == ps0[k];
      }
    }
  }

  // ----------------------------------------------------------------- hub

  /**
   * The hub is the first router inside the network: it exists exactly when
   * some node is such a router, and no earlier node is one.
   */
  lemma {:induction false} MainRouterIsFirst(ps: seq<Probe>, net: Network)
    ensures MainRouter(ps, net).Some? <==> exists k :: 0 <= k < |ps| && IsSubnetRouter(ps[k], net)
    ensures MainRouter(ps, net).Some? ==>
      exists k :: 0 <= k < |ps| && ps[k] == MainRouter(ps, net).value && IsSubnetRouter(ps[k], net)
        && forall j :: 0 <= j < k ==> !IsSubnetRouter(ps[j], net)
  {
    if ps != [] {
      var init := ps[..|ps| - 1];
      MainRouterIsFirst(init, net);
      assert forall k :: 0 <= k < |init| ==> ps[k] == init[k];
      if MainRouter(init, net).Some? {
        assert Routers(ps, net)[0] == Routers(init, net)[0];
      }
    }
  }

  /** Without a router inside the network there are no links at all. */
  lemma NoRouterNoLinks(ps: seq<Probe>, net: Network)
    requires forall k :: 0 <= k < |ps| ==> !IsSubnetRouter(ps[k], net)
    ensures Links(ps, net) == []
  {
    MainRouterIsFirst(ps, net);
  }

  /** The hub has an open port of its own, since every router has one. */
  lemma HubHasOpenPort(ps: seq<Probe>, net: Network)
    requires AllWellFormed(ps) && MainRouter(ps, net).Some?
    ensures MainRouter(ps, net).value.node.openPortCount > 0
  {
    MainRouterIsFirst(ps, net);
    var h := MainRouter(ps, net).value;
    RouterHasPort(h.node.openPorts);
  }

  // --------------------------------------------------------------- spokes

  /** Every link goes from the hub to a node that qualifies as a spoke. */
  lemma {:induction false} SpokesSound(ps: seq<Probe>, hub: Node, net: Network)
    ensures forall l :: l in Spokes(ps, hub, net) ==>
      l.source == hub.id && exists k :: 0 <= k < |ps| && ps[k].node.id == l.target && IsSpoke(ps[k], hub, net)
  {
    if ps != [] {
      var init := ps[..|ps| - 1];
      SpokesSound(init, hub, net);
      assert forall k :: 0 <= k < |init| ==> ps[k] == init[k];
    }
  }

  /** Every node that qualifies as a spoke gets its link. */
  lemma {:induction false} SpokesComplete(ps: seq<Probe>, hub: Node, net: Network)
    ensures forall k :: 0 <= k < |ps| && IsSpoke(ps[k], hub, net) ==>
      Link(hub.id, ps[k].node.id) in Spokes(ps, hub, net)
  {
    if ps != [] {
      var init := ps[..|ps| - 1];
      SpokesComplete(init, hub, net);
      assert forall k :: 0 <= k < |init| ==> ps[k] == init[k];
    }
  }

  /** With distinct node ids no node is the target of two links. */
  lemma {:induction false} SpokesDistinct(ps: seq<Probe>, hub: Node, net: Network)
    requires UniqueIds(ps)
    ensures forall a, b :: 0 <= a < b < |Spokes(ps, hub, net)| ==>
      Spokes(ps, hub, net)[a].target != Spokes(ps, hub, net)[b].target
  {
    if ps != [] {
      var init := ps[..|ps| - 1];
      var p := ps[|ps| - 1];
      var ls, ls0 := Spokes(ps, hub, net), Spokes(init, hub, net);
      assert forall k :: 0 <= k < |init| ==> ps[k] == init[k];
      SpokesDistinct(init, hub, net);
      if IsSpoke(p, hub, net) {
        SpokesSound(init, hub, net);
        forall a | 0 <= a < |ls0| ensures ls0[a].target != p.node.id {
          assert ls0[a] in ls0;
        }
        assert forall a :: 0 <= a < |ls0| ==> ls[a] == ls0[a];
      }
    }
  }

  // ------------------------------------------------------------ topology

  predicate HasNode(nodes: seq<Node>, id: string)
  {
    exists k :: 0 <= k < |nodes| && nodes[k].id == id && nodes[k].openPortCount > 0
  }

  /**
   * The invariant of every topology: each link joins two different nodes
   * that both have an open port, and no unordered pair is linked twice.
   */
  predicate ValidTopology(t: Topology)
  {
    (forall l :: l in t.links ==>
      l.source != l.target && HasNode(t.nodes, l.source) && HasNode(t.nodes, l.target))
    && (forall a, b :: 0 <= a < b < |t.links| ==>
      {t.links[a].source, t.links[a].target} != {t.links[b].source, t.links[b].target})
  }

  /** Links from a hub with an open port go to different nodes with open ports. */
  lemma SpokesEndpoints(ps: seq<Probe>, hk: nat, net: Network)
    requires hk < |ps| && ps[hk].node.openPortCount > 0
    ensures forall l :: l in Spokes(ps, ps[hk].node, net) ==>
      l.source != l.target && HasNode(Nodes(ps), l.source) && HasNode(Nodes(ps), l.target)
  {
    var hub := ps[hk].node;
    var ls := Spokes(ps, hub, net);
    SpokesSound(ps, hub, net);
    assert HasNode(Nodes(ps), hub.id) by { assert Nodes(ps)[hk] == hub; }
    forall l | l in ls ensures HasNode(Nodes(ps), l.target) {
      var k :| 0 <= k < |ps| && ps[k].node.id == l.target && IsSpoke(ps[k], hub, net);
      assert Nodes(ps)[k] == ps[k].node;
    }
  }

  /** No unordered pair is linked twice. */
  lemma SpokesPairsDistinct(ps: seq<Probe>, hub: Node, net: Network)
    requires UniqueIds(ps)
    ensures forall a, b :: 0 <= a < b < |Spokes(ps, hub, net)| ==>
      {Spokes(ps, hub, net)[a].source, Spokes(ps, hub, net)[a].target}
        != {Spokes(ps, hub, net)[b].source, Spokes(ps, hub, net)[b].target}
  {
    var ls := Spokes(ps, hub, net);
    SpokesSound(ps, hub, net);
    SpokesDistinct(ps, hub, net);
    forall a, b | 0 <= a < b < |ls|
      ensures {ls[a].source, ls[a].target} != {ls[b].source, ls[b].target}
    {
      assert ls[a] in ls && ls[b] in ls;
      assert ls[a].target in {ls[a].source, ls[a].target};
    }
  }

  lemma LinksValid(ps: seq<Probe>, net: Network)
    requires AllWellFormed(ps) && UniqueIds(ps)
    ensures ValidTopology(Topology("", Nodes(ps), Links(ps, net)))
  {
    match MainRouter(ps, net)
    case None =>
    case Some(h) =>
      MainRouterIsFirst(ps, net);
      HubHasOpenPort(ps, net);
      var hk :| 0 <= hk < |ps| && ps[hk] == h;
      SpokesEndpoints(ps, hk, net);
      SpokesPairsDistinct(ps, h.node, net);
  }

  /**
   * `scan_network` fails only when there is a node and the range does not
   * parse; otherwise its nodes are well formed, one per kept host, and its
   * links satisfy the topology invariant.
   */
  lemma ScanValid(raw: RawScan, cidr: string, scanTime: string)
    requires DistinctKeys(raw)
    ensures Scan(raw, cidr, scanTime).Failure? <==> Probes(raw) != [] && ParseCidr(cidr).None?
    ensures Scan(raw, cidr, scanTime).Success? ==>
      var t := Scan(raw, cidr, scanTime).value;
      t.scanTime == scanTime && |t.nodes| == |Probes(raw)| && ValidTopology(t)
      && forall k :: 0 <= k < |t.nodes| ==> t.nodes[k].openPortCount == |t.nodes[k].openPorts|
  {
    var ps := Probes(raw);
    ProbesWellFormed(raw);
    ProbeIdsUnique(raw);
    if ps != [] && ParseCidr(cidr).Some? {
      LinksValid(ps, ParseCidr(cidr).value);
    }
  }
}
