/**
 * The node classifier of `detect_node_type` (main.py): a device role from the
 * open ports of a host, by fixed rules tried in order, the first match winning.
 */
module Classifier {

  datatype NodeType = Printer | Router | Firewall | Endpoint

  /** The label the source stores in the node record and the database. */
  function Label(t: NodeType): (s: string)
    ensures |s| > 0
  {
    match t
    case Printer => "printer"
    case Router => "router"
    case Firewall => "firewall"
    case Endpoint => "endpoint"
  }

  /** The stored label identifies the type: no two types share a label. */
  lemma LabelInjective(a: NodeType, b: NodeType)
    requires Label(a) == Label(b)
    ensures a == b
  {
    assert Label(a)[0] == Label(b)[0];
    if a == Firewall || b == Firewall {
      assert Label(a)[1] == Label(b)[1];
    }
  }

  const PrinterPorts: set<int> := {9100, 515, 631}
  const RouterPorts: set<int> := {179, 161, 23}
  const FirewallPorts: set<int> := {514, 443, 80}
  const Ssh: int := 22

  /** Some port of `ports` is one of `probe`. */
  predicate AnyOf(probe: set<int>, ports: seq<int>)
  {
    exists p :: p in probe && p in ports
  }

  /** `detect_node_type(ports)`. */
  function DetectNodeType(ports: seq<int>): (t: NodeType)
    ensures t != Endpoint ==> exists p :: p in ports && p in PrinterPorts + RouterPorts + FirewallPorts
    ensures t == Firewall ==> Ssh in ports
  {
    var pset := set p | p in ports;
    if 9100 in pset || 515 in pset || 631 in pset then Printer
    else if 179 in pset || 161 in pset || 23 in pset then Router
    else if (514 in pset || 443 in pset || 80 in pset) && 22 in pset then Firewall
    else Endpoint
  }

  /** Any printer port makes a printer, whatever else is open. */
  lemma PrinterFirst(ports: seq<int>)
    ensures DetectNodeType(ports) == Printer <==> AnyOf(PrinterPorts, ports)
  {
  }

  /** Without a printer port, any routing or management port makes a router. */
  lemma RouterSecond(ports: seq<int>)
    ensures DetectNodeType(ports) == Router
        <==> !AnyOf(PrinterPorts, ports) && AnyOf(RouterPorts, ports)
  {
  }

  /** A firewall needs SSH together with a web or syslog port, and nothing higher. */
  lemma FirewallThird(ports: seq<int>)
    ensures DetectNodeType(ports) == Firewall
        <==> !AnyOf(PrinterPorts, ports) && !AnyOf(RouterPorts, ports)
             && AnyOf(FirewallPorts, ports) && Ssh in ports
  {
  }

  lemma EndpointOtherwise(ports: seq<int>)
    ensures DetectNodeType(ports) == Endpoint
        <==> !AnyOf(PrinterPorts, ports) && !AnyOf(RouterPorts, ports)
             && !(AnyOf(FirewallPorts, ports) && Ssh in ports)
  {
  }

  /** A router always has an open port, so it can be a link endpoint. */
  lemma RouterHasPort(ports: seq<int>)
    requires DetectNodeType(ports) == Router
    ensures |ports| > 0
  {
  }

  /** Only the set of ports matters: not their order, not repeats. */
  lemma DependsOnlyOnSet(a: seq<int>, b: seq<int>)
    requires forall p :: p in a <==> p in b
    ensures DetectNodeType(a) == DetectNodeType(b)
  {
  }

  /** Concrete port lists and their types. */
  lemma Examples()
    ensures DetectNodeType([9100, 161]) == Printer
    ensures DetectNodeType([22, 443, 161]) == Router
    ensures DetectNodeType([179]) == Router
    ensures DetectNodeType([443, 22]) == Firewall
    ensures DetectNodeType([80, 22]) == Firewall
    ensures DetectNodeType([80]) == Endpoint
    ensures DetectNodeType([443]) == Endpoint
    ensures DetectNodeType([22]) == Endpoint
    ensures DetectNodeType([]) == Endpoint
  {
  }

  /**
   * The same heuristic as data: an ordered rule list, each rule matching when
   * some port of `any` and every port of `all` is open.
   */
  datatype Rule = Rule(any: set<int>, all: set<int>, kind: NodeType)

  const Rules: seq<Rule> := [
    Rule(PrinterPorts, {}, Printer),
    Rule(RouterPorts, {}, Router),
    Rule(FirewallPorts, {Ssh}, Firewall)
  ]

  predicate Matches(r: Rule, pset: set<int>)
  {
    r.any * pset != {} && r.all <= pset
  }

  /** The kind of the first rule that matches, `Endpoint` when none does. */
  function FirstMatch(rules: seq<Rule>, pset: set<int>): (t: NodeType)
    ensures t == Endpoint || exists i :: 0 <= i < |rules| && rules[i].kind == t
  {
    if rules == [] then Endpoint
    else if Matches(rules[0], pset) then rules[0].kind
    else FirstMatch(rules[1..], pset)
  }

  lemma {:induction false} FirstMatchIsFirst(rules: seq<Rule>, pset: set<int>, k: nat)
    requires k < |rules| && Matches(rules[k], pset)
    requires forall j :: 0 <= j < k ==> !Matches(rules[j], pset)
    ensures FirstMatch(rules, pset) == rules[k].kind
  {
    if k > 0 {
      assert !Matches(rules[0], pset);
      FirstMatchIsFirst(rules[1..], pset, k - 1);
    }
  }

  lemma {:induction false} FirstMatchNone(rules: seq<Rule>, pset: set<int>)
    requires forall j :: 0 <= j < |rules| ==> !Matches(rules[j], pset)
    ensures FirstMatch(rules, pset) == Endpoint
  {
    if rules != [] {
      assert !Matches(rules[0], pset);
      FirstMatchNone(rules[1..], pset);
    }
  }

  lemma MatchesAny(probe: set<int>, pset: set<int>, ports: seq<int>)
    requires pset == set p | p in ports
    ensures probe * pset != {} <==> AnyOf(probe, ports)
  {
    if AnyOf(probe, ports) {
      var p :| p in probe && p in ports;
      assert p in probe * pset;
    }
    if !AnyOf(probe, ports) {
      forall p | p in probe ensures p !in pset {
      }
      assert probe * pset == {};
    }
  }

  /** The classifier is exactly the first-match evaluation of the rule list. */
  lemma DetectIsFirstMatch(ports: seq<int>)
    ensures DetectNodeType(ports) == FirstMatch(Rules, set p | p in ports)
  {
    var pset := set p | p in ports;
    MatchesAny(PrinterPorts, pset, ports);
    MatchesAny(RouterPorts, pset, ports);
    MatchesAny(FirewallPorts, pset, ports);
    if Matches(Rules[0], pset) {
      FirstMatchIsFirst(Rules, pset, 0);
    } else if Matches(Rules[1], pset) {
      FirstMatchIsFirst(Rules, pset, 1);
    } else if Matches(Rules[2], pset) {
      FirstMatchIsFirst(Rules, pset, 2);
    } else {
      FirstMatchNone(Rules, pset);
    }
  }
}
