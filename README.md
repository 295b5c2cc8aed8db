# Topology mapper: a verified model of its core

The topology mapper runs a TCP scan over an IPv4 range. It classifies every
answering host by its open ports as a printer, router, firewall or endpoint.
It links every host in the range that has an open port to the first router
found in the range, which gives a star topology. It then reports a summary
line in the syslog format of RFC 3164.

This project models the part of `main.py` that computes:

- `detect_node_type`: the ordered port rules (module `Classifier`).
- `scan_network`: how nodes are built from the scanner's per-host records
  and how links are built around the main router (modules `Topology` and
  `TopologyLemmas`). It is written as methods with loops, each proved
  equal to a specification function.
- The address and range parsing that `scan_network` depends on (module
  `Ipv4`). This follows the IPv4 rules of Python's `ipaddress` module as of
  Python 3.9.5 (earlier versions also accepted octets with leading zeros):
  - `ip_address`: four dot-separated decimal octets, each of at most three
    ASCII digits, no leading zero, and at most 255.
  - `ip_network(..., strict=False)`: a prefix length, a dotted netmask or a
    dotted hostmask after `/`; no `/` means `/32`; host bits are cleared.
  - Addresses are `bv32`. Membership (`in net`) is
    `address & netmask == network address`.
- `format_syslog_message` and the summary message of `write_syslog_log`
  (module `Syslog`). The PRI value is facility × 8 + severity (section 4.1.1
  of RFC 3164), with facility 1 (user) and unknown severities counted as 6
  (informational).
- Worked examples (module `Scenarios`). The main one is a three-host scan of
  `192.168.1.0/24` carried through the whole pipeline.

Modules `Wrappers` (Option and Result) and `Decimal` (decimal digits, with
their parse/render round trips) are supporting definitions.

The scanner's output, which the source gets from nmap, is a parameter of
type `RawScan`: a sequence of (key, record) pairs in the scanner's order.
A record is `None` when the scanner's value for that key is not a
dictionary. Each port entry has a `state` string and a `portid` that is
`None` when `int()` of it would fail or the key is missing. The scan time is
a parameter as well. A range that is not an IPv4 range becomes
`Failure(InvalidNetwork(cidr))`, matching the `ValueError` that
`ip_network` raises for text that is neither an IPv4 nor an IPv6 range
(IPv6 ranges are under "Left out"). It is only reached when at least one
node was built, because the source parses the range only then.

The code appends every parsed `portid` of an open entry without removing
repeats or checking the sign; the model does the same. Ports keep their
entry order and repetitions (`TopologyLemmas.OpenPortsAppend`), and
`openPortCount` is the length of that list (`TopologyLemmas.OpenPortsLength`).

## Model

| member | source | states |
|---|---|---|
| Classifier.PrinterFirst | main.py:116-121 | the type is printer exactly when one of 9100, 515, 631 is among the ports |
| Classifier.RouterSecond | main.py:123-125 | the type is router exactly when no printer port is present and one of 179, 161, 23 is |
| Classifier.FirewallThird | main.py:127-129 | the type is firewall exactly when no printer or router port is present, one of 514, 443, 80 is, and 22 is |
| Classifier.EndpointOtherwise | main.py:131 | the type is endpoint exactly when none of the three rules fires |
| Classifier.RouterHasPort | main.py:124-125 | a router has at least one port |
| Classifier.DependsOnlyOnSet | main.py:117 | two port lists with the same set of values get the same type: order and repeats do not matter |
| Classifier.DetectIsFirstMatch | main.py:116-131 | the classifier equals an independent first-match evaluation of the rule table printer, router, firewall, with endpoint as the fallback |
| Classifier.FirstMatchIsFirst | main.py:119-129 | in a rule table, the result is the kind of the first rule that matches, and no earlier rule matches |
| Classifier.FirstMatchNone | main.py:131 | when no rule matches, the fallback kind is the result |
| Classifier.Examples | main.py:116-131 | concrete port lists are classified as the rules say, including 80 without 22 being an endpoint and 161 with 22 and 443 being a router |
| Classifier.DetectNodeType | main.py:116-131 | a type other than endpoint is always backed by an open port from one of the three rule sets, and a firewall always has port 22 open |
| Classifier.LabelInjective | main.py:121-131 | the stored type string identifies the type: two types with the same label are the same type |
| Ipv4.ParseAddr | main.py:145-148 | a key is an address exactly when it splits into four accepted octets, and the address's four bytes, most significant first, are those octets |
| Ipv4.ParseOctet | main.py:146 | an octet is accepted exactly when it is a canonical decimal of at most three digits whose value is at most 255, and its value is that number |
| Ipv4.ParseFormat | main.py:145-148 | every address prints as a dotted quad that parses back to the same address |
| Ipv4.FormatParse | main.py:145-148 | every text accepted as an address is the canonical dotted quad of that address |
| Ipv4.ParseAddrInjective | main.py:142-148 | two different keys never parse to the same address |
| Ipv4.MaskInjective | main.py:171 | different prefix lengths have different netmasks |
| Ipv4.PrefixOfMaskExact | main.py:171 | a dotted mask is rejected as a netmask exactly when no prefix length has that netmask |
| Ipv4.ParseCidr | main.py:171 | a parsed range has its host bits cleared |
| Ipv4.NetworkOf | main.py:171 | the range built from an address and a prefix length keeps the prefix length, clears the host bits and contains the address |
| Ipv4.ParseCidrFormat | main.py:171 | the text "address/prefix" parses to the range of that address with that prefix length, whatever the address's host bits |
| Ipv4.Contains | main.py:174 | `in net`: the address masked to the range's prefix length is the range's address; only a range with its host bits cleared contains anything |
| Ipv4.ContainsOwnAddress | main.py:171-174 | a parsed range contains the address written before its `/` |
| Ipv4.ContainsExtremes | main.py:174 | a /0 range contains every address and a /32 range contains only its own address |
| Topology.Nodes | main.py:186-194 | the returned nodes are the built nodes, one for one and in order, without the addresses |
| Topology.CollectOpenPorts | main.py:150-156 | the loop collects the open ports of a host's entries as specified by OpenPorts |
| Topology.BuildNodes | main.py:141-165 | the loop builds one node per kept host, as specified by Probes |
| Topology.FindRouters | main.py:174 | the loop keeps the routers inside the range, in order, as specified by Routers |
| Topology.BuildLinks | main.py:177-184 | the loop links the main router to each other in-range node with an open port, as specified by Spokes |
| Topology.DropAddresses | main.py:186-188 | the loop removes the address field from every node, as specified by Nodes |
| Topology.ScanNetwork | main.py:133-194 | the whole node and link construction equals the specification Scan, including the failure on a range that does not parse |
| TopologyLemmas.OpenPortsExact | main.py:150-156 | a port is listed exactly when some entry is in state "open" and has that port id |
| TopologyLemmas.OpenPortsAppend | main.py:150-156 | open ports are collected entry by entry: the ports of two runs of entries are the ports of the first followed by those of the second, keeping order and repeats |
| TopologyLemmas.OpenPortsSingle | main.py:151-156 | one entry contributes its port id when its state is "open" and the id converts, and nothing otherwise |
| TopologyLemmas.OpenPortsLength | main.py:150-163 | the open-port list is no longer than the entry list, and it is exactly as long as the entry list when every entry is open with a port id, and only then |
| TopologyLemmas.ProbesWellFormed | main.py:158-164 | every node's type is the classification of its ports, and its port count is the length of its port list |
| TopologyLemmas.KeptIndicesExact | main.py:142-148 | the kept positions are exactly the hosts whose record is a dictionary and whose key is an address, each once, in scan order |
| TopologyLemmas.ProbesFromKept | main.py:141-165 | there is one node per kept host, and the k-th node is the one built from the k-th kept host: its key, its address, its open ports, their type and count |
| TopologyLemmas.ProbeSource | main.py:141-165 | every node's id, address and open-port list come from one kept host's key and entries |
| TopologyLemmas.ProbeIds | main.py:142-148 | a node with a given id exists exactly when the scan has a host with that key, a dictionary record and a key that parses as an address |
| TopologyLemmas.ProbeIdsUnique | main.py:141-165 | when the scan's keys are distinct, so are the node ids |
| TopologyLemmas.MainRouterIsFirst | main.py:174-177 | a main router exists exactly when some node is a router inside the range, and it is the first such node |
| TopologyLemmas.NoRouterNoLinks | main.py:177-184 | without a router in the range there are no links |
| TopologyLemmas.HubHasOpenPort | main.py:124-125 | the main router has at least one open port |
| TopologyLemmas.SpokesSound | main.py:179-184 | every link goes from the main router to a node other than the router, with an open port, inside the range |
| TopologyLemmas.SpokesComplete | main.py:179-184 | every node other than the router, with an open port, inside the range, is the target of a link |
| TopologyLemmas.SpokesDistinct | main.py:179-184 | with distinct node ids, no two links have the same target |
| TopologyLemmas.SpokesEndpoints | main.py:179-184 | from a hub with an open port, every link joins two different nodes of the result that both have an open port |
| TopologyLemmas.SpokesPairsDistinct | main.py:179-184 | with distinct node ids, no two links join the same pair of nodes |
| TopologyLemmas.LinksValid | main.py:167-188 | for well-formed nodes with distinct ids, every link joins two different nodes of the result that have an open port, and no pair of nodes is linked twice |
| TopologyLemmas.ScanValid | main.py:133-194 | the scan fails exactly when there are nodes and the range does not parse; on success it keeps the scan time, has as many nodes as kept hosts, its links are valid as in LinksValid, and each port count equals the length of its port list |
| Syslog.SeverityCode | main.py:208-212 | a known severity name maps to its code, an unknown one to 6, and every code is below 8 |
| Syslog.SeverityRoundTrip | main.py:208-212 | every severity code is read back from its name |
| Syslog.Pri | main.py:205-213 | PRI lies in 8..15, and it gives back the user facility (PRI / 8) and the severity code (PRI % 8) |
| Syslog.FormatSyslogMessage | main.py:201-217 | a collector reading the line gets back the PRI, written without leading zeros, and so the facility and severity, and the text "timestamp host app: message" after it |
| Syslog.ReadLineUnique | main.py:217 | a line the collector accepts is exactly "<", the PRI in canonical decimal, ">" and the text read back, so the reading fixes the line |
| Syslog.LeadingZeroRejected | main.py:217 | a PRI with a leading zero ("<014>") is not accepted, while "<14>" is read as 14 |
| Syslog.InfoPri | main.py:201-212 | the default "info" severity, and any unknown one, gives PRI 14 |
| Syslog.HostCount | main.py:228 | the host count is the number of nodes with at least one open port, so at most the number of nodes |
| Syslog.SummaryMessage | main.py:230-233 | the message is the fixed head, the host count in decimal without leading zeros and " scan_time=" with the scan time, and the count reads back from it |
| Syslog.SummaryLine | main.py:224-234 | the summary line reads back with PRI 14 (user-level, informational), written "<14>", and the text "timestamp host topology-mapper: message" |
| Scenarios.ThreeHostLinks | main.py:167-184 | for a router, a firewall and a portless endpoint in one range, the only link is router to firewall |
| Scenarios.ThreeHosts | main.py:133-194 | scanning 192.168.1.0/24 with .1 on ports 23 and 161, .2 on 80 and 22, and .3 with none gives a router, a firewall and an endpoint, and one link from .1 to .2 |

## Left out

- The nmap call and its arguments. The scanner's result is the `RawScan` parameter.
- The clock. The scan time and the syslog timestamp are parameters, and their formats (ISO 8601 with "Z", and "%b %d %H:%M:%S") are not modelled.
- `save_json`, `draw_topology` with `load_icon`, the log-file append and UDP send of `write_syslog_log`, the PostgreSQL table creation and inserts of `store_pg`, `socket.gethostname` (the host name is a parameter), the command-line driver `main`, and the web front end. These are all I/O.
- IPv6. `ip_address` also accepts IPv6 keys, and `ip_network` also accepts IPv6 ranges. The model parses IPv4 only: an IPv6 key is dropped like any key that is not an address. An IPv6 range such as "fe80::/64" makes the source succeed with no links, since no IPv4 node is in it. The model reports `Failure(InvalidNetwork)` for it whenever a node exists.
- A port entry that is not a dictionary makes `p.get` raise `AttributeError`, and a "ports" value that is not a list is not iterated as one. Neither error path is modelled; entries are always records with a state and an optional port id.
- The parsing rules of Python's `int()` on `portid` (whitespace, signs, underscores). The port id is given already as an optional integer.
- The node dictionary's `ip_obj` field is kept beside each node during link building, as the address in `Probe`. It is removed at the end, as in the source.
- The source's `ip_network` also accepts integers, tuples and address objects. Only text ranges are modelled.
