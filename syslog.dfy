/**
 * The summary notification: the PRI value and line layout of
 * `format_syslog_message` and the message body of `write_syslog_log`
 * (main.py). The PRI field follows section 4.1.1 of RFC 3164:
 * PRI = facility * 8 + severity. The timestamp, which the source reads from
 * the local clock, and the host name are parameters.
 */
module Syslog {
  import opened Wrappers
  import opened Decimal
  import opened Topology

  /** Facility 1: user-level messages. */
  const UserFacility: nat := 1

  /** Severity names, each at the index that is its code. */
  const SeverityNames: seq<string> :=
    ["emerg", "alert", "crit", "err", "warning", "notice", "info", "debug"]

  const Info: nat := 6

  /** The severity code of a name; an unknown name counts as informational. */
  function SeverityCode(severity: string): (code: nat)
    ensures code < |SeverityNames|
    ensures severity in SeverityNames ==> SeverityNames[code] == severity
    ensures severity !in SeverityNames ==> code == Info
  {
    if severity == "emerg" then 0
    else if severity == "alert" then 1
    else if severity == "crit" then 2
    else if severity == "err" then 3
    else if severity == "warning" then 4
    else if severity == "notice" then 5
    else if severity == "info" then 6
    else if severity == "debug" then 7
    else Info
  }

  /** Every code reads back from its name. */
  lemma SeverityRoundTrip(code: nat)
    requires code < |SeverityNames|
    ensures SeverityCode(SeverityNames[code]) == code
  {
  }

  /** The PRI value: facility and severity can be read back from it. */
  function Pri(severity: string): (pri: nat)
    ensures 8 <= pri < 16
    ensures pri / 8 == UserFacility && pri % 8 == SeverityCode(severity)
  {
    UserFacility * 8 + SeverityCode(severity)
  }

  /**
   * `format_syslog_message`: "<PRI>TIMESTAMP HOST APP: MSG". A collector
   * reads back the PRI, from which the user facility and the severity code
   * follow, and the text after the PRI field.
   */
  function FormatSyslogMessage(hostname: string, appname: string, msg: string,
                               severity: string, timestamp: string): (line: string)
    ensures ReadLine(line) == Some((Pri(severity), timestamp + " " + hostname + " " + appname + ": " + msg))
  {
    var digits := Render(Pri(severity));
    var rest := timestamp + " " + hostname + " " + appname + ": " + msg;
    var line := "<" + digits + ">" + rest;
    FindAfterDigits("<", digits, rest);
    assert line[1..1 + |digits|] == digits;
    assert line[2 + |digits|..] == rest;
    ParseRender(Pri(severity));
    RenderIsCanonical(Pri(severity));
    line
  }

  /** The index of the first `c` in `s` at or after `from`. */
  function Find(s: string, c: char, from: nat): (r: Option<nat>)
    requires from <= |s|
    ensures r.Some? ==> (from <= r.value < |s| && s[r.value] == c
                         && forall i :: from <= i < r.value ==> s[i] != c)
    ensures r.None? ==> forall i :: from <= i < |s| ==> s[i] != c
    decreases |s| - from
  {
    if from == |s| then None
    else if s[from] == c then Some(from)
    else Find(s, c, from + 1)
  }

  /**
   * A collector's reading of a line: the number between the leading '<' and
   * the first '>', written without leading zeros as section 4.1.1 of
   * RFC 3164 requires, and the text after that '>'.
   */
  function ReadLine(line: string): Option<(nat, string)>
  {
    if |line| == 0 || line[0] != '<' then None
    else match Find(line, '>', 1)
      case None => None
      case Some(j) =>
        match Decimal.Parse(line[1..j])
        case None => None
        case Some(pri) => if Canonical(line[1..j]) then Some((pri, line[j + 1..])) else None
  }

  /**
   * A line the collector accepts is determined by what it reads: the PRI,
   * rendered without leading zeros, between '<' and '>', then the text.
   */
  lemma ReadLineUnique(line: string)
    requires ReadLine(line).Some?
    ensures line == "<" + Render(ReadLine(line).value.0) + ">" + ReadLine(line).value.1
  {
    var j := Find(line, '>', 1).value;
    RenderOfValue(line[1..j]);
    assert line == line[..1] + line[1..j] + [line[j]] + line[j + 1..];
  }

  /** A PRI written with a leading zero is not read. */
  lemma LeadingZeroRejected()
    ensures ReadLine("<014>x") == None
    ensures ReadLine("<14>x") == Some((14, "x"))
  {
    assert Find("<014>x", '>', 1) == Some(4);
    assert "<014>x"[1..4] == "014";
    assert Find("<14>x", '>', 1) == Some(3);
    assert "<14>x"[1..3] == "14";
    assert "<14>x"[4..] == "x";
    assert "14"[..1] == "1" && "1"[..0] == "";
    assert Value("1") == 1;
  }

  lemma {:induction false} FindAfterDigits(pre: string, digits: string, rest: string)
    requires AllDigits(digits) && pre == "<"
    ensures Find(pre + digits + ">" + rest, '>', 1) == Some(1 + |digits|)
  {
    var s := pre + digits + ">" + rest;
    var r := Find(s, '>', 1);
    assert s[1 + |digits|] == '>';
    assert forall i :: 1 <= i < 1 + |digits| ==> s[i] == digits[i - 1];
  }

  /** The default "info" severity and any unknown one give PRI 14. */
  lemma InfoPri(severity: string)
    requires severity == "info" || severity !in SeverityNames
    ensures Pri(severity) == 14
  {
  }

  /** The positions of the nodes with at least one open port. */
  function OpenNodes(nodes: seq<Node>): set<nat>
  {
    set k: nat | k < |nodes| && nodes[k].openPortCount > 0
  }

  /** The number of nodes with at least one open port: the hosts a summary counts. */
  function HostCount(nodes: seq<Node>): (n: nat)
    ensures n == |OpenNodes(nodes)|
    ensures n <= |nodes|
  {
    if nodes == [] then
      assert OpenNodes(nodes) == {};
      0
    else
      var init := nodes[..|nodes| - 1];
      var last := |nodes| - 1;
      var step := if nodes[last].openPortCount > 0 then {last} else {};
      assert OpenNodes(nodes) == OpenNodes(init) + step;
      assert OpenNodes(init) !! step;
      HostCount(init) + |step|
  }

  const AppName: string := "topology-mapper"

  const SummaryHead: string := "network_scan_summary hosts="

  function SummaryTail(t: Topology): string
  {
    " scan_time=" + t.scanTime
  }

  /**
   * The summary message of `write_syslog_log`: the host count, in decimal,
   * without leading zeros, sits between a fixed head and the scan time, and
   * reads back as itself.
   */
  function SummaryMessage(t: Topology): (m: string)
    ensures |m| > |SummaryHead| + |SummaryTail(t)|
    ensures m[..|SummaryHead|] == SummaryHead
    ensures m[|m| - |SummaryTail(t)|..] == SummaryTail(t)
    ensures Decimal.Parse(m[|SummaryHead|..|m| - |SummaryTail(t)|]) == Some(HostCount(t.nodes))
    ensures Canonical(m[|SummaryHead|..|m| - |SummaryTail(t)|])
  {
    var count := Render(HostCount(t.nodes));
    var m := SummaryHead + count + SummaryTail(t);
    assert m[|SummaryHead|..|m| - |SummaryTail(t)|] == count;
    ParseRender(HostCount(t.nodes));
    RenderIsCanonical(HostCount(t.nodes));
    m
  }

  /**
   * The line `write_syslog_log` appends to the log file and sends to the
   * collector: it carries PRI 14 (user-level, informational) and the summary.
   */
  function SummaryLine(t: Topology, hostname: string, timestamp: string): (line: string)
    ensures ReadLine(line) == Some((14, timestamp + " " + hostname + " " + AppName + ": " + SummaryMessage(t)))
  {
    FormatSyslogMessage(hostname, AppName, SummaryMessage(t), "info", timestamp)
  }
}
