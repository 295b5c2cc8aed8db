/**
 * IPv4 addresses and networks as the mapper uses them through Python's
 * `ipaddress` module: `ip_address(key)` turns an nmap host key into an address
 * object, `ip_network(cidr, strict=False)` turns the scan range into a
 * network, and `addr in net` tests membership by masking.
 */
module Ipv4 {
  import opened Wrappers
  import opened Decimal

  /** An IPv4 address is its 32-bit integer value. */
  type Addr = bv32

  type Octet = x: int | 0 <= x < 256

  /** `s.split(sep)`: the pieces between separators, empty pieces kept. */
  function Split(s: string, sep: char): (parts: seq<string>)
    ensures |parts| > 0
    ensures forall i :: 0 <= i < |parts| ==> sep !in parts[i]
    decreases |s|
  {
    if s == [] then [[]]
    else
      var rest := Split(s[1..], sep);
      if s[0] == sep then [[]] + rest else [[s[0]] + rest[0]] + rest[1..]
  }

  /** `sep.join(parts)`. */
  function Join(parts: seq<string>, sep: char): string
    requires |parts| > 0
  {
    if |parts| == 1 then parts[0] else parts[0] + [sep] + Join(parts[1..], sep)
  }

  lemma {:induction false} SplitNoSep(s: string, sep: char)
    requires sep !in s
    ensures Split(s, sep) == [s]
    decreases |s|
  {
    if s != [] {
      SplitNoSep(s[1..], sep);
      assert [s[0]] + s[1..] == s;
    }
  }

  lemma {:induction false} SplitCons(p: string, sep: char, rest: string)
    requires sep !in p
    ensures Split(p + [sep] + rest, sep) == [p] + Split(rest, sep)
    decreases |p|
  {
    if p == [] {
      assert p + [sep] + rest == [sep] + rest;
      assert ([sep] + rest)[1..] == rest;
    } else {
      var s := p + [sep] + rest;
      assert s[1..] == p[1..] + [sep] + rest;
      SplitCons(p[1..], sep, rest);
      assert [p[0]] + p[1..] == p;
    }
  }

  /** Splitting a join of separator-free pieces gives the pieces back. */
  lemma {:induction false} SplitJoin(parts: seq<string>, sep: char)
    requires |parts| > 0
    requires forall i :: 0 <= i < |parts| ==> sep !in parts[i]
    ensures Split(Join(parts, sep), sep) == parts
    decreases |parts|
  {
    if |parts| == 1 {
      SplitNoSep(parts[0], sep);
    } else {
      SplitJoin(parts[1..], sep);
      SplitCons(parts[0], sep, Join(parts[1..], sep));
      assert [parts[0]] + parts[1..] == parts;
    }
  }

  /** Prepending a character to the first piece prepends it to the join. */
  lemma JoinConsHead(c: char, rest: seq<string>, sep: char)
    requires |rest| > 0
    ensures Join([[c] + rest[0]] + rest[1..], sep) == [c] + Join(rest, sep)
  {
    var parts := [[c] + rest[0]] + rest[1..];
    if |rest| > 1 {
      assert parts[1..] == rest[1..];
    }
  }

  /** Joining the pieces of a split gives the string back. */
  lemma {:induction false} JoinSplit(s: string, sep: char)
    ensures Join(Split(s, sep), sep) == s
    decreases |s|
  {
    if s != [] {
      JoinSplit(s[1..], sep);
      var rest := Split(s[1..], sep);
      if s[0] == sep {
        assert Join([[]] + rest, sep) == [] + [sep] + Join(rest, sep);
      } else {
        JoinConsHead(s[0], rest, sep);
      }
      assert [s[0]] + s[1..] == s;
    }
  }

  /**
   * One dotted-quad octet as `ipaddress` reads it: ASCII digits only, at most
   * three of them, no leading zero (except "0"), and a value of at most 255.
   */
  function ParseOctet(s: string): (r: Option<bv8>)
    ensures r.Some? <==> Canonical(s) && |s| <= 3 && Value(s) <= 255
    ensures r.Some? ==> r.value as int == Value(s)
  {
    if |s| == 0 || !AllDigits(s) || |s| > 3 || (s != "0" && s[0] == '0') then None
    else if Value(s) > 255 then None
    else Some(ToOctet(Value(s)))
  }

  /** The octet whose value is `n`, built one bit at a time. */
  function ToOctet(n: nat): (o: bv8)
    requires n <= 255
    ensures o as int == n
  {
    if n == 0 then 0
    else
      var low: bv8 := if n % 2 == 1 then 1 else 0;
      var high := ToOctet(n / 2);
      ShiftIn(high, low);
      (high << 1) | low
  }

  lemma ShiftIn(high: bv8, low: bv8)
    requires high as int < 128 && low as int < 2
    ensures ((high << 1) | low) as int == 2 * (high as int) + low as int
  {
  }

  lemma OctetValueInjective(x: bv8, y: bv8)
    requires x as int == y as int
    ensures x == y
  {
  }

  /** The address whose four bytes, most significant first, are `o`. */
  function Pack(o: seq<bv8>): Addr
    requires |o| == 4
  {
    ((o[0] as bv32) << 24) | ((o[1] as bv32) << 16) | ((o[2] as bv32) << 8) | (o[3] as bv32)
  }

  /** The four bytes of an address, most significant first. */
  function Unpack(a: Addr): (o: seq<bv8>)
    ensures |o| == 4
  {
    [(a >> 24) as bv8, ((a >> 16) & 0xFF) as bv8, ((a >> 8) & 0xFF) as bv8, (a & 0xFF) as bv8]
  }

  lemma PackUnpack(a: Addr)
    ensures Pack(Unpack(a)) == a
  {
  }

  lemma UnpackPack(o: seq<bv8>)
    requires |o| == 4
    ensures Unpack(Pack(o)) == o
  {
  }

  /** The four octets of a dotted-quad string, each accepted by `ParseOctet`. */
  function ParseQuad(s: string): (r: Option<seq<bv8>>)
    ensures r.Some? ==> |r.value| == 4
  {
    var parts := Split(s, '.');
    if |parts| != 4 then None
    else
      var o := [ParseOctet(parts[0]), ParseOctet(parts[1]), ParseOctet(parts[2]), ParseOctet(parts[3])];
      if o[0].Some? && o[1].Some? && o[2].Some? && o[3].Some?
      then Some([o[0].value, o[1].value, o[2].value, o[3].value])
      else None
  }

  /** Four octets in dotted-decimal form. */
  function FormatQuad(o: seq<bv8>): string
    requires |o| == 4
  {
    Join([Render(o[0] as int), Render(o[1] as int), Render(o[2] as int), Render(o[3] as int)], '.')
  }

  /**
   * `ipaddress.ip_address(s)` for an IPv4 string: exactly four dot-separated
   * octets, each accepted by `ParseOctet`; anything else is a `ValueError`.
   */
  function ParseAddr(s: string): (r: Option<Addr>)
    ensures r.Some? <==> ParseQuad(s).Some?
    ensures r.Some? ==> Unpack(r.value) == ParseQuad(s).value
  {
    match ParseQuad(s)
    case None => None
    case Some(o) =>
      UnpackPack(o);
      Some(Pack(o))
  }

  /** `str(addr)`: the dotted-decimal form. */
  function FormatAddr(a: Addr): string
  {
    FormatQuad(Unpack(a))
  }

  lemma RenderHasNoSeparator(n: nat, sep: char)
    requires !IsDigit(sep)
    ensures sep !in Render(n)
  {
  }

  lemma ParseRenderedOctet(o: bv8)
    ensures ParseOctet(Render(o as int)) == Some(o)
  {
    ValueOfRender(o as int);
    RenderIsCanonical(o as int);
    RenderLength(o as int);
    OctetValueInjective(ToOctet(o as int), o);
  }

  lemma {:induction false} ParseFormatQuad(o: seq<bv8>)
    requires |o| == 4
    ensures ParseQuad(FormatQuad(o)) == Some(o)
  {
    var parts := [Render(o[0] as int), Render(o[1] as int), Render(o[2] as int), Render(o[3] as int)];
    forall i | 0 <= i < 4 ensures '.' !in parts[i] && ParseOctet(parts[i]) == Some(o[i]) {
      RenderHasNoSeparator(o[i] as int, '.');
      ParseRenderedOctet(o[i]);
    }
    SplitJoin(parts, '.');
    ParseQuadOfParts(FormatQuad(o), parts, o);
  }

  lemma ParseQuadOfParts(s: string, parts: seq<string>, o: seq<bv8>)
    requires |parts| == 4 && |o| == 4 && Split(s, '.') == parts
    requires forall i :: 0 <= i < 4 ==> ParseOctet(parts[i]) == Some(o[i])
    ensures ParseQuad(s) == Some(o)
  {
    assert ParseOctet(parts[0]) == Some(o[0]);
    assert ParseOctet(parts[1]) == Some(o[1]);
    assert ParseOctet(parts[2]) == Some(o[2]);
    assert ParseOctet(parts[3]) == Some(o[3]);
    assert [o[0], o[1], o[2], o[3]] == o;
  }

  lemma {:induction false} FormatParseQuad(s: string)
    requires ParseQuad(s).Some?
    ensures FormatQuad(ParseQuad(s).value) == s
  {
    var parts := Split(s, '.');
    var o := ParseQuad(s).value;
    forall i | 0 <= i < 4 ensures Render(o[i] as int) == parts[i] {
      RenderOfValue(parts[i]);
    }
    assert [Render(o[0] as int), Render(o[1] as int), Render(o[2] as int), Render(o[3] as int)] == parts;
    JoinSplit(s, '.');
  }

  /** Every address reads back from its dotted-decimal form. */
  lemma ParseFormat(a: Addr)
    ensures ParseAddr(FormatAddr(a)) == Some(a)
  {
    ParseFormatQuad(Unpack(a));
    PackUnpack(a);
  }

  /** Every string that parses is the dotted-decimal form of its address. */
  lemma FormatParse(s: string, a: Addr)
    requires ParseAddr(s) == Some(a)
    ensures FormatAddr(a) == s
  {
    FormatParseQuad(s);
  }

  /**
   * Parsing accepts only the canonical dotted-decimal form: a string that
   * parses is exactly the rendering of its address, so distinct accepted
   * strings denote distinct addresses.
   */
  lemma ParseAddrInjective(s: string, t: string)
    requires ParseAddr(s).Some? && ParseAddr(s) == ParseAddr(t)
    ensures s == t
  {
    FormatParse(s, ParseAddr(s).value);
    FormatParse(t, ParseAddr(t).value);
  }

  type Prefix = p: bv6 | p <= 32

  /** The netmask of a prefix length: `prefix` one bits followed by zero bits. */
  function Mask(prefix: Prefix): Addr
  {
    0xFFFF_FFFF << (32 - prefix)
  }

  lemma MaskInjective(p: Prefix, q: Prefix)
    requires Mask(p) == Mask(q)
    ensures p == q
  {
  }

  /** First prefix length, from `from` upwards, whose netmask is `m`. */
  function PrefixSearch(m: Addr, from: Prefix): (r: Option<Prefix>)
    ensures r.Some? ==> from <= r.value && Mask(r.value) == m
    decreases 32 - from as int
  {
    if Mask(from) == m then Some(from)
    else if from == 32 then None
    else PrefixSearch(m, from + 1)
  }

  /** The prefix length of a contiguous netmask, `None` for any other value. */
  function PrefixOfMask(m: Addr): (r: Option<Prefix>)
    ensures r.Some? ==> Mask(r.value) == m
  {
    PrefixSearch(m, 0)
  }

  lemma {:induction false} PrefixSearchFinds(p: Prefix, from: Prefix)
    requires from <= p
    ensures PrefixSearch(Mask(p), from) == Some(p)
    decreases 32 - from as int
  {
    if Mask(from) == Mask(p) {
      MaskInjective(from, p);
    } else {
      PrefixSearchFinds(p, from + 1);
    }
  }

  lemma PrefixOfMaskExact(m: Addr)
    ensures PrefixOfMask(m).None? <==> forall p: Prefix :: Mask(p) != m
  {
    if PrefixOfMask(m).None? {
      forall p: Prefix ensures Mask(p) != m {
        if Mask(p) == m { PrefixSearchFinds(p, 0); }
      }
    }
  }

  /**
   * The part after '/' in a network string: a decimal prefix length of at
   * most 32 (leading zeros allowed); otherwise a dotted-quad netmask, or
   * failing that a dotted-quad hostmask.
   */
  function ParsePrefix(t: string): Option<Prefix>
  {
    match Decimal.Parse(t)
    case Some(n) => if n <= 32 then Some(n as bv6) else PrefixOfDotted(t)
    case None => PrefixOfDotted(t)
  }

  function PrefixOfDotted(t: string): Option<Prefix>
  {
    match ParseAddr(t)
    case None => None
    case Some(m) => if PrefixOfMask(m).Some? then PrefixOfMask(m) else PrefixOfMask(!m)
  }

  /** An IPv4 network: its (host-bits-cleared) address and prefix length. */
  datatype Network = Network(address: Addr, prefix: Prefix)

  /** The network address has no bits outside the mask. */
  predicate HostBitsClear(net: Network)
  {
    net.address & Mask(net.prefix) == net.address
  }

  /** `addr in net`: the address agrees with the network on the masked bits. */
  predicate Contains(net: Network, a: Addr)
    ensures Contains(net, a) ==> HostBitsClear(net)
  {
    MaskedIsClear(a, Mask(net.prefix), net.address);
    a & Mask(net.prefix) == net.address
  }

  lemma MaskedIsClear(a: Addr, m: Addr, n: Addr)
    ensures a & m == n ==> n & m == n
  {
  }

  /**
   * `ipaddress.ip_network(s, strict=False)` for IPv4: at most one '/', an
   * address before it, a prefix after it (none means /32), and the host bits
   * of the address cleared.
   */
  function ParseCidr(s: string): (r: Option<Network>)
    ensures r.Some? ==> HostBitsClear(r.value)
  {
    var halves := Split(s, '/');
    if |halves| > 2 then None
    else match ParseAddr(halves[0])
      case None => None
      case Some(a) =>
        match (if |halves| == 1 then Some(32) else ParsePrefix(halves[1]))
        case None => None
        case Some(p) => Some(NetworkOf(a, p))
  }

  /**
   * The network of prefix length `p` around `a`: host bits cleared, as
   * `strict=False` does, so it contains `a`.
   */
  function NetworkOf(a: Addr, p: Prefix): (net: Network)
    ensures net.prefix == p && HostBitsClear(net) && Contains(net, a)
  {
    var net := Network(a & Mask(p), p);
    assert HostBitsClear(net) by { MaskTwice(a, p); }
    assert Contains(net, a);
    net
  }

  lemma MaskTwice(a: Addr, p: Prefix)
    ensures (a & Mask(p)) & Mask(p) == a & Mask(p)
  {
  }

  lemma PrefixRoundTrip(p: Prefix)
    ensures (p as int) <= 32 && ((p as int) as bv6) == p
  {
  }

  /** A prefix length written in decimal reads back as itself. */
  lemma ParsePrefixRender(p: Prefix)
    ensures ParsePrefix(Render(p as int)) == Some(p)
  {
    ParseRender(p as int);
    PrefixRoundTrip(p);
  }

  lemma FormatAddrHasNoSlash(a: Addr)
    ensures '/' !in FormatAddr(a)
  {
    var o := Unpack(a);
    var parts := [Render(o[0] as int), Render(o[1] as int), Render(o[2] as int), Render(o[3] as int)];
    forall i | 0 <= i < 4 ensures '/' !in parts[i] { RenderHasNoSeparator(o[i] as int, '/'); }
    JoinHasNoChar(parts, '.', '/');
  }

  /** A network written as "address/prefix" reads back as that address's network. */
  lemma ParseCidrFormat(a: Addr, p: Prefix)
    ensures ParseCidr(FormatAddr(a) + "/" + Render(p as int)) == Some(NetworkOf(a, p))
  {
    var x, y := FormatAddr(a), Render(p as int);
    FormatAddrHasNoSlash(a);
    RenderHasNoSeparator(p as int, '/');
    SplitJoin([x, y], '/');
    assert Join([x, y], '/') == x + "/" + y;
    ParseFormat(a);
    ParsePrefixRender(p);
  }

  lemma {:induction false} JoinHasNoChar(parts: seq<string>, sep: char, c: char)
    requires |parts| > 0 && c != sep
    requires forall i :: 0 <= i < |parts| ==> c !in parts[i]
    ensures c !in Join(parts, sep)
    decreases |parts|
  {
    if |parts| > 1 {
      JoinHasNoChar(parts[1..], sep, c);
    }
  }

  /** A network contains the address it was written with. */
  lemma ContainsOwnAddress(s: string, net: Network, a: Addr)
    requires ParseCidr(s) == Some(net)
    requires ParseAddr(Split(s, '/')[0]) == Some(a)
    ensures Contains(net, a)
  {
  }

  /** A /0 network contains every address; a /32 network only its own. */
  lemma ContainsExtremes(net: Network, a: Addr)
    ensures net.prefix == 0 ==> (Contains(net, a) <==> net.address == 0)
    ensures net.prefix == 32 ==> (Contains(net, a) <==> a == net.address)
  {
    if net.prefix == 0 { MaskZero(net.prefix, net.address, a); }
    if net.prefix == 32 { MaskFull(net.prefix, net.address, a); }
  }

  lemma MaskZero(p: Prefix, n: Addr, a: Addr)
    requires p == 0
    ensures (a & Mask(p) == n) <==> n == 0
  {
  }

  lemma MaskFull(p: Prefix, n: Addr, a: Addr)
    requires p == 32
    ensures (a & Mask(p) == n) <==> n == a
  {
  }
}
