/**
 Names of virtual nodes, and the parser that recovers a peer from such a name.

 A virtual node is nothing but a string, the printed socket address of its peer, an underscore and an
 index. Routing prints that string when a peer joins and parses it back on every lookup, so everything the
 ring does rests on the round trip proved here.
 */
module VNodes {
  import opened Wrappers

  type byte = x: int | 0 <= x < 256
  type u16 = x: int | 0 <= x < 0x1_0000

  /** An IPv4 socket address; peers are identified by it. */
  datatype Peer = Peer(a: byte, b: byte, c: byte, d: byte, port: u16)

  const VNODES_PER_PEER: nat := 40
  type VNodeId = i: nat | i < VNODES_PER_PEER

  // ---------------------------------------------------------------- printing

  const DIGITS := "0123456789"

  predicate IsDigit(ch: char) {
    '0' <= ch <= '9'
  }

  function Decimal(n: nat): (s: string)
    ensures s != "" && forall ch | ch in s :: IsDigit(ch)
    ensures n > 0 ==> s[0] != '0'
    ensures n < 10 ==> |s| == 1
  {
    if n < 10 then [DIGITS[n]] else Decimal(n / 10) + [DIGITS[n % 10]]
  }

  function ShowSocket(p: Peer): string {
    Decimal(p.a) + "." + Decimal(p.b) + "." + Decimal(p.c) + "." + Decimal(p.d) + ":" + Decimal(p.port)
  }

  /** The text of virtual node `id` of `p`. */
  function VNodeName(p: Peer, id: nat): string {
    ShowSocket(p) + "_" + Decimal(id)
  }

  // ----------------------------------------------------------------- parsing

  /** The part of `s` before the first `sep`; all of `s` if there is none. */
  function Before(s: string, sep: char): string {
    if s == "" || s[0] == sep then "" else [s[0]] + Before(s[1..], sep)
  }

  /** The part of `s` after the first `sep`, if there is one. */
  function After(s: string, sep: char): Option<string> {
    if s == "" then None else if s[0] == sep then Some(s[1..]) else After(s[1..], sep)
  }

  function ParseNat(s: string): Option<nat> {
    if s == "" || !IsDigit(s[|s| - 1]) then None
    else
      var last := s[|s| - 1] as int - '0' as int;
      if |s| == 1 then Some(last)
      else match ParseNat(s[..|s| - 1])
        case None => None
        case Some(n) => Some(10 * n + last)
  }

  /** Octets may not carry leading zeros, ports may. */
  function ParseOctet(s: string): Option<byte> {
    if |s| > 1 && s[0] == '0' then None
    else match ParseNat(s)
      case Some(n) => if n < 256 then Some(n) else None
      case None => None
  }

  function ParsePort(s: string): Option<u16> {
    match ParseNat(s)
    case Some(n) => if n < 0x1_0000 then Some(n) else None
    case None => None
  }

  function ParseFields(a: string, b: string, c: string, d: string, port: string): Option<Peer> {
    match (ParseOctet(a), ParseOctet(b), ParseOctet(c), ParseOctet(d), ParsePort(port))
    case (Some(na), Some(nb), Some(nc), Some(nd), Some(np)) => Some(Peer(na, nb, nc, nd, np))
    case _ => None
  }

  /** The IPv4 branch of the standard library's socket address parser. */
  function ParseSocket(s: string): Option<Peer> {
    match After(s, '.')
    case None => None
    case Some(s1) =>
      match After(s1, '.')
      case None => None
      case Some(s2) =>
        match After(s2, '.')
        case None => None
        case Some(s3) =>
          match After(s3, ':')
          case None => None
          case Some(s4) =>
            ParseFields(Before(s, '.'), Before(s1, '.'), Before(s2, '.'), Before(s3, ':'), s4)
  }

  // -------------------------------------------------------------- round trip

  lemma {:induction false} CutAtSeparator(x: string, sep: char, y: string)
    requires sep !in x
    ensures Before(x + [sep] + y, sep) == x
    ensures After(x + [sep] + y, sep) == Some(y)
  {
    var s := x + [sep] + y;
    if x == "" {
      assert s[1..] == y;
    } else {
      CutAtSeparator(x[1..], sep, y);
      assert s[1..] == x[1..] + [sep] + y;
      assert x == [x[0]] + x[1..];
    }
  }

  lemma ParseNatReadsOneMoreDigit(s: string, n: nat, d: nat)
    requires ParseNat(s) == Some(n) && d < 10
    ensures ParseNat(s + [DIGITS[d]]) == Some(10 * n + d)
  {
    var t := s + [DIGITS[d]];
    assert t[..|t| - 1] == s;
    assert DIGITS[d] as int == '0' as int + d;
  }

  lemma {:induction false} ParseNatInvertsDecimal(n: nat)
    ensures ParseNat(Decimal(n)) == Some(n)
  {
    if n >= 10 {
      ParseNatInvertsDecimal(n / 10);
      ParseNatReadsOneMoreDigit(Decimal(n / 10), n / 10, n % 10);
    }
  }

  lemma ParseOctetInvertsDecimal(n: byte)
    ensures ParseOctet(Decimal(n)) == Some(n)
  {
    ParseNatInvertsDecimal(n);
  }

  /** What is read as a number without a leading zero is the decimal text of that number. */
  lemma {:induction false} DecimalInvertsParseNat(s: string)
    requires ParseNat(s).Some? && (|s| > 1 ==> s[0] != '0')
    ensures Decimal(ParseNat(s).value) == s && (s[0] != '0' ==> ParseNat(s).value > 0)
  {
    var front, last := s[..|s| - 1], s[|s| - 1] as int - '0' as int;
    assert DIGITS[last] == s[|s| - 1];
    if |s| > 1 {
      DecimalInvertsParseNat(front);
      assert ParseNat(s).value / 10 == ParseNat(front).value;
      assert s == front + [s[|s| - 1]];
    } else {
      assert s == [s[0]];
    }
  }

  /** An octet has one spelling only. */
  lemma OctetsAreCanonical(s: string, n: byte)
    ensures ParseOctet(s) == Some(n) <==> s == Decimal(n)
  {
    ParseOctetInvertsDecimal(n);
    if ParseOctet(s) == Some(n) {
      DecimalInvertsParseNat(s);
    }
  }

  /** A port may be spelled with leading zeros. */
  lemma {:induction false} PortsMayHaveLeadingZeros(s: string)
    requires s != ""
    ensures ParseNat("0" + s) == ParseNat(s) && ParsePort("0" + s) == ParsePort(s)
  {
    var t := "0" + s;
    assert t[|t| - 1] == s[|s| - 1] && t[..|t| - 1] == "0" + s[..|s| - 1];
    if |s| > 1 {
      PortsMayHaveLeadingZeros(s[..|s| - 1]);
    } else {
      assert t[..1] == "0" && ParseNat("0") == Some(0);
    }
  }

  /** The parser cuts a dotted address with a port into exactly its five fields. */
  lemma ParseSocketCuts(a: string, b: string, c: string, d: string, port: string)
    requires '.' !in a && '.' !in b && '.' !in c && ':' !in d
    ensures ParseSocket(a + "." + b + "." + c + "." + d + ":" + port) == ParseFields(a, b, c, d, port)
  {
    var s3 := d + [':'] + port;
    var s2 := c + ['.'] + s3;
    var s1 := b + ['.'] + s2;
    assert a + "." + b + "." + c + "." + d + ":" + port == a + ['.'] + s1;
    CutAtSeparator(a, '.', s1);
    CutAtSeparator(b, '.', s2);
    CutAtSeparator(c, '.', s3);
    CutAtSeparator(d, ':', port);
  }

  lemma ParseFieldsInvertsDecimal(p: Peer)
    ensures ParseFields(Decimal(p.a), Decimal(p.b), Decimal(p.c), Decimal(p.d), Decimal(p.port)) == Some(p)
  {
    ParseOctetInvertsDecimal(p.a);
    ParseOctetInvertsDecimal(p.b);
    ParseOctetInvertsDecimal(p.c);
    ParseOctetInvertsDecimal(p.d);
    ParseNatInvertsDecimal(p.port);
  }

  /** Parsing the printed address of any peer gives that peer back. */
  lemma ParseSocketInvertsShow(p: Peer)
    ensures ParseSocket(ShowSocket(p)) == Some(p)
  {
    ParseSocketCuts(Decimal(p.a), Decimal(p.b), Decimal(p.c), Decimal(p.d), Decimal(p.port));
    ParseFieldsInvertsDecimal(p);
  }

  lemma NoUnderscoreInSocket(p: Peer)
    ensures '_' !in ShowSocket(p)
  {
  }

  /** Cutting a name at its underscore recovers the printed address and the printed index. */
  lemma NameSplits(p: Peer, id: nat)
    ensures Before(VNodeName(p, id), '_') == ShowSocket(p)
    ensures After(VNodeName(p, id), '_') == Some(Decimal(id))
  {
    NoUnderscoreInSocket(p);
    CutAtSeparator(ShowSocket(p), '_', Decimal(id));
  }

  lemma DecimalAppends(n: nat, d: nat)
    requires 0 < n && d < 10
    ensures Decimal(10 * n + d) == Decimal(n) + [DIGITS[d]]
  {
  }

  /** The text of a name, spelled out for one of them. */
  lemma NameOfLocalhost()
    ensures VNodeName(Peer(127, 0, 0, 1, 8080), 39) == "127.0.0.1:8080_39"
  {
    DecimalAppends(1, 2);
    DecimalAppends(12, 7);
    DecimalAppends(8, 0);
    DecimalAppends(80, 8);
    DecimalAppends(808, 0);
    DecimalAppends(3, 9);
    assert Decimal(0) == "0" && Decimal(1) == "1" && Decimal(3) == "3" && Decimal(8) == "8";
    hide Decimal;
    assert Decimal(127) == "127" && Decimal(8080) == "8080" && Decimal(39) == "39";
  }

  /** Distinct virtual nodes have distinct names. */
  lemma NamesAreDistinct(p: Peer, i: nat, q: Peer, j: nat)
    ensures VNodeName(p, i) == VNodeName(q, j) <==> p == q && i == j
  {
    NameSplits(p, i);
    NameSplits(q, j);
    ParseSocketInvertsShow(p);
    ParseSocketInvertsShow(q);
    ParseNatInvertsDecimal(i);
    ParseNatInvertsDecimal(j);
  }

  // ------------------------------------------------------------ virtual nodes

  ghost predicate IsVNodeName(s: string) {
    exists p: Peer, id: VNodeId :: s == VNodeName(p, id)
  }

  /** The only strings the routing code ever wraps as a virtual node. */
  type VNode = s: string | IsVNodeName(s) ghost witness VNodeName(Peer(0, 0, 0, 0, 0), 0)

  function NewVNode(p: Peer, id: VNodeId): (v: VNode)
    ensures v == VNodeName(p, id)
  {
    VNodeName(p, id)
  }

  /** The peer a virtual node belongs to; both unwraps of the source are safe on every virtual node. */
  function AsPeer(v: VNode): (p: Peer)
    ensures exists id: VNodeId :: v == VNodeName(p, id)
  {
    VNodeParses(v);
    ParseSocket(Before(v, '_')).value
  }

  lemma VNodeParses(v: VNode)
    ensures ParseSocket(Before(v, '_')).Some?
    ensures exists id: VNodeId :: v == VNodeName(ParseSocket(Before(v, '_')).value, id)
  {
    var p: Peer, id: VNodeId :| v == VNodeName(p, id);
    NameSplits(p, id);
    ParseSocketInvertsShow(p);
  }

  /** The owner recovered from a virtual node is the peer it was made for. */
  lemma AsPeerInvertsNewVNode(p: Peer, id: VNodeId)
    ensures AsPeer(NewVNode(p, id)) == p
  {
    NameSplits(p, id);
    ParseSocketInvertsShow(p);
  }

  /** The loop that builds the virtual nodes of a peer. */
  method VNodesForPeer(p: Peer, num: nat) returns (vnodes: seq<VNode>)
    requires num <= VNODES_PER_PEER
    ensures |vnodes| == num
    ensures forall i | 0 <= i < num :: vnodes[i] == VNodeName(p, i)
  {
    vnodes := [];
    hide VNodeName;
    for i := 0 to num
      invariant |vnodes| == i
      invariant forall j | 0 <= j < i :: vnodes[j] == VNodeName(p, j)
    {
      vnodes := vnodes + [NewVNode(p, i)];
    }
  }
}
