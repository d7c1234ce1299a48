/** `vnet/ip/udp`: the 8-byte UDP header of RFC 768. */
module Udp {
  import opened Bytes
  import opened PyStr

  const SizeofHeader: nat := 8

  /** Source port, destination port, length and checksum, as host-order values. */
  datatype Fields = Fields(srcPort: u16, dstPort: u16, length: u16, checksum: u16)

  /** The header as it sits in the packet: four 16-bit fields in network order. */
  function Wire(f: Fields): (r: seq<byte>)
    ensures |r| == SizeofHeader
  {
    Octets16(f.srcPort) + Octets16(f.dstPort) + Octets16(f.length) + Octets16(f.checksum)
  }

  /** The fields the first 8 octets of `w` hold. */
  function Decode(w: seq<byte>): Fields
    requires |w| >= SizeofHeader
  {
    Fields(BE16(w[0], w[1]), BE16(w[2], w[3]), BE16(w[4], w[5]), BE16(w[6], w[7]))
  }

  lemma DecodeWire(f: Fields)
    ensures Decode(Wire(f)) == f
  {
  }

  lemma WireDecode(w: seq<byte>)
    requires |w| == SizeofHeader
    ensures Wire(Decode(w)) == w
  {
    OctetsBE16(w[0], w[1]);
    OctetsBE16(w[2], w[3]);
    OctetsBE16(w[4], w[5]);
    OctetsBE16(w[6], w[7]);
    assert Wire(Decode(w)) == w[0..2] + w[2..4] + w[4..6] + w[6..8];
  }

  /** `ParseHeader(b)`: the header over the first 8 bytes, and the rest as payload. */
  function ParseHeader(b: seq<byte>): (r: (Fields, seq<byte>))
    requires |b| >= SizeofHeader
    ensures Wire(r.0) + r.1 == b && |r.1| == |b| - SizeofHeader
  {
    WireDecode(b[..SizeofHeader]);
    assert b[..SizeofHeader] + b[SizeofHeader..] == b;
    (Decode(b[..SizeofHeader]), b[SizeofHeader..])
  }

  /**
   * `String()`: "0x<src> -> 0x<dst>", lower-case hexadecimal without
   * padding. The first space ends the source port's digits, so the two
   * ports can be told apart.
   */
  function String(f: Fields): (r: string)
    ensures var n := 2 + |Hex(f.srcPort)|;
            n < |r| && r[n] == ' ' && forall k :: 0 <= k < n ==> r[k] != ' '
  {
    Separator(Hex(f.srcPort), Hex(f.dstPort));
    "0x" + Hex(f.srcPort) + " -> 0x" + Hex(f.dstPort)
  }

  /** The rendering determines both ports. */
  lemma StringInjective(f: Fields, g: Fields)
    requires String(f) == String(g)
    ensures f.srcPort == g.srcPort && f.dstPort == g.dstPort
  {
    var a, b, c, d := Hex(f.srcPort), Hex(f.dstPort), Hex(g.srcPort), Hex(g.dstPort);
    HexPair(a, b, c, d);
    HexRoundTrip(f.srcPort);
    HexRoundTrip(g.srcPort);
    HexRoundTrip(f.dstPort);
    HexRoundTrip(g.dstPort);
  }

  lemma HexPair(a: string, b: string, c: string, d: string)
    requires forall k :: 0 <= k < |a| ==> a[k] != ' '
    requires forall k :: 0 <= k < |c| ==> c[k] != ' '
    requires "0x" + a + " -> 0x" + b == "0x" + c + " -> 0x" + d
    ensures a == c && b == d
  {
    var s := "0x" + a + " -> 0x" + b;
    Separator(a, b);
    Separator(c, d);
    assert |a| == |c|;
    assert a == s[2..2 + |a|] == c;
    assert b == s[2 + |a| + 6..] == d;
  }

  /** In "0x<a> -> 0x<b>", the first space follows `a`. */
  lemma Separator(a: string, b: string)
    requires forall k :: 0 <= k < |a| ==> a[k] != ' '
    ensures var s := "0x" + a + " -> 0x" + b;
            s[2 + |a|] == ' ' && forall k :: 2 <= k < 2 + |a| ==> s[k] != ' '
  {
    var s := "0x" + a + " -> 0x" + b;
    assert forall k :: 2 <= k < 2 + |a| ==> s[k] == a[k - 2];
  }

  /** A UDP header of a packet buffer. */
  class Header {
    var srcPort: u16
    var dstPort: u16
    var length: u16
    var checksum: u16

    function Value(): Fields
      reads this
    {
      Fields(srcPort, dstPort, length, checksum)
    }

    constructor (f: Fields)
      ensures Value() == f
    {
      srcPort, dstPort, length, checksum := f.srcPort, f.dstPort, f.length, f.checksum;
    }

    /** `Len()` */
    function Len(): (r: nat)
      ensures r == SizeofHeader
    {
      SizeofHeader
    }

    /**
     * `Write(b)`: the length becomes `len(b)` (cut to 16 bits), the checksum
     * 0, and the header's 8 bytes are copied to the front of `b`.
     */
    method Write(b: array<byte>)
      modifies this, b
      ensures Value() == old(Value()).(length := b.Length % 0x1_0000, checksum := 0)
      ensures b[..] == CopyInto(old(b[..]), Wire(Value()))
    {
      length := b.Length % 0x1_0000;
      checksum := 0;
      Copy(b, Wire(Value()));
    }
  }

  /** What `Write` leaves in a buffer of at least 8 bytes parses back to the written header. */
  lemma WriteParse(old_b: seq<byte>, f: Fields)
    requires |old_b| >= SizeofHeader
    ensures var w := f.(length := |old_b| % 0x1_0000, checksum := 0);
            var r := ParseHeader(CopyInto(old_b, Wire(w)));
            r.0 == w && r.1 == old_b[SizeofHeader..]
  {
    var w := f.(length := |old_b| % 0x1_0000, checksum := 0);
    CopyIntoParts(old_b, Wire(w));
    DecodeWire(w);
  }
}
