/**
 * `vnet/ip4` packet layout: the IPv4 address and the 20-byte header of
 * section 3.1 of RFC 791, with the header checksum of RFC 1071.
 */
module Ip4 {
  import opened Bytes
  import opened PyStr
  import opened Wrappers

  const AddressBytes: nat := 4
  const SizeofHeader: nat := 20

  /** The flag bits of the flags/fragment-offset word. */
  const MoreFragments: u16 := 0x2000
  const DontFragment: u16 := 0x4000
  const Congestion: u16 := 0x8000

  /** Four octets in network order, as in the packet. */
  type Address = a: seq<byte> | |a| == AddressBytes witness [0, 0, 0, 0]

  // ---------------------------------------------------------------------
  // Address

  /** `ToString()`: the four octets in decimal, joined by dots; the dots split it back into the four decimals. */
  function ToString(a: Address): (r: string)
    ensures Split(r, ".") == Decimals(a)
  {
    var parts := Decimals(a);
    var r := NatToStr(a[0]) + "." + NatToStr(a[1]) + "." + NatToStr(a[2]) + "." + NatToStr(a[3]);
    assert Join(".", parts[3..]) == parts[3];
    assert Join(".", parts[2..]) == parts[2] + "." + parts[3];
    assert Join(".", parts[1..]) == parts[1] + "." + parts[2] + "." + parts[3];
    assert r == Join(".", parts);
    NatToStrDigits(a[0]);
    NatToStrDigits(a[1]);
    NatToStrDigits(a[2]);
    NatToStrDigits(a[3]);
    assert forall i, k :: 0 <= i < |parts| && 0 <= k < |parts[i]| ==> IsDigit(parts[i][k]);
    SplitOfJoin(parts, '.');
    r
  }

  /** A dotted-quad reader, the partner of `ToString`. */
  function ParseAddress(s: string): (r: Option<Address>)
  {
    var parts := Split(s, ".");
    if |parts| == 4 && forall i :: 0 <= i < 4 ==> IsDecimal(parts[i]) && DecValue(parts[i]) < 0x100
    then Some([DecValue(parts[0]), DecValue(parts[1]), DecValue(parts[2]), DecValue(parts[3])])
    else None
  }

  lemma ParseToString(a: Address)
    ensures ParseAddress(ToString(a)) == Some(a)
  {
    var parts := Decimals(a);
    NatToStrRoundTrip(a[0]);
    NatToStrRoundTrip(a[1]);
    NatToStrRoundTrip(a[2]);
    NatToStrRoundTrip(a[3]);
    assert [DecValue(parts[0]), DecValue(parts[1]), DecValue(parts[2]), DecValue(parts[3])] == a;
  }

  function Decimals(a: Address): seq<string> {
    [NatToStr(a[0]), NatToStr(a[1]), NatToStr(a[2]), NatToStr(a[3])]
  }

  /** `AsUint32().ToHost()`: the address as a number, first octet most significant. */
  function HostWord(a: Address): nat {
    BigEndian(a)
  }

  /** `AsUint32()` loaded on a little-endian host: the first octet is least significant. */
  function NativeWord(a: Address): nat {
    BigEndian([a[3], a[2], a[1], a[0]])
  }

  /** `Diff(b)`: -1, 0 or 1, the sign of the difference of the host-order words. */
  function Diff(a: Address, b: Address): (r: int)
    ensures -1 <= r <= 1
    ensures r == 0 <==> a == b
  {
    BigEndianInjective(a, b);
    var cmp := HostWord(a) - HostWord(b);
    if cmp != 0 then (if cmp < 0 then -1 else 1) else 0
  }

  /** Diff sorts addresses by their octets, first octet first. */
  lemma DiffOrder(a: Address, b: Address)
    ensures Diff(a, b) == -1 <==> LexLess(a, b)
    ensures Diff(a, b) == 1 <==> LexLess(b, a)
    ensures Diff(a, b) == 0 <==> a == b
    ensures Diff(a, b) == -Diff(b, a)
  {
    BigEndianOrder(a, b);
    BigEndianOrder(b, a);
    BigEndianInjective(a, b);
  }

  /** `IsEqual(b)`: the native words are equal exactly when the octets are. */
  predicate IsEqual(a: Address, b: Address)
    ensures IsEqual(a, b) <==> a == b
  {
    var ra, rb := [a[3], a[2], a[1], a[0]], [b[3], b[2], b[1], b[0]];
    BigEndianInjective(ra, rb);
    assert ra == rb ==> a == [ra[3], ra[2], ra[1], ra[0]] == b;
    NativeWord(a) == NativeWord(b)
  }

  /** `IsZero()`: the native word is zero exactly when all four octets are. */
  predicate IsZero(a: Address)
    ensures IsZero(a) <==> forall k :: 0 <= k < AddressBytes ==> a[k] == 0
  {
    var ra := [a[3], a[2], a[1], a[0]];
    BigEndianZero(ra);
    assert forall k :: 0 <= k < AddressBytes ==> a[k] == ra[3 - k];
    NativeWord(a) == 0
  }

  /**
   * `ToIp()`: the address in the first four octets of a wider, zeroed
   * `ip.Address`; the width of that type is a parameter.
   */
  method ToIp(a: Address, width: nat) returns (v: seq<byte>)
    requires width >= AddressBytes
    ensures |v| == width && v[..AddressBytes] == a
    ensures forall k :: AddressBytes <= k < width ==> v[k] == 0
  {
    v := seq(width, _ => 0);
    var i := 0;
    while i < AddressBytes
      invariant 0 <= i <= AddressBytes && |v| == width
      invariant forall k :: 0 <= k < i ==> v[k] == a[k]
      invariant forall k :: i <= k < width ==> v[k] == 0
    {
      v := v[i := a[i]];
      i := i + 1;
    }
    assert v[..AddressBytes] == a;
  }

  // ---------------------------------------------------------------------
  // Flags and fragment offset

  predicate HasFlag(word: u16, flag: u16)
    requires flag == MoreFragments || flag == DontFragment || flag == Congestion
  {
    (word / flag) % 2 == 1
  }

  /** The 13-bit fragment offset, in units of 8 octets. */
  function FragmentOffset(word: u16): nat {
    word % 0x2000
  }

  /** A flags/fragment-offset word assembled from its parts. */
  function FlagsWord(mf: bool, df: bool, cong: bool, offset: nat): (r: u16)
    requires offset < 0x2000
  {
    offset + (if mf then MoreFragments else 0) + (if df then DontFragment else 0)
      + (if cong then Congestion else 0)
  }

  /** The three flag bits and the offset are independent fields of the word. */
  lemma FlagsRoundTrip(mf: bool, df: bool, cong: bool, offset: nat)
    requires offset < 0x2000
    ensures var w := FlagsWord(mf, df, cong, offset);
            HasFlag(w, MoreFragments) == mf && HasFlag(w, DontFragment) == df
            && HasFlag(w, Congestion) == cong && FragmentOffset(w) == offset
  {
  }

  /** Every word is made of its flags and its offset. */
  lemma FlagsComplete(w: u16)
    ensures w == FlagsWord(HasFlag(w, MoreFragments), HasFlag(w, DontFragment),
                           HasFlag(w, Congestion), FragmentOffset(w))
  {
  }

  // ---------------------------------------------------------------------
  // Header

  /** The header fields, in host order. */
  datatype Fields = Fields(
    verIhl: byte, tos: byte, length: u16, fragmentId: u16, flagsFrag: u16,
    ttl: byte, protocol: byte, checksum: u16, src: Address, dst: Address)

  /** The 20 octets of the header as laid out in the packet. */
  function Wire(f: Fields): (r: seq<byte>)
    ensures |r| == SizeofHeader
  {
    [f.verIhl, f.tos] + Octets16(f.length) + Octets16(f.fragmentId) + Octets16(f.flagsFrag)
      + [f.ttl, f.protocol] + Octets16(f.checksum) + f.src + f.dst
  }

  function Decode(w: seq<byte>): Fields
    requires |w| >= SizeofHeader
  {
    Fields(w[0], w[1], BE16(w[2], w[3]), BE16(w[4], w[5]), BE16(w[6], w[7]),
           w[8], w[9], BE16(w[10], w[11]), w[12..16], w[16..20])
  }

  lemma DecodeWire(f: Fields)
    ensures Decode(Wire(f)) == f
  {
    var w := Wire(f);
    assert w[12..16] == f.src && w[16..20] == f.dst;
  }

  lemma WireDecode(w: seq<byte>)
    requires |w| == SizeofHeader
    ensures Wire(Decode(w)) == w
  {
    OctetsBE16(w[2], w[3]);
    OctetsBE16(w[4], w[5]);
    OctetsBE16(w[6], w[7]);
    OctetsBE16(w[10], w[11]);
    assert w == w[0..2] + w[2..4] + w[4..6] + w[6..8] + w[8..10] + w[10..12] + w[12..16] + w[16..20];
  }

  /** `ParseHeader(b)`: the header over the first 20 bytes and the rest as payload. */
  function ParseHeader(b: seq<byte>): (r: (Fields, seq<byte>))
    requires |b| >= SizeofHeader
    ensures Wire(r.0) + r.1 == b && |r.1| == |b| - SizeofHeader
  {
    WireDecode(b[..SizeofHeader]);
    assert b[..SizeofHeader] + b[SizeofHeader..] == b;
    (Decode(b[..SizeofHeader]), b[SizeofHeader..])
  }

  // ---------------------------------------------------------------------
  // Checksum (RFC 1071)

  /** One's-complement addition of 16-bit words (end-around carry). */
  function OnesAdd(a: u16, b: u16): u16 {
    if a + b >= 0x1_0000 then a + b - 0xffff else a + b
  }

  function OnesSum(ws: seq<u16>): u16 {
    if ws == [] then 0 else OnesAdd(ws[0], OnesSum(ws[1..]))
  }

  function Total(ws: seq<u16>): nat {
    if ws == [] then 0 else ws[0] + Total(ws[1..])
  }

  /** Octets taken two at a time as big-endian words. */
  function Words(w: seq<byte>): seq<u16>
  {
    if |w| < 2 then [] else [BE16(w[0], w[1])] + Words(w[2..])
  }

  /** The one's-complement sum is the plain sum modulo 0xffff, and 0 only for all-zero words. */
  lemma {:induction false} OnesSumMod(ws: seq<u16>)
    ensures OnesSum(ws) % 0xffff == Total(ws) % 0xffff
    ensures OnesSum(ws) == 0 <==> Total(ws) == 0
  {
    if ws != [] {
      OnesSumMod(ws[1..]);
      OnesAddMod(ws[0], OnesSum(ws[1..]));
      ModAdd(ws[0], OnesSum(ws[1..]), Total(ws[1..]));
    }
  }

  /** The end-around carry keeps the sum modulo 0xffff, and only 0 + 0 gives 0. */
  lemma OnesAddMod(a: u16, b: u16)
    ensures OnesAdd(a, b) % 0xffff == (a + b) % 0xffff
    ensures OnesAdd(a, b) == 0 <==> a == 0 && b == 0
  {
    if a + b >= 0x1_0000 {
      assert a + b == OnesAdd(a, b) + 0xffff;
    }
  }

  lemma ModAdd(a: nat, b: nat, c: nat)
    requires b % 0xffff == c % 0xffff
    ensures (a + b) % 0xffff == (a + c) % 0xffff
  {
  }

  lemma {:induction false} TotalAppend(xs: seq<u16>, ys: seq<u16>)
    ensures Total(xs + ys) == Total(xs) + Total(ys)
  {
    if xs == [] {
      assert xs + ys == ys;
    } else {
      assert (xs + ys)[1..] == xs[1..] + ys;
      TotalAppend(xs[1..], ys);
    }
  }

  lemma {:induction false} WordsAppend(a: seq<byte>, b: seq<byte>)
    requires |a| % 2 == 0
    ensures Words(a + b) == Words(a) + Words(b)
  {
    if |a| < 2 {
      assert a + b == b;
    } else {
      assert (a + b)[2..] == a[2..] + b;
      WordsAppend(a[2..], b);
    }
  }

  /** The checksum of a buffer: the complement of its one's-complement sum. */
  function Checksum(w: seq<byte>): u16 {
    0xffff - OnesSum(Words(w))
  }

  /** The words before and after the checksum field. */
  function WordsBefore(f: Fields): seq<u16> {
    [BE16(f.verIhl, f.tos), f.length, f.fragmentId, f.flagsFrag, BE16(f.ttl, f.protocol)]
  }

  function WordsAfter(f: Fields): seq<u16> {
    [BE16(f.src[0], f.src[1]), BE16(f.src[2], f.src[3]), BE16(f.dst[0], f.dst[1]), BE16(f.dst[2], f.dst[3])]
  }

  lemma WordsPair(x: seq<byte>, rest: seq<byte>)
    requires |x| == 2
    ensures Words(x + rest) == [BE16(x[0], x[1])] + Words(rest)
  {
    assert (x + rest)[2..] == rest;
  }

  lemma WordsOfWire(f: Fields)
    ensures Words(Wire(f)) == WordsBefore(f) + [f.checksum] + WordsAfter(f)
  {
    var r6 := f.src[..2] + (f.src[2..] + (f.dst[..2] + f.dst[2..]));
    var r5 := Octets16(f.checksum) + r6;
    var r4 := [f.ttl, f.protocol] + r5;
    var r3 := Octets16(f.flagsFrag) + r4;
    var r2 := Octets16(f.fragmentId) + r3;
    var r1 := Octets16(f.length) + r2;
    var r0 := [f.verIhl, f.tos] + r1;
    assert Wire(f) == r0;
    WordsPair(f.dst[..2], f.dst[2..]);
    WordsPair(f.dst[2..], []);
    assert f.dst[2..] + [] == f.dst[2..];
    WordsPair(f.src[2..], f.dst[..2] + f.dst[2..]);
    WordsPair(f.src[..2], f.src[2..] + (f.dst[..2] + f.dst[2..]));
    assert Words(r6) == WordsAfter(f);
    WordsPair(Octets16(f.checksum), r6);
    WordsPair([f.ttl, f.protocol], r5);
    WordsPair(Octets16(f.flagsFrag), r4);
    WordsPair(Octets16(f.fragmentId), r3);
    WordsPair(Octets16(f.length), r2);
    WordsPair([f.verIhl, f.tos], r1);
    Regroup(BE16(f.verIhl, f.tos), f.length, f.fragmentId, f.flagsFrag, BE16(f.ttl, f.protocol), f.checksum, WordsAfter(f));
  }

  lemma Regroup(a: u16, b: u16, c: u16, d: u16, e: u16, x: u16, after: seq<u16>)
    ensures [a] + ([b] + ([c] + ([d] + ([e] + ([x] + after))))) == [a, b, c, d, e] + [x] + after
  {
  }

  /**
   * `ComputeChecksum()`: the checksum of a copy whose checksum field is 0,
   * which complements the one's-complement sum of the header words with a
   * zero checksum word.
   */
  function ComputeChecksum(f: Fields): (r: u16)
    ensures r == 0xffff - OnesSum(WordsBefore(f) + [0] + WordsAfter(f))
  {
    ZeroWords(f);
    ChecksumOfWords(Wire(f.(checksum := 0)), WordsBefore(f) + [0] + WordsAfter(f));
    Checksum(Wire(f.(checksum := 0)))
  }

  /** The checksum field of the receiver does not enter the result. */
  lemma ComputeChecksumIgnoresField(f: Fields, c: u16)
    ensures ComputeChecksum(f.(checksum := c)) == ComputeChecksum(f)
  {
    assert f.(checksum := c).(checksum := 0) == f.(checksum := 0);
  }

  /**
   * A header carrying the checksum `ComputeChecksum` gives passes the
   * receiver's test of RFC 1071: the sum over all its words is 0xffff.
   */
  lemma ChecksumVerifies(f: Fields)
    ensures OnesSum(Words(Wire(f.(checksum := ComputeChecksum(f))))) == 0xffff
  {
    var c := ComputeChecksum(f);
    SumOf(f.(checksum := c));
    SameWords(f, c);
    ChecksumSplice(WordsBefore(f), WordsAfter(f), c);
  }

  lemma ZeroWords(f: Fields)
    ensures Words(Wire(f.(checksum := 0))) == WordsBefore(f) + [0] + WordsAfter(f)
  {
    WordsOfWire(f.(checksum := 0));
    SameWords(f, 0);
  }

  lemma ChecksumOfWords(w: seq<byte>, ws: seq<u16>)
    requires Words(w) == ws
    ensures Checksum(w) == 0xffff - OnesSum(ws)
  {
  }

  lemma SumOf(g: Fields)
    ensures OnesSum(Words(Wire(g))) == OnesSum(WordsBefore(g) + [g.checksum] + WordsAfter(g))
  {
    WordsOfWire(g);
  }

  lemma SameWords(f: Fields, c: u16)
    ensures WordsBefore(f.(checksum := c)) == WordsBefore(f) && WordsAfter(f.(checksum := c)) == WordsAfter(f)
  {
  }

  /** Putting the complement of the sum in place of a zero word makes the sum 0xffff. */
  lemma ChecksumSplice(before: seq<u16>, after: seq<u16>, c: u16)
    requires c == 0xffff - OnesSum(before + [0] + after)
    ensures OnesSum(before + [c] + after) == 0xffff
  {
    var ws0, ws := before + [0] + after, before + [c] + after;
    TotalAppend(before + [0], after);
    TotalAppend(before, [0]);
    TotalAppend(before + [c], after);
    TotalAppend(before, [c]);
    OnesSumMod(ws0);
    OnesSumMod(ws);
    ChecksumArith(OnesSum(ws0), Total(ws0), OnesSum(ws), Total(ws), c);
  }

  /** The arithmetic behind `ChecksumSplice`. */
  lemma ChecksumArith(s0: u16, t0: nat, s1: u16, t1: nat, c: u16)
    requires s0 % 0xffff == t0 % 0xffff && (s0 == 0 <==> t0 == 0)
    requires s1 % 0xffff == t1 % 0xffff && (s1 == 0 <==> t1 == 0)
    requires c == 0xffff - s0 && t1 == t0 + c
    ensures s1 == 0xffff
  {
    ModAdd(c, t0, s0);
    assert t1 % 0xffff == 0;
  }

  /** An IPv4 header in a packet buffer. */
  class Header {
    var verIhl: byte
    var tos: byte
    var length: u16
    var fragmentId: u16
    var flagsFrag: u16
    var ttl: byte
    var protocol: byte
    var checksum: u16
    var src: Address
    var dst: Address

    function Value(): Fields
      reads this
    {
      Fields(verIhl, tos, length, fragmentId, flagsFrag, ttl, protocol, checksum, src, dst)
    }

    constructor (f: Fields)
      ensures Value() == f
    {
      verIhl, tos, length, fragmentId, flagsFrag := f.verIhl, f.tos, f.length, f.fragmentId, f.flagsFrag;
      ttl, protocol, checksum, src, dst := f.ttl, f.protocol, f.checksum, f.src, f.dst;
    }

    /** `Len()` */
    function Len(): (r: nat)
      ensures r == SizeofHeader
    {
      SizeofHeader
    }

    /**
     * `Write(b)`: the length becomes `len(b)` (cut to 16 bits), the checksum
     * is recomputed over the header with the field zeroed, and the 20 header
     * bytes are copied to the front of `b`.
     */
    method Write(b: array<byte>)
      modifies this, b
      ensures var f := old(Value()).(length := b.Length % 0x1_0000);
              Value() == f.(checksum := ComputeChecksum(f))
      ensures b[..] == CopyInto(old(b[..]), Wire(Value()))
    {
      length := b.Length % 0x1_0000;
      checksum := 0;
      checksum := Checksum(Wire(Value()));
      Copy(b, Wire(Value()));
    }
  }

  /** What `Write` leaves in a buffer of at least 20 bytes parses back to the written header. */
  lemma WriteParse(old_b: seq<byte>, f: Fields)
    requires |old_b| >= SizeofHeader
    ensures var r := ParseHeader(CopyInto(old_b, Wire(f)));
            r.0 == f && r.1 == old_b[SizeofHeader..]
  {
    var b := CopyInto(old_b, Wire(f));
    assert b[..SizeofHeader] == Wire(f);
    DecodeWire(f);
    assert b[SizeofHeader..] == old_b[SizeofHeader..];
  }
}
