/** Octets and the integer widths the Go packages use. */
module Bytes {
  type byte = x: int | 0 <= x < 0x100
  type u16 = x: int | 0 <= x < 0x1_0000
  type u32 = x: int | 0 <= x < 0x1_0000_0000

  /** The big-endian (network order) value of two octets. */
  function BE16(hi: byte, lo: byte): u16 {
    hi * 0x100 + lo
  }

  /** The two octets of a 16-bit value, most significant first. */
  function Octets16(v: u16): (r: seq<byte>)
    ensures |r| == 2 && BE16(r[0], r[1]) == v
  {
    [v / 0x100, v % 0x100]
  }

  /** A 16-bit value round-trips through its octets. */
  lemma OctetsBE16(hi: byte, lo: byte)
    ensures Octets16(BE16(hi, lo)) == [hi, lo]
  {
  }

  function Min(a: nat, b: nat): nat {
    if a <= b then a else b
  }

  /** The contents of `dst` after Go's `copy(dst, src)`: the common prefix length comes from `src`. */
  function CopyInto(dst: seq<byte>, src: seq<byte>): (r: seq<byte>)
    ensures |r| == |dst|
    ensures forall k :: 0 <= k < |r| ==> r[k] == if k < |src| then src[k] else dst[k]
  {
    src[..Min(|dst|, |src|)] + dst[Min(|dst|, |src|)..]
  }

  /** A source no longer than the destination replaces its front and keeps the rest. */
  lemma CopyIntoParts(dst: seq<byte>, src: seq<byte>)
    requires |src| <= |dst|
    ensures CopyInto(dst, src)[..|src|] == src
    ensures CopyInto(dst, src)[|src|..] == dst[|src|..]
  {
  }

  /** `copy(dst, src)` */
  method Copy(dst: array<byte>, src: seq<byte>)
    modifies dst
    ensures dst[..] == CopyInto(old(dst[..]), src)
  {
    var n := Min(dst.Length, |src|);
    forall k | 0 <= k < n {
      dst[k] := src[k];
    }
  }

  function Pow256(n: nat): (r: nat)
    ensures r >= 1
  {
    if n == 0 then 1 else 0x100 * Pow256(n - 1)
  }

  /** The unsigned value of octets read most significant first. */
  function BigEndian(s: seq<byte>): nat
  {
    if s == [] then 0 else s[0] * Pow256(|s| - 1) + BigEndian(s[1..])
  }

  lemma {:induction false} BigEndianBound(s: seq<byte>)
    ensures BigEndian(s) < Pow256(|s|)
  {
    if s != [] {
      BigEndianBound(s[1..]);
      MulLe(s[0], 0xff, Pow256(|s| - 1));
    }
  }

  lemma MulLe(a: nat, b: nat, p: nat)
    requires a <= b
    ensures a * p <= b * p
  {
  }

  /** A larger leading digit outweighs any lower digits. */
  lemma Dominant(a: nat, b: nat, x: nat, y: nat, p: nat)
    requires a < b && x < p
    ensures a * p + x < b * p + y
  {
    MulLe(a + 1, b, p);
    assert (a + 1) * p == a * p + p;
  }

  /** Lexicographic order on octet strings of equal length. */
  predicate LexLess(s: seq<byte>, t: seq<byte>)
    requires |s| == |t|
  {
    s != [] && (s[0] < t[0] || (s[0] == t[0] && LexLess(s[1..], t[1..])))
  }

  /** Comparing big-endian values is comparing the octets lexicographically. */
  lemma {:induction false} BigEndianOrder(s: seq<byte>, t: seq<byte>)
    requires |s| == |t|
    ensures LexLess(s, t) <==> BigEndian(s) < BigEndian(t)
  {
    if s != [] {
      var p := Pow256(|s| - 1);
      BigEndianBound(s[1..]);
      BigEndianBound(t[1..]);
      if s[0] < t[0] {
        Dominant(s[0], t[0], BigEndian(s[1..]), BigEndian(t[1..]), p);
      } else if t[0] < s[0] {
        Dominant(t[0], s[0], BigEndian(t[1..]), BigEndian(s[1..]), p);
      } else {
        BigEndianOrder(s[1..], t[1..]);
      }
    }
  }

  /** Two different octet strings of one length are ordered one way or the other. */
  lemma {:induction false} LexTotal(s: seq<byte>, t: seq<byte>)
    requires |s| == |t|
    ensures s == t || LexLess(s, t) || LexLess(t, s)
  {
    if s != [] && s[0] == t[0] {
      LexTotal(s[1..], t[1..]);
      assert s == [s[0]] + s[1..] && t == [t[0]] + t[1..];
    }
  }

  lemma BigEndianInjective(s: seq<byte>, t: seq<byte>)
    requires |s| == |t|
    ensures BigEndian(s) == BigEndian(t) <==> s == t
  {
    LexTotal(s, t);
    BigEndianOrder(s, t);
    BigEndianOrder(t, s);
  }

  lemma {:induction false} BigEndianZero(s: seq<byte>)
    ensures BigEndian(s) == 0 <==> forall k :: 0 <= k < |s| ==> s[k] == 0
  {
    if s != [] {
      BigEndianZero(s[1..]);
      assert forall k :: 1 <= k < |s| ==> s[k] == s[1..][k - 1];
    }
  }
}
