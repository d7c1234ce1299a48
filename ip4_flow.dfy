/** `vnet/ip4` flows: the 5-tuple-like key of a packet and its reverse direction. */
module Ip4Flow {
  import opened Bytes
  import opened Wrappers
  import opened Ip4

  /** Protocol numbers of the IANA registry that `getFlow` distinguishes. */
  const ICMP: byte := 1
  const TCP: byte := 6
  const UDP: byte := 17

  /** `Flow`: the ICMP type goes in `extra`; the ports are set only for TCP and UDP. */
  datatype Flow = Flow(protocol: byte, extra: byte, srcPort: u16, dstPort: u16, src: Address, dst: Address)

  /**
   * `GetPayload()`: the payload starts 4 * IHL bytes into the header, IHL
   * being the low nibble of the version/header-length octet.
   */
  function PayloadOffset(h: Fields): (r: nat)
    ensures r == 4 * (h.verIhl % 16) && r <= 60
  {
    4 * (h.verIhl % 16)
  }

  /** A header without options (0x45) has its payload right after the 20 fixed bytes. */
  lemma PayloadOffsetMinimal(h: Fields)
    requires h.verIhl == 0x45
    ensures PayloadOffset(h) == SizeofHeader
  {
  }

  /** The version nibble does not move the payload. */
  lemma PayloadOffsetIgnoresVersion(h: Fields, v: byte)
    requires v % 16 == h.verIhl % 16
    ensures PayloadOffset(h.(verIhl := v)) == PayloadOffset(h)
  {
  }

  /** How many payload bytes `getFlow` reads for a protocol. */
  function Needed(protocol: byte): nat {
    if protocol == ICMP then 1 else if protocol == TCP || protocol == UDP then 4 else 0
  }

  /**
   * `GetFlow(payload)`: a nil payload gives a nil address, which only
   * ICMP, TCP and UDP dereference; a non-nil one must have a first byte.
   */
  function GetFlow(h: Fields, payload: Option<seq<byte>>): (f: Flow)
    requires payload.Some? ==> |payload.value| > 0
    requires Needed(h.protocol) > 0 ==> payload.Some? && |payload.value| >= Needed(h.protocol)
    ensures f.protocol == h.protocol && f.src == h.src && f.dst == h.dst
    ensures f.extra == (if h.protocol == ICMP then payload.value[0] else 0)
    ensures (f.srcPort, f.dstPort) == (if h.protocol == TCP || h.protocol == UDP
              then (BE16(payload.value[0], payload.value[1]), BE16(payload.value[2], payload.value[3]))
              else (0, 0))
  {
    var f := Flow(h.protocol, 0, 0, 0, h.src, h.dst);
    if h.protocol == ICMP then f.(extra := payload.value[0])
    else if h.protocol == TCP || h.protocol == UDP then
      var p := payload.value;
      f.(srcPort := BE16(p[0], p[1]), dstPort := BE16(p[2], p[3]))
    else f
  }

  /**
   * `GetFlow(r)` on a packet buffer: the header at the front and the
   * transport header where `GetPayload` points. Go forms that address
   * without a bounds check and reads it only for ICMP, TCP and UDP, so an
   * offset at or past the end of the buffer is harmless for the other
   * protocols; the model passes no payload there.
   */
  function PacketFlow(pkt: seq<byte>): (f: Flow)
    requires |pkt| >= SizeofHeader
    requires PayloadOffset(Decode(pkt)) + Needed(Decode(pkt).protocol) <= |pkt|
    ensures f.src == pkt[12..16] && f.dst == pkt[16..20] && f.protocol == pkt[9]
    ensures var o := 4 * (pkt[0] % 16);
            f.extra == (if pkt[9] == ICMP then pkt[o] else 0)
    ensures var o := 4 * (pkt[0] % 16);
            (f.srcPort, f.dstPort) == (if pkt[9] == TCP || pkt[9] == UDP
              then (BE16(pkt[o], pkt[o + 1]), BE16(pkt[o + 2], pkt[o + 3]))
              else (0, 0))
  {
    var h := Decode(pkt);
    var o := PayloadOffset(h);
    GetFlow(h, if o < |pkt| then Some(pkt[o..]) else None)
  }

  /** `Reverse()`: the other direction of the same conversation. */
  function Reverse(f: Flow): (r: Flow)
    ensures r.src == f.dst && r.dst == f.src && r.srcPort == f.dstPort && r.dstPort == f.srcPort
    ensures r.protocol == f.protocol && r.extra == f.extra
  {
    f.(src := f.dst, dst := f.src, srcPort := f.dstPort, dstPort := f.srcPort)
  }

  lemma ReverseInvolution(f: Flow)
    ensures Reverse(Reverse(f)) == f
  {
  }

  /** The reply to a packet: addresses swapped, and for TCP/UDP the ports too. */
  function Reply(h: Fields, payload: Option<seq<byte>>): (Fields, Option<seq<byte>>)
    requires payload.Some? ==> |payload.value| >= 4
  {
    var h' := h.(src := h.dst, dst := h.src);
    match payload
    case None => (h', None)
    case Some(p) => (h', Some(p[2..4] + p[0..2] + p[4..]))
  }

  /** The flow of a reply packet is the reverse of the flow of the packet. */
  lemma ReplyFlow(h: Fields, payload: Option<seq<byte>>)
    requires h.protocol != ICMP
    requires payload.Some? ==> |payload.value| >= 4
    requires (h.protocol == TCP || h.protocol == UDP) ==> payload.Some?
    ensures var r := Reply(h, payload);
            GetFlow(r.0, r.1) == Reverse(GetFlow(h, payload))
  {
  }
}
