/** `netlink` Foo-over-UDP: the local record of configured FOU ports and the requests that change it. */
module Fou {
  import opened Bytes
  import opened Wrappers

  /** Generic-netlink commands of the "fou" family. */
  const CmdUnspec: nat := 0
  const CmdAdd: nat := 1
  const CmdDel: nat := 2
  const CmdGet: nat := 3

  /** Attribute numbers of the "fou" family. */
  const AttrUnspec: nat := 0
  const AttrPort: nat := 1
  const AttrAf: nat := 2
  const AttrIpProto: nat := 3
  const AttrType: nat := 4
  const AttrRemCsumNopartial: nat := 5

  /** `FouPort`, the key of the port set; the UDP port is kept in network byte order. */
  datatype FouPort = FouPort(addressFamily: byte, encap: byte, ipProtocol: byte, remCsumNopartial: bool, udpPort: u16)

  datatype Attr = Uint8Attr(u8: byte) | Uint16Attr(u16: u16)

  /** A generic-netlink message: the command and its attributes by number. */
  datatype Message = Message(cmd: nat, attrs: map<nat, Attr>)

  /** The ports a possibly nil `Ports` map holds. */
  function Members(ports: Option<set<FouPort>>): set<FouPort> {
    if ports.Some? then ports.value else {}
  }

  /**
   * The value of `Ports` after `addDelPort(p, isDel)`: deleting needs no map
   * (deleting from a nil map does nothing); adding allocates one when nil.
   */
  function PortsAfter(ports: Option<set<FouPort>>, p: FouPort, isDel: bool): (r: Option<set<FouPort>>)
    ensures Members(r) == if isDel then Members(ports) - {p} else Members(ports) + {p}
    ensures if isDel then r.Some? == ports.Some? else r.Some?
  {
    if isDel then (if ports.Some? then Some(ports.value - {p}) else ports)
    else Some(Members(ports) + {p})
  }

  /** No port other than `p` changes membership. */
  lemma AddDelOthers(ports: Option<set<FouPort>>, p: FouPort, isDel: bool, q: FouPort)
    requires q != p
    ensures q in Members(PortsAfter(ports, p, isDel)) <==> q in Members(ports)
  {
  }

  /** Adding twice is adding once. */
  lemma AddIdempotent(ports: Option<set<FouPort>>, p: FouPort)
    ensures PortsAfter(PortsAfter(ports, p, false), p, false) == PortsAfter(ports, p, false)
  {
  }

  /** Deleting an absent port, or deleting from a nil map, leaves `Ports` as it was. */
  lemma DeleteAbsent(ports: Option<set<FouPort>>, p: FouPort)
    requires p !in Members(ports)
    ensures PortsAfter(ports, p, true) == ports
  {
    if ports.Some? {
      assert ports.value - {p} == ports.value;
    }
  }

  /** Deleting what was just added restores a map that lacked the port. */
  lemma DeleteUndoesAdd(ports: set<FouPort>, p: FouPort)
    requires p !in ports
    ensures PortsAfter(PortsAfter(Some(ports), p, false), p, true) == Some(ports)
  {
    assert ports + {p} - {p} == ports;
  }

  /** The request `AddDel` sends: ADD or DEL, with TYPE, AF, IPPROTO and PORT from the port. */
  function Request(p: FouPort, isDel: bool): (m: Message)
    ensures m.cmd == CmdDel <==> isDel
    ensures m.cmd == CmdAdd <==> !isDel
    ensures m.attrs.Keys == {AttrType, AttrAf, AttrIpProto, AttrPort}
  {
    Message(if isDel then CmdDel else CmdAdd,
            map[AttrType := Uint8Attr(p.encap), AttrAf := Uint8Attr(p.addressFamily),
                AttrIpProto := Uint8Attr(p.ipProtocol), AttrPort := Uint16Attr(p.udpPort)])
  }

  /** A dump reply carries the four attributes `Get` reads, with the types it asserts. */
  predicate WellFormedReply(attrs: map<nat, Attr>) {
    && AttrType in attrs && attrs[AttrType].Uint8Attr?
    && AttrAf in attrs && attrs[AttrAf].Uint8Attr?
    && AttrIpProto in attrs && attrs[AttrIpProto].Uint8Attr?
    && AttrPort in attrs && attrs[AttrPort].Uint16Attr?
  }

  /** The port `Get` builds from a reply; the checksum flag is never read back. */
  function PortOf(attrs: map<nat, Attr>): FouPort
    requires WellFormedReply(attrs)
  {
    FouPort(attrs[AttrAf].u8, attrs[AttrType].u8, attrs[AttrIpProto].u8, false, attrs[AttrPort].u16)
  }

  /** Reading back a request gives the port it was made from, except its checksum flag. */
  lemma PortOfRequest(p: FouPort, isDel: bool)
    ensures WellFormedReply(Request(p, isDel).attrs)
    ensures PortOf(Request(p, isDel).attrs) == p.(remCsumNopartial := false)
  {
  }

  /** The replies read by `Get`: each generic message adds its port; the first other message ends the dump. */
  function Load(ports: Option<set<FouPort>>, replies: seq<Option<Message>>): (r: Option<set<FouPort>>)
    requires forall i :: 0 <= i < |replies| && replies[i].Some? ==> WellFormedReply(replies[i].value.attrs)
    ensures Members(ports) <= Members(r)
    ensures Dumped(replies) == 0 ==> r == ports
    ensures Dumped(replies) > 0 ==> r.Some?
    decreases |replies|
  {
    if replies == [] || replies[0].None? then ports
    else Load(PortsAfter(ports, PortOf(replies[0].value.attrs), false), replies[1..])
  }

  /** The replies before the first non-generic message. */
  function Dumped(replies: seq<Option<Message>>): (r: nat)
    ensures r <= |replies|
    ensures forall i :: 0 <= i < r ==> replies[i].Some?
    ensures r < |replies| ==> replies[r].None?
  {
    if replies == [] || replies[0].None? then 0 else 1 + Dumped(replies[1..])
  }

  /** After the dump, the set holds what it held plus every dumped port, and nothing else. */
  lemma {:induction false} LoadMembers(ports: Option<set<FouPort>>, replies: seq<Option<Message>>, q: FouPort)
    requires forall i :: 0 <= i < |replies| && replies[i].Some? ==> WellFormedReply(replies[i].value.attrs)
    ensures q in Members(Load(ports, replies)) <==>
            q in Members(ports) || exists i :: 0 <= i < Dumped(replies) && PortOf(replies[i].value.attrs) == q
    decreases |replies|
  {
    if replies != [] && replies[0].Some? {
      var next := PortsAfter(ports, PortOf(replies[0].value.attrs), false);
      LoadMembers(next, replies[1..], q);
      var n := Dumped(replies);
      assert forall i :: 1 <= i < n ==> replies[i] == replies[1..][i - 1];
      if q in Members(next) && q !in Members(ports) {
        assert PortOf(replies[0].value.attrs) == q;
      }
      if exists i :: 0 <= i < Dumped(replies[1..]) && PortOf(replies[1..][i].value.attrs) == q {
        var i :| 0 <= i < Dumped(replies[1..]) && PortOf(replies[1..][i].value.attrs) == q;
        assert PortOf(replies[i + 1].value.attrs) == q;
      }
    }
  }

  /** `FouMain`: the FOU ports known on this side of the socket. */
  class FouMain {
    var ports: Option<set<FouPort>>

    constructor ()
      ensures ports == None
    {
      ports := None;
    }

    method AddDelPort(p: FouPort, isDel: bool)
      modifies this
      ensures ports == PortsAfter(old(ports), p, isDel)
    {
      if isDel {
        if ports.Some? {
          ports := Some(ports.value - {p});
        }
      } else {
        if ports.None? {
          ports := Some({});
        }
        ports := Some(ports.value + {p});
      }
    }

    /**
     * `AddDel(s, p, isDel)`. Whether the socket could build the request is
     * `requestOk`; when it could not, nothing is sent or changed.
     */
    method AddDel(requestOk: bool, p: FouPort, isDel: bool) returns (sent: Option<Message>, failed: bool)
      modifies this
      ensures failed == !requestOk
      ensures requestOk ==> sent == Some(Request(p, isDel)) && ports == PortsAfter(old(ports), p, isDel)
      ensures !requestOk ==> sent == None && ports == old(ports)
    {
      if !requestOk {
        return None, true;
      }
      var cmd := CmdAdd;
      if isDel {
        cmd := CmdDel;
      }
      var attrs: map<nat, Attr> := map[];
      attrs := attrs[AttrType := Uint8Attr(p.encap)];
      attrs := attrs[AttrAf := Uint8Attr(p.addressFamily)];
      attrs := attrs[AttrIpProto := Uint8Attr(p.ipProtocol)];
      attrs := attrs[AttrPort := Uint16Attr(p.udpPort)];
      sent := Some(Message(cmd, attrs));
      AddDelPort(p, isDel);
      failed := false;
    }

    /**
     * `Get(s)`: the dump replies arrive as `replies`, `None` standing for
     * the message that is not a generic one and ends the loop.
     */
    method Get(requestOk: bool, replies: seq<Option<Message>>) returns (failed: bool)
      requires forall i :: 0 <= i < |replies| && replies[i].Some? ==> WellFormedReply(replies[i].value.attrs)
      modifies this
      ensures failed == !requestOk
      ensures ports == if requestOk then Load(old(ports), replies) else old(ports)
    {
      if !requestOk {
        return true;
      }
      var k := 0;
      while k < |replies| && replies[k].Some?
        invariant 0 <= k <= |replies|
        invariant Load(old(ports), replies) == Load(ports, replies[k..])
      {
        assert replies[k..][1..] == replies[k + 1..];
        AddDelPort(PortOf(replies[k].value.attrs), false);
        k := k + 1;
      }
      failed := false;
    }
  }
}
