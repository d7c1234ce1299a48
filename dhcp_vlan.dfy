/**
 * `test_dhcp_vlan_configuration.py`: create VLAN sub-interface `.1` on one
 * port; on the leaf running the DHCP server, address it, restart the
 * server and capture untagged and then tagged DHCP traffic; on any other
 * switch, request addresses with dhclient on the port and on its VLAN and
 * check what was leased.
 */
module DhcpVlan {
  import opened Wrappers
  import opened PyStr
  import opened Recorder
  import VlanConfiguration

  datatype Params = Params(leafSwitch: string, eth: string)

  /** `switch_name[-2::]`, the last address octet on the leaf's VLAN. */
  function Third(sw: string): string {
    LastTwo(sw)
  }

  function Port(p: Params): string {
    "eth-" + p.eth + "-1"
  }

  function VlanPort(p: Params): string {
    Port(p) + ".1"
  }

  function AddVlan(p: Params): string {
    "ip link add link " + Port(p) + " name " + VlanPort(p) + " type vlan id " + p.eth
  }

  /** The leaf's address on the VLAN. */
  function LeafAddress(sw: string): string {
    "192.168.50." + Third(sw)
  }

  function AssignCmd(sw: string, p: Params): string {
    "ifconfig " + VlanPort(p) + " " + LeafAddress(sw) + "/24"
  }

  const Restart: string := "service isc-dhcp-server restart"

  function CaptureCmd(p: Params): string {
    "tcpdump -c 7 -G 10 -net -i " + Port(p) + " not arp and not icmp"
  }

  /** `if ip_out:` / `if cmd_out:` */
  predicate Truthy(o: Output) {
    o.Some? && o.value != ""
  }

  function OnSwitch(sw: string): string {
    "On switch " + sw + " "
  }

  function NoVlanLine(sw: string, p: Params): string {
    OnSwitch(sw) + "failed to configure vlan on interface " + VlanPort(p) + "\n"
  }

  function NoCaptureLine(sw: string): string {
    OnSwitch(sw) + "failed to capture tcpdump output\n"
  }

  function UntaggedLine(sw: string, p: Params): string {
    OnSwitch(sw) + "there are no dhcp packets and untagged packets " + "captured in tcpdump for " + Port(p) + "\n"
  }

  function TaggedLine(sw: string, p: Params): string {
    OnSwitch(sw) + "there are no dhcp packets and tagged packets " + "captured in tcpdump for " + Port(p) + "\n"
  }

  function NotAssignedLine(sw: string, port: string): string {
    OnSwitch(sw) + "failed to assign an ip from dhcp server " + "for " + port + "\n"
  }

  function NotFetchedLine(sw: string, port: string): string {
    OnSwitch(sw) + "failed to fetch an ip from dhcp server " + "for " + port + "\n"
  }

  /** The leaf's own address must show on the VLAN; no output passes. */
  function AddressJudge(sw: string, p: Params): Output -> Verdict {
    (o: Output) => if Truthy(o) && !Contains(o.value, LeafAddress(sw)) then Fail(NoVlanLine(sw, p)) else Pass
  }

  /** The untagged capture must show DHCP traffic (case-insensitively); no output fails. */
  function UntaggedJudge(sw: string, p: Params): Output -> Verdict {
    (o: Output) =>
      if !Truthy(o) then Fail(NoCaptureLine(sw))
      else if !Contains(Lower(o.value), "bootp/dhcp") then Fail(UntaggedLine(sw, p))
      else Pass
  }

  /** The tagged capture must show DHCP traffic, the 802.1Q tag and the VLAN id (case-insensitively); no output fails. */
  function TaggedJudge(sw: string, p: Params): Output -> Verdict {
    (o: Output) =>
      if !Truthy(o) then Fail(NoCaptureLine(sw))
      else
        var low := Lower(o.value);
        if !Contains(low, "bootp/dhcp") || !Contains(low, "802.1q (0x8100)") || !Contains(low, "vlan " + p.eth)
        then Fail(TaggedLine(sw, p))
        else Pass
  }

  /** A leased address must contain `prefix`; no output fails with a different line. */
  function LeaseJudge(sw: string, port: string, prefix: string): Output -> Verdict {
    (o: Output) =>
      if !Truthy(o) then Fail(NotFetchedLine(sw, port))
      else if !Contains(o.value, prefix) then Fail(NotAssignedLine(sw, port))
      else Pass
  }

  /** The leaf's records after the ports facing the packet generator are down. */
  function LeafSteps(sw: string, p: Params): seq<Op> {
    [Rec(AddVlan(p), Ignore),
     Rec(AssignCmd(sw, p), Ignore),
     Rec("ifconfig " + VlanPort(p), AddressJudge(sw, p)),
     Rec(Restart, Ignore),
     Rec(CaptureCmd(p), UntaggedJudge(sw, p)),
     Rec(CaptureCmd(p), TaggedJudge(sw, p))]
  }

  /** Any other switch's records: a lease on the port (`192.168.5...`), then on its VLAN (`192.168.50...`). */
  function ClientSteps(sw: string, p: Params): seq<Op> {
    [Rec(AddVlan(p), Ignore),
     Rec("dhclient " + Port(p), Ignore),
     Rec("ifconfig " + Port(p), LeaseJudge(sw, Port(p), "192.168.5")),
     Rec("dhclient " + VlanPort(p), Ignore),
     Rec("ifconfig " + VlanPort(p), LeaseJudge(sw, VlanPort(p), "192.168.50"))]
  }

  function Closing(): seq<Op> {
    [SetLog("result.detail"), Rec("goes status", Ignore)]
  }

  /** Everything `verify_vlan_configurations` records, in order. */
  function Script(sw: string, p: Params): seq<Op> {
    if sw == p.leafSwitch then VlanConfiguration.Downs(1, 33) + LeafSteps(sw, p) + Closing()
    else ClientSteps(sw, p) + Closing()
  }

  // ---------------------------------------------------------------------
  // The module

  /** `verify_vlan_configurations` */
  method VerifyVlanConfigurations(s: Session, p: Params)
    modifies s
    requires Plain(s.policy)
    ensures s.St() == Steps(s.E(), Acc(old(s.St()), ""), Script(s.switchName, p)).m
  {
    var summary := s.Run(Script(s.switchName, p), "");
  }

  /** `main`: verify, store the verdict, write the log. */
  method RunModule(s: Session, p: Params) returns (text: string)
    modifies s
    requires Plain(s.policy)
    ensures s.St() == WithStatus(Steps(s.E(), Acc(old(s.St()), ""), Script(s.switchName, p)).m)
    ensures text == LogText(s.dict)
  {
    VerifyVlanConfigurations(s, p);
    s.StoreStatus();
    text := WriteLog(s.dict);
  }

  // ---------------------------------------------------------------------
  // Properties

  /** The leaf brings down eth-2-1, eth-4-1, ..., eth-32-1 first, then runs the server side. */
  lemma LeafScript(sw: string, p: Params)
    requires sw == p.leafSwitch
    ensures |Script(sw, p)| == 24
    ensures Script(sw, p)[..16] == VlanConfiguration.EvenDowns(0, 16)
    ensures Script(sw, p)[16..22] == LeafSteps(sw, p)
    ensures Script(sw, p)[22..] == Closing()
  {
    VlanConfiguration.LeafDowns(1, 33, 0, 16);
    Parts(VlanConfiguration.Downs(1, 33), LeafSteps(sw, p), Closing());
  }

  lemma Parts<T>(a: seq<T>, b: seq<T>, c: seq<T>)
    ensures (a + b + c)[..|a|] == a && (a + b + c)[|a|..|a| + |b|] == b && (a + b + c)[|a| + |b|..] == c
  {
  }

  /** Any other switch brings nothing down and runs dhclient on the port before its VLAN. */
  lemma ClientScript(sw: string, p: Params)
    requires sw != p.leafSwitch
    ensures |Script(sw, p)| == 7
    ensures Script(sw, p)[0].Rec? && Script(sw, p)[0].cmd == AddVlan(p)
    ensures Script(sw, p)[1].Rec? && Script(sw, p)[1].cmd == "dhclient eth-" + p.eth + "-1"
    ensures Script(sw, p)[3].Rec? && Script(sw, p)[3].cmd == "dhclient eth-" + p.eth + "-1.1"
    ensures Script(sw, p)[5] == SetLog("result.detail")
  {
    assert Port(p) + ".1" == "eth-" + p.eth + "-1.1";
  }

  /** The address check fails exactly when there is output without the leaf's address. */
  lemma AddressSpec(sw: string, p: Params, o: Output)
    ensures AddressJudge(sw, p)(o).Fail? <==> Truthy(o) && !Contains(o.value, "192.168.50." + LastTwo(sw))
    ensures !AddressJudge(sw, p)(o).Note?
  {
  }

  /**
   * The untagged capture passes exactly when it has output mentioning
   * 'bootp/dhcp' in any case; the tagged one also needs the 802.1Q tag and
   * 'vlan <eth>'. Without output both fail with the same line.
   */
  lemma CaptureSpec(sw: string, p: Params, o: Output)
    ensures UntaggedJudge(sw, p)(o).Pass? <==> Truthy(o) && Contains(Lower(o.value), "bootp/dhcp")
    ensures TaggedJudge(sw, p)(o).Pass?
            <==> Truthy(o) && Contains(Lower(o.value), "bootp/dhcp")
                 && Contains(Lower(o.value), "802.1q (0x8100)") && Contains(Lower(o.value), "vlan " + p.eth)
    ensures TaggedJudge(sw, p)(o).Pass? ==> UntaggedJudge(sw, p)(o).Pass?
    ensures !Truthy(o) ==> UntaggedJudge(sw, p)(o) == TaggedJudge(sw, p)(o) == Fail(NoCaptureLine(sw))
    ensures !UntaggedJudge(sw, p)(o).Note? && !TaggedJudge(sw, p)(o).Note?
  {
  }

  /**
   * A lease check passes exactly when the output contains the prefix;
   * a missing output and a wrong address fail with different lines.
   */
  lemma LeaseSpec(sw: string, port: string, prefix: string, o: Output)
    ensures LeaseJudge(sw, port, prefix)(o).Pass? <==> Truthy(o) && Contains(o.value, prefix)
    ensures !Truthy(o) ==> LeaseJudge(sw, port, prefix)(o) == Fail(NotFetchedLine(sw, port))
    ensures Truthy(o) && !Contains(o.value, prefix) ==> LeaseJudge(sw, port, prefix)(o) == Fail(NotAssignedLine(sw, port))
    ensures NotFetchedLine(sw, port) != NotAssignedLine(sw, port)
  {
    var a, b := NotFetchedLine(sw, port), NotAssignedLine(sw, port);
    assert a[|OnSwitch(sw)| + 10] == 'f' && b[|OnSwitch(sw)| + 10] == 'a';
  }

  /** A lease on the VLAN (`192.168.50...`) also satisfies the port's looser check (`192.168.5...`). */
  lemma LeaseNarrows(sw: string, port: string, port2: string, o: Output)
    requires LeaseJudge(sw, port, "192.168.50")(o).Pass?
    ensures LeaseJudge(sw, port2, "192.168.5")(o).Pass?
  {
    ContainsAt("192.168.50", "192.168.5", 0);
    ContainsTrans(o.value, "192.168.50", "192.168.5");
  }
}
