/**
 * `test_vlan_configuration.py`: create VLAN sub-interfaces on the listed
 * ports, give them addresses, check the addresses, and check on the spine
 * that tagged frames arrive (or, in lldp mode, on every switch).
 */
module VlanConfiguration {
  import opened Wrappers
  import opened PyStr
  import opened PyList
  import opened OrderedDict
  import opened Recorder

  datatype Params = Params(
    spineList: seq<string>, leafSwitch: string, ethList: string,
    arping: bool, lldp: bool, multipleVlan: bool)

  /** `eth_list.split(',')` */
  function Eths(p: Params): seq<string> {
    Split(p.ethList, ",")
  }

  /** `switch_name[-2::]` */
  function Third(sw: string): string {
    LastTwo(sw)
  }

  function DownCmd(n: nat): string {
    "ifconfig eth-" + NatToStr(n) + "-1 down"
  }

  /** `for eth in [x for x in range(lo, hi) if x % 2 == 0]` */
  function Downs(lo: nat, hi: nat): seq<Op>
    decreases hi - lo
  {
    if lo >= hi then []
    else (if lo % 2 == 0 then [Rec(DownCmd(lo), Ignore)] else []) + Downs(lo + 1, hi)
  }

  /** One VLAN sub-interface: port, subport and the VLAN id (also the third address octet). */
  datatype Vlan = Vlan(eth: string, sub: string, id: string)

  /** `int(eth) + s`, the id of subport `s` in multiple-VLAN mode. */
  function SubId(eth: string, s: nat): string
    requires IsDecimal(eth)
  {
    NatToStr(DecValue(eth) + s)
  }

  /** The sub-interfaces of one port: `.1` with id `eth`, or `.1`..`.4` with ids `int(eth)+1`.. in multiple mode. */
  function VlansOf(p: Params, eth: string): seq<Vlan>
    requires p.multipleVlan ==> IsDecimal(eth)
  {
    if !p.multipleVlan then [Vlan(eth, "1", eth)]
    else [Vlan(eth, "1", SubId(eth, 1)), Vlan(eth, "2", SubId(eth, 2)),
          Vlan(eth, "3", SubId(eth, 3)), Vlan(eth, "4", SubId(eth, 4))]
  }

  /** `int(eth)` succeeds when multiple-VLAN mode needs it. */
  predicate IdsParse(p: Params) {
    p.multipleVlan ==> forall i :: 0 <= i < |Eths(p)| ==> IsDecimal(Eths(p)[i])
  }

  /** Every sub-interface, in loop order. */
  function Vlans(p: Params): seq<Vlan>
    requires IdsParse(p)
  {
    VlansAcross(p, Eths(p))
  }

  function VlansAcross(p: Params, eths: seq<string>): seq<Vlan>
    requires p.multipleVlan ==> forall i :: 0 <= i < |eths| ==> IsDecimal(eths[i])
    decreases |eths|
  {
    if eths == [] then [] else VlansOf(p, eths[0]) + VlansAcross(p, eths[1..])
  }

  function Name(v: Vlan): string {
    "eth-" + v.eth + "-1." + v.sub
  }

  function Address(v: Vlan, third: string): string {
    "192.168." + v.id + "." + third
  }

  function Configure(v: Vlan, third: string): seq<Op> {
    [Rec("ip link add link eth-" + v.eth + "-1 name " + Name(v) + " type vlan id " + v.id, Ignore),
     Rec("ifconfig " + Name(v) + " " + Address(v, third) + "/24", Ignore)]
  }

  function VlanLine(sw: string, v: Vlan): string {
    "On switch " + sw + " " + "failed to configure vlan on interface " + Name(v) + "\n"
  }

  /** `if ip_out: if address not in ip_out:` fails. */
  function AddressTest(sw: string, v: Vlan, third: string): Output -> Verdict {
    (o: Output) =>
      if o.Some? && o.value != "" && !Contains(o.value, Address(v, third)) then Fail(VlanLine(sw, v)) else Pass
  }

  function VerifyAddress(sw: string, v: Vlan): seq<Op> {
    [Rec("ifconfig " + Name(v), AddressTest(sw, v, Third(sw)))]
  }

  function NoTagLine(sw: string, eth: string): string {
    "On switch " + sw + " " + "there are no vlan tagged packets " + "captured in tcpdump for eth-" + eth + "-1\n"
  }

  function NoCaptureLine(sw: string): string {
    "On switch " + sw + " " + "failed to capture tcpdump output\n"
  }

  /** The tcpdump test: tagged frames of VLAN `id` must show; no output fails too. */
  function TagTest(sw: string, eth: string, id: string): Output -> Verdict {
    (o: Output) =>
      if o.Some? && o.value != "" then
        if !Contains(o.value, "802.1Q (0x8100)") || !Contains(o.value, "vlan " + id) then Fail(NoTagLine(sw, eth)) else Pass
      else Fail(NoCaptureLine(sw))
  }

  /** `spine_list[eth_list.index(eth)][-2::]` */
  function SpineOctet(p: Params, eth: string): string
    requires eth in Eths(p) && IndexOf(Eths(p), eth) < |p.spineList|
  {
    LastTwo(p.spineList[IndexOf(Eths(p), eth)])
  }

  /** The leaf's arping or pings towards the spine behind `eth`. */
  function LeafProbe(p: Params, eth: string): seq<Op>
    requires eth in Eths(p) && IndexOf(Eths(p), eth) < |p.spineList|
    requires p.multipleVlan ==> IsDecimal(eth)
  {
    var last := SpineOctet(p, eth);
    if p.arping then [Rec("arping -C 15 -I eth-" + eth + "-1.1 192.168." + eth + "." + last, Ignore)]
    else if !p.multipleVlan then [Rec("ping -c 15 192.168." + eth + "." + last, Ignore)]
    else ProbeAll(VlansOf(p, eth), last)
  }

  function ProbeAll(vs: seq<Vlan>, last: string): seq<Op>
    decreases |vs|
  {
    if vs == [] then [] else [Rec("ping -c 10 192.168." + vs[0].id + "." + last, Ignore)] + ProbeAll(vs[1..], last)
  }

  function LeafProbes(p: Params, eths: seq<string>): seq<Op>
    requires forall i :: 0 <= i < |eths| ==> eths[i] in Eths(p) && IndexOf(Eths(p), eths[i]) < |p.spineList|
    requires p.multipleVlan ==> forall i :: 0 <= i < |eths| ==> IsDecimal(eths[i])
    decreases |eths|
  {
    if eths == [] then [] else LeafProbe(p, eths[0]) + LeafProbes(p, eths[1..])
  }

  /** The spine's capture on the port at its own index in `spine_list`. */
  function SpineCapture(sw: string, p: Params): seq<Op>
    requires sw in p.spineList && IndexOf(p.spineList, sw) < |Eths(p)|
    requires IdsParse(p)
  {
    var eth := Eths(p)[IndexOf(p.spineList, sw)];
    var cmd := "tcpdump -c 15 -net -i eth-" + eth + "-1 " + (if p.arping then "arp" else "icmp");
    CaptureAll(sw, eth, cmd, VlansOf(p, eth))
  }

  function CaptureAll(sw: string, eth: string, cmd: string, vs: seq<Vlan>): seq<Op>
    decreases |vs|
  {
    if vs == [] then [] else [Rec(cmd, TagTest(sw, eth, vs[0].id))] + CaptureAll(sw, eth, cmd, vs[1..])
  }

  function LldpCmd(eth: string): string {
    "tcpdump -c 7 -G 10 -net -i eth-" + eth + "-1 not proto ospf and not arp -vvv"
  }

  function LldpCheck(sw: string, eth: string): seq<Op> {
    [Rec(LldpCmd(eth), TagTest(sw, eth, eth))]
  }

  /** What `verify_vlan_configurations` needs for its indexing and `int` calls to succeed. */
  predicate Valid(sw: string, p: Params) {
    IdsParse(p)
    && (!p.lldp && sw == p.leafSwitch ==>
          forall i :: 0 <= i < |Eths(p)| ==> IndexOf(Eths(p), Eths(p)[i]) < |p.spineList|)
    && (!p.lldp && sw != p.leafSwitch ==> sw in p.spineList && IndexOf(p.spineList, sw) < |Eths(p)|)
  }

  /** The traffic phase. */
  function Probes(sw: string, p: Params): seq<Op>
    requires Valid(sw, p)
  {
    if p.lldp then FlatMap(Eths(p), (eth: string) => LldpCheck(sw, eth))
    else if sw == p.leafSwitch then LeafProbes(p, Eths(p))
    else SpineCapture(sw, p)
  }

  /** Everything `verify_vlan_configurations` records, in order. */
  function Script(sw: string, p: Params): seq<Op>
    requires Valid(sw, p)
  {
    (if sw == p.leafSwitch then EvenDowns(0, 16) else [])
    + FlatMap(Vlans(p), (v: Vlan) => Configure(v, Third(sw)))
    + FlatMap(Vlans(p), (v: Vlan) => VerifyAddress(sw, v))
    + Probes(sw, p)
    + [SetLog("result.detail"), Rec("goes status", Ignore)]
  }

  // ---------------------------------------------------------------------
  // The module

  /** `verify_vlan_configurations` */
  method VerifyVlanConfigurations(s: Session, p: Params)
    modifies s
    requires Plain(s.policy)
    requires Valid(s.switchName, p)
    ensures s.St() == Steps(s.E(), Acc(old(s.St()), ""), Script(s.switchName, p)).m
  {
    var summary := s.Run(Script(s.switchName, p), "");
  }

  /** `main`: verify, store the verdict, write the log. */
  method RunModule(s: Session, p: Params) returns (text: string)
    modifies s
    requires Plain(s.policy)
    requires Valid(s.switchName, p)
    ensures s.St() == WithStatus(Steps(s.E(), Acc(old(s.St()), ""), Script(s.switchName, p)).m)
    ensures text == LogText(s.dict)
  {
    VerifyVlanConfigurations(s, p);
    s.StoreStatus();
    text := WriteLog(s.dict);
  }

  // ---------------------------------------------------------------------
  // Properties

  /** The records that bring down the even ports `2 * (j + 1)`, ..., `2 * n`, in ascending order. */
  function EvenDowns(j: nat, n: nat): (r: seq<Op>)
    requires j <= n
    ensures |r| == n - j
  {
    seq(n - j, (k: nat) => Rec(DownCmd(2 * (j + k + 1)), Ignore))
  }

  /** From an odd start, the even ports below `2 * n + 1` are brought down in ascending order. */
  lemma {:induction false} DownsEven(j: nat, n: nat)
    requires j <= n
    ensures Downs(2 * j + 1, 2 * n + 1) == EvenDowns(j, n)
    decreases n - j
  {
    if j < n {
      DownsEven(j + 1, n);
      assert Downs(2 * j + 2, 2 * n + 1) == [Rec(DownCmd(2 * j + 2), Ignore)] + EvenDowns(j + 1, n);
      assert Downs(2 * j + 1, 2 * n + 1) == [] + Downs(2 * j + 2, 2 * n + 1);
      assert EvenDowns(j, n) == [Rec(DownCmd(2 * j + 2), Ignore)] + EvenDowns(j + 1, n);
    }
  }

  /** The leaf's comprehension over `range(1, 33)` brings down eth-2-1, eth-4-1, ..., eth-32-1 ... */
  lemma LeafDowns(lo: nat, hi: nat, j: nat, n: nat)
    requires lo == 1 && hi == 33 && j == 0 && n == 16
    ensures Downs(lo, hi) == EvenDowns(j, n)
  {
    DownsEven(j, n);
  }

  /** ... and those are the first sixteen records of its script. */
  lemma LeafDownsFirst(sw: string, p: Params)
    requires Valid(sw, p) && sw == p.leafSwitch
    ensures Script(sw, p)[..16] == EvenDowns(0, 16)
  {
    PrefixOf(EvenDowns(0, 16), FlatMap(Vlans(p), (v: Vlan) => Configure(v, Third(sw))),
             FlatMap(Vlans(p), (v: Vlan) => VerifyAddress(sw, v)), Probes(sw, p),
             [SetLog("result.detail"), Rec("goes status", Ignore)]);
  }

  lemma PrefixOf<T>(e: seq<T>, a: seq<T>, b: seq<T>, c: seq<T>, d: seq<T>)
    ensures (e + a + b + c + d)[..|e|] == e
  {
    assert e + a + b + c + d == e + (a + b + c + d);
  }

  /** Off the leaf nothing is brought down: the script opens with the first configuration command, if any. */
  lemma OthersConfigureFirst(sw: string, p: Params)
    requires Valid(sw, p) && sw != p.leafSwitch && Vlans(p) != []
    ensures Script(sw, p)[0] == Configure(Vlans(p)[0], Third(sw))[0]
  {
    var f := (v: Vlan) => Configure(v, Third(sw));
    assert FlatMap(Vlans(p), f) == f(Vlans(p)[0]) + FlatMap(Vlans(p)[1..], f);
  }

  /** Port `i` of the list owns the sub-interfaces at positions `k*i .. k*i+k-1`, `k` being 1 or 4. */
  lemma {:induction false} VlansAt(p: Params, eths: seq<string>, i: nat, j: nat)
    requires p.multipleVlan ==> forall m :: 0 <= m < |eths| ==> IsDecimal(eths[m])
    requires i < |eths| && j < (if p.multipleVlan then 4 else 1)
    ensures var k := if p.multipleVlan then 4 else 1;
            |VlansAcross(p, eths)| == k * |eths| && k * i + j < k * |eths|
            && VlansAcross(p, eths)[k * i + j] == VlansOf(p, eths[i])[j]
    decreases |eths|
  {
    var k := if p.multipleVlan then 4 else 1;
    VlansLength(p, eths);
    BlockInRange(k, i, j, |eths|);
    if i > 0 {
      VlansAt(p, eths[1..], i - 1, j);
      BlockShift(k, i, j);
      assert eths[1..][i - 1] == eths[i];
    }
  }

  lemma {:induction false} VlansLength(p: Params, eths: seq<string>)
    requires p.multipleVlan ==> forall m :: 0 <= m < |eths| ==> IsDecimal(eths[m])
    ensures |VlansAcross(p, eths)| == (if p.multipleVlan then 4 else 1) * |eths|
    decreases |eths|
  {
    if eths != [] {
      VlansLength(p, eths[1..]);
      BlockShift(if p.multipleVlan then 4 else 1, |eths|, 0);
    }
  }

  /** Single-VLAN mode: port E gets eth-E-1.1 with VLAN id E and address 192.168.E.<third>. */
  lemma SingleVlan(sw: string, p: Params, i: nat)
    requires Valid(sw, p) && !p.multipleVlan && i < |Eths(p)|
    ensures |Vlans(p)| == |Eths(p)|
    ensures Vlans(p)[i] == Vlan(Eths(p)[i], "1", Eths(p)[i])
    ensures Address(Vlans(p)[i], Third(sw)) == "192.168." + Eths(p)[i] + "." + LastTwo(sw)
  {
    VlansAt(p, Eths(p), i, 0);
  }

  /** Multiple-VLAN mode: port E gets eth-E-1.s with VLAN id int(E)+s, for s = 1..4. */
  lemma MultipleVlan(sw: string, p: Params, i: nat, s: nat)
    requires Valid(sw, p) && p.multipleVlan && i < |Eths(p)| && 1 <= s <= 4
    ensures |Vlans(p)| == 4 * |Eths(p)| && 4 * i + (s - 1) < |Vlans(p)|
    ensures Vlans(p)[4 * i + (s - 1)] == Vlan(Eths(p)[i], NatToStr(s), NatToStr(DecValue(Eths(p)[i]) + s))
  {
    VlansAt(p, Eths(p), i, s - 1);
  }

  /** Each sub-interface is created and then addressed, in that order, two records apiece. */
  lemma ConfigureAt(sw: string, p: Params, n: nat)
    requires Valid(sw, p) && n < |Vlans(p)|
    ensures var c := FlatMap(Vlans(p), (v: Vlan) => Configure(v, Third(sw)));
            |c| == 2 * |Vlans(p)| && c[2 * n].Rec? && c[2 * n + 1].Rec?
            && c[2 * n].cmd == "ip link add link eth-" + Vlans(p)[n].eth + "-1 name " + Name(Vlans(p)[n])
                                + " type vlan id " + Vlans(p)[n].id
            && c[2 * n + 1].cmd == "ifconfig " + Name(Vlans(p)[n]) + " " + Address(Vlans(p)[n], Third(sw)) + "/24"
  {
    var f := (v: Vlan) => Configure(v, Third(sw));
    FlatMapAt(Vlans(p), f, 2, n, 0);
    FlatMapAt(Vlans(p), f, 2, n, 1);
  }

  /** The address check fails exactly when there is output and it lacks the address; `None` passes. */
  lemma AddressTestSpec(sw: string, v: Vlan, third: string, o: Output)
    ensures AddressTest(sw, v, third)(o).Fail? <==> o.Some? && o.value != "" && !Contains(o.value, Address(v, third))
    ensures AddressTest(sw, v, third)(None) == Pass
    ensures !AddressTest(sw, v, third)(o).Note?
  {
  }

  /** The capture check fails without output, or when the 802.1Q tag or the VLAN id is missing. */
  lemma TagTestSpec(sw: string, eth: string, id: string, o: Output)
    ensures var v := TagTest(sw, eth, id)(o);
            (v.Fail? <==> o.None? || o.value == "" || !Contains(o.value, "802.1Q (0x8100)") || !Contains(o.value, "vlan " + id))
            && (o.None? ==> v == Fail(NoCaptureLine(sw)))
            && !v.Note?
  {
  }

  /** In lldp mode every switch, leaf or not, captures on every listed port. */
  lemma LldpChecksAll(sw: string, p: Params, i: nat)
    requires Valid(sw, p) && p.lldp && i < |Eths(p)|
    ensures |Probes(sw, p)| == |Eths(p)|
    ensures Probes(sw, p)[i].Rec? && Probes(sw, p)[i].cmd == LldpCmd(Eths(p)[i])
    ensures Probes(sw, p)[i].judge == TagTest(sw, Eths(p)[i], Eths(p)[i])
  {
    FlatMapAt(Eths(p), (eth: string) => LldpCheck(sw, eth), 1, i, 0);
  }

  /** With distinct ports, the leaf probes port `i` towards the spine listed at position `i`. */
  lemma LeafTarget(p: Params, i: nat)
    requires i < |Eths(p)| && i < |p.spineList|
    requires forall m :: 0 <= m < i ==> Eths(p)[m] != Eths(p)[i]
    ensures SpineOctet(p, Eths(p)[i]) == LastTwo(p.spineList[i])
  {
    IndexOfDistinct(Eths(p), i);
  }

  /** A repeated port reuses the spine of its first occurrence. */
  lemma LeafTargetRepeated(p: Params, i: nat, j: nat)
    requires j < i < |Eths(p)| && Eths(p)[j] == Eths(p)[i] && IndexOf(Eths(p), Eths(p)[i]) < |p.spineList|
    ensures SpineOctet(p, Eths(p)[i]) == SpineOctet(p, Eths(p)[j])
  {
  }

  lemma IndexOfDistinct<T>(xs: seq<T>, i: nat)
    requires i < |xs| && forall m :: 0 <= m < i ==> xs[m] != xs[i]
    ensures IndexOf(xs, xs[i]) == i
  {
  }
}
