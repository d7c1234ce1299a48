/**
 * `ospf/test_ospf_traffic.py`: address the interfaces named by the quagga
 * configuration's network lines (a dummy interface for the switch's own
 * network), restart quagga, then on a leaf check that the OSPF routes to
 * every leaf's network are installed and that the first other leaf
 * answers a ping.
 */
module OspfTraffic {
  import opened Wrappers
  import opened PyStr
  import opened PyList
  import opened Recorder
  import BgpPeeringIfDown

  datatype Params = Params(leafList: seq<string>, packageName: string, config: string)

  /** The commands a run issues and whether it reaches the end (`false`: Python raises after them). */
  datatype Plan = Plan(ops: seq<Op>, completes: bool)

  const Netmask: string := "netmask 255.255.255.0"
  const RoutesCmd: string := "vtysh -c 'sh ip route ospf'"

  // ---------------------------------------------------------------------
  // The configuration loop

  /** The dot-separated octets of a network line's address, without its prefix length. */
  function Octets(line: string): seq<string>
    requires |Words(Strip(line))| >= 2
  {
    Split(Split(Words(Strip(line))[1], "/")[0], ".")
  }

  /** `'.'.join(octets)` once `octets[3] = switch_id`. */
  function OwnAddress(octets: seq<string>, id: string): string
    requires |octets| >= 4
  {
    Join(".", octets[3 := id])
  }

  function IfCmd(octets: seq<string>, id: string): string
    requires |octets| >= 4
  {
    "ifconfig " + "eth-" + octets[2] + "-1" + " " + OwnAddress(octets, id) + " " + Netmask
  }

  /**
   * The records of a network line with address octets `octets`, or `None`
   * where Python raises. A network on the switch's own subnet adds the dummy
   * interface and then assigns its address twice (the assignment command is
   * re-run after the branch); any other network addresses its port with the
   * switch's id as the last octet.
   */
  function NetworkOps(sw: string, octets: seq<string>): Option<seq<Op>> {
    if |octets| < 3 then None
    else if octets[2] == LastTwo(sw) then
      Some([Rec(BgpPeeringIfDown.DummyAdd(), Ignore),
            Rec(BgpPeeringIfDown.DummyAddress(sw), Ignore),
            Rec(BgpPeeringIfDown.DummyAddress(sw), Ignore)])
    else if |octets| < 4 then None
    else Some([Rec(IfCmd(octets, LastTwo(sw)), Ignore)])
  }

  /** The records of one configuration line: only lines starting 'network' after stripping record anything. */
  function LineOps(sw: string, line: string): Option<seq<Op>> {
    if !StartsWith(Strip(line), "network") then Some([])
    else if |Words(Strip(line))| < 2 then None
    else NetworkOps(sw, Octets(line))
  }

  function LinesOps(sw: string, lines: seq<string>): (r: seq<Option<seq<Op>>>)
    ensures |r| == |lines| && forall i :: 0 <= i < |lines| ==> r[i] == LineOps(sw, lines[i])
  {
    seq(|lines|, i requires 0 <= i < |lines| => LineOps(sw, lines[i]))
  }

  /** The records of lines `i..`, up to the first one where Python raises. */
  function ChainFrom(rs: seq<Option<seq<Op>>>, i: nat): Plan
    requires i <= |rs|
    decreases |rs| - i
  {
    if i == |rs| then Plan([], true)
    else if rs[i].None? then Plan([], false)
    else
      var rest := ChainFrom(rs, i + 1);
      Plan(rs[i].value + rest.ops, rest.completes)
  }

  function ConfigFrom(sw: string, lines: seq<string>, i: nat): Plan
    requires i <= |lines|
  {
    ChainFrom(LinesOps(sw, lines), i)
  }

  // ---------------------------------------------------------------------
  // The checks

  /** `'192.168.{}.1'.format(leaf[-2::])` */
  function LeafNetwork(leaf: string): string {
    "192.168." + LastTwo(leaf) + ".1"
  }

  function MissingLine(sw: string, route: string): string {
    "On switch " + sw + " " + "ospf route " + route + " " + "is not present in the output " + "of command " + RoutesCmd + "\n"
  }

  /** Without a trailing newline, as written. */
  function NoRoutesLine(sw: string): string {
    "On switch " + sw + " " + "ospf route cannot be verified since " + "output of command " + RoutesCmd + " is None"
  }

  /** One line per leaf whose network route is missing, in leaf order. */
  function MissingLines(sw: string, leaves: seq<string>, out: string): string {
    Concat(seq(|leaves|, i requires 0 <= i < |leaves| =>
      if Contains(out, LeafNetwork(leaves[i])) then "" else MissingLine(sw, LeafNetwork(leaves[i]))))
  }

  /** `if ospf_routes:` each leaf's route must be present; no output fails. */
  function RoutesJudge(sw: string, leaves: seq<string>): Output -> Verdict {
    (o: Output) =>
      if o.None? || o.value == "" then Fail(NoRoutesLine(sw))
      else
        var text := MissingLines(sw, leaves, o.value);
        if text == "" then Pass else Fail(text)
  }

  function PingCmd(sw: string, neighbor: string): string {
    "ping -w 3 -c 3 -I " + LeafNetwork(sw) + " " + LeafNetwork(neighbor)
  }

  function PingLine(sw: string, neighbor: string): string {
    "From switch " + sw + ", " + neighbor + " is not getting pinged\n"
  }

  /** `'3 received' not in ping_out` (Python raises on `None`, which the callers rule out). */
  function PingJudge(sw: string, neighbor: string): Output -> Verdict {
    (o: Output) => if o.Some? && !Contains(o.value, "3 received") then Fail(PingLine(sw, neighbor)) else Pass
  }

  function Services(p: Params): seq<Op> {
    [Rec("service " + p.packageName + " restart", Ignore), Rec("service " + p.packageName + " status", Ignore)]
  }

  function Closing(): seq<Op> {
    [SetLog("result.detail"), Rec("goes status", Ignore)]
  }

  /** The neighbour a leaf pings: the first leaf left once it removed itself. */
  function Neighbors(sw: string, p: Params): seq<string>
    requires sw in p.leafList
  {
    RemoveFirst(p.leafList, sw)
  }

  /** Everything after the configuration loop. */
  function Tail(sw: string, p: Params): Plan {
    if sw !in p.leafList then Plan(Services(p) + Closing(), true)
    else
      var routes := Services(p) + [Rec(RoutesCmd, RoutesJudge(sw, p.leafList))];
      if Neighbors(sw, p) == [] then Plan(routes, false)
      else
        var nb := Neighbors(sw, p)[0];
        Plan(routes + [Rec(PingCmd(sw, nb), PingJudge(sw, nb))] + Closing(), true)
  }

  /** Everything `verify_ospf_traffic` issues, and whether it returns. */
  function Outcome(sw: string, p: Params): Plan {
    var c := ConfigFrom(sw, SplitLines(p.config), 0);
    var head := [Rec(BgpPeeringIfDown.RunningConfig, Ignore)] + c.ops;
    if !c.completes then Plan(head, false)
    else
      var t := Tail(sw, p);
      Plan(head + t.ops, t.completes)
  }

  /** A leaf's ping must answer. */
  ghost predicate Answered(e: Env, p: Params) {
    e.switchName in p.leafList && Neighbors(e.switchName, p) != [] ==>
      Answers(e, PingCmd(e.switchName, Neighbors(e.switchName, p)[0]))
  }

  // ---------------------------------------------------------------------
  // The module

  /** The configuration loop of `verify_ospf_traffic`. */
  method Configure(s: Session, lines: seq<string>, summary0: string) returns (summary: string, ok: bool)
    modifies s
    ensures ok == ConfigFrom(s.switchName, lines, 0).completes
    ensures Acc(s.St(), summary) == Steps(s.E(), Acc(old(s.St()), summary0), ConfigFrom(s.switchName, lines, 0).ops)
  {
    ghost var e := s.E();
    ghost var goal := Steps(e, Acc(s.St(), summary0), ConfigFrom(s.switchName, lines, 0).ops);
    summary := summary0;
    var i := 0;
    while i < |lines|
      invariant i <= |lines| && ConfigFrom(s.switchName, lines, i).completes == ConfigFrom(s.switchName, lines, 0).completes
      invariant s.E() == e
      invariant Steps(e, Acc(s.St(), summary), ConfigFrom(s.switchName, lines, i).ops) == goal
    {
      var ops := LineOps(s.switchName, lines[i]);
      if ops.None? {
        return summary, false;
      }
      StepsAppend(e, Acc(s.St(), summary), ops.value, ConfigFrom(s.switchName, lines, i + 1).ops);
      summary := s.Run(ops.value, summary);
      i := i + 1;
    }
    ok := true;
  }

  /** Everything after the configuration loop. */
  method RunTail(s: Session, p: Params, summary0: string) returns (summary: string, ok: bool)
    modifies s
    ensures ok == Tail(s.switchName, p).completes
    ensures Acc(s.St(), summary) == Steps(s.E(), Acc(old(s.St()), summary0), Tail(s.switchName, p).ops)
  {
    ok := true;
    summary := s.Run(Tail(s.switchName, p).ops, summary0);
    ok := Tail(s.switchName, p).completes;
  }

  /** `main`: the log text, or `None` where Python raises (the module then writes no log). */
  method RunModule(s: Session, p: Params) returns (msg: Option<string>)
    modifies s
    requires Plain(s.policy) && Answered(s.E(), p)
    ensures var plan := Outcome(s.switchName, p);
            msg.Some? == plan.completes
            && s.St() == (if plan.completes then WithStatus(Steps(s.E(), Acc(old(s.St()), ""), plan.ops).m)
                          else Steps(s.E(), Acc(old(s.St()), ""), plan.ops).m)
    ensures msg.Some? ==> msg.value == LogText(s.dict)
  {
    ghost var e := s.E();
    ghost var a0 := Acc(s.St(), "");
    var first := [Rec(BgpPeeringIfDown.RunningConfig, Ignore)];
    var summary := s.Run(first, "");
    var lines := SplitLines(p.config);
    var ok;
    summary, ok := Configure(s, lines, summary);
    ghost var c := ConfigFrom(s.switchName, lines, 0);
    StepsAppend(e, a0, first, c.ops);
    if !ok {
      return None;
    }
    summary, ok := RunTail(s, p, summary);
    StepsAppend(e, a0, first + c.ops, Tail(s.switchName, p).ops);
    if !ok {
      return None;
    }
    s.StoreStatus();
    var text := WriteLog(s.dict);
    msg := Some(text);
  }

  // ---------------------------------------------------------------------
  // Properties

  /**
   * The loop reaches the end exactly when every network line has a second
   * word whose address has three octets, and four unless it is the switch's
   * own network.
   */
  lemma {:induction false} ConfigCompletes(sw: string, lines: seq<string>)
    ensures ConfigFrom(sw, lines, 0).completes <==> forall k :: 0 <= k < |lines| ==> LineOps(sw, lines[k]).Some?
  {
    ChainCompletes(LinesOps(sw, lines), 0);
  }

  lemma {:induction false} ChainCompletes(rs: seq<Option<seq<Op>>>, i: nat)
    requires i <= |rs|
    ensures ChainFrom(rs, i).completes <==> forall k :: i <= k < |rs| ==> rs[k].Some?
    decreases |rs| - i
  {
    if i < |rs| && rs[i].Some? {
      ChainCompletes(rs, i + 1);
    }
  }

  /** A line without the 'network' prefix records nothing; a network line without an address raises. */
  lemma OtherLines(sw: string, line: string)
    ensures !StartsWith(Strip(line), "network") ==> LineOps(sw, line) == Some([])
    ensures StartsWith(Strip(line), "network") && |Words(Strip(line))| < 2 ==> LineOps(sw, line).None?
  {
  }

  /** The switch's own network: the dummy interface is added and its address assigned twice. */
  lemma OwnNetwork(sw: string, octets: seq<string>)
    requires |octets| >= 3 && octets[2] == LastTwo(sw)
    ensures NetworkOps(sw, octets).Some? && |NetworkOps(sw, octets).value| == 3
    ensures NetworkOps(sw, octets).value[1] == NetworkOps(sw, octets).value[2]
            == Rec("ifconfig dummy0 192.168." + LastTwo(sw) + ".1 netmask 255.255.255.255", Ignore)
  {
    var ops := NetworkOps(sw, octets).value;
    assert ops[1] == ops[2] == Rec(BgpPeeringIfDown.DummyAddress(sw), Ignore);
    BgpPeeringIfDown.DummyAddressText(sw);
  }

  /**
   * Another network: its port `eth-<third octet>-1` gets the network's
   * address with the switch's id as fourth octet, the other octets kept.
   */
  lemma OtherNetwork(sw: string, address: string)
    requires var octets := Split(address, "."); |octets| >= 4 && octets[2] != LastTwo(sw)
    requires '.' !in LastTwo(sw)
    ensures var octets := Split(address, ".");
            NetworkOps(sw, octets) == Some([Rec(IfCmd(octets, LastTwo(sw)), Ignore)])
            && Split(OwnAddress(octets, LastTwo(sw)), ".") == octets[3 := LastTwo(sw)]
  {
    var octets := Split(address, ".");
    var parts := octets[3 := LastTwo(sw)];
    SplitNoSep(address, ".");
    forall i, k | 0 <= i < |parts| && 0 <= k < |parts[i]|
      ensures parts[i][k] != '.'
    {
      if i != 3 {
        ContainsChar(parts[i], '.');
      }
    }
    SplitOfJoin(parts, '.');
  }

  /**
   * The route check passes exactly when there is output and it shows the
   * network of every leaf, the switch's own included.
   */
  lemma RoutesSpec(sw: string, leaves: seq<string>, o: Output)
    ensures RoutesJudge(sw, leaves)(o).Pass?
            <==> o.Some? && o.value != "" && forall i :: 0 <= i < |leaves| ==> Contains(o.value, LeafNetwork(leaves[i]))
    ensures !RoutesJudge(sw, leaves)(o).Note?
  {
    if o.Some? && o.value != "" {
      MissingNone(sw, leaves, o.value);
    }
  }

  /** No line is missing exactly when every leaf's network is in the output. */
  lemma MissingNone(sw: string, leaves: seq<string>, out: string)
    ensures MissingLines(sw, leaves, out) == "" <==> forall i :: 0 <= i < |leaves| ==> Contains(out, LeafNetwork(leaves[i]))
  {
    var parts := seq(|leaves|, i requires 0 <= i < |leaves| =>
      if Contains(out, LeafNetwork(leaves[i])) then "" else MissingLine(sw, LeafNetwork(leaves[i])));
    ConcatEmpty(parts);
    forall i | 0 <= i < |leaves|
      ensures parts[i] == "" <==> Contains(out, LeafNetwork(leaves[i]))
    {
      assert MissingLine(sw, LeafNetwork(leaves[i]))[0] == 'O';
    }
  }

  /** The ping check fails exactly when the output lacks '3 received'. */
  lemma PingSpec(sw: string, nb: string, out: string)
    ensures PingJudge(sw, nb)(Some(out)).Fail? <==> !Contains(out, "3 received")
  {
  }

  /** Off the leaf list nothing is checked after the restart; a leaf without another leaf to ping raises. */
  lemma TailCases(sw: string, p: Params)
    ensures sw !in p.leafList ==> Tail(sw, p) == Plan(Services(p) + Closing(), true)
    ensures sw in p.leafList && p.leafList == [sw] ==> !Tail(sw, p).completes
  {
    if sw in p.leafList && p.leafList == [sw] {
      assert Neighbors(sw, p) == [];
    }
  }
}
