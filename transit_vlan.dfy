/**
 * `test_on_transit_vlan_configuration.py`: create VLAN sub-interface `.1`
 * on every port that the quagga configuration lists a network for, check
 * its address, restart quagga, then let the first leaf ping across while
 * every other switch captures the tagged frames.
 */
module TransitVlan {
  import opened Wrappers
  import opened PyStr
  import opened PyList
  import opened Recorder
  import VlanConfiguration

  datatype Params = Params(leafList: seq<string>, config: string, ethList: string)

  /** The commands a run issues and whether it reaches the end (`false`: Python raises after them). */
  datatype Plan = Plan(ops: seq<Op>, completes: bool)

  // ---------------------------------------------------------------------
  // The ports, from the configuration

  /** A stripped configuration line mentioning both 'network' and 'area'. */
  predicate IsNetworkLine(line: string) {
    Contains(Strip(line), "network") && Contains(Strip(line), "area")
  }

  /** `line.split()[1].split('.')[2]`, or `None` where Python raises. */
  function NetworkOf(line: string): Option<string> {
    var w := Words(Strip(line));
    if |w| < 2 then None
    else
      var f := Split(w[1], ".");
      if |f| < 3 then None else Some(f[2])
  }

  /**
   * The parses of the lines `keep` selects, in order; `None` as soon as one
   * of them does not parse.
   */
  function Collect<T, U>(xs: seq<T>, keep: T -> bool, parse: T -> Option<U>): Option<seq<U>>
    decreases |xs|
  {
    if xs == [] then Some([])
    else
      match Collect(xs[..|xs| - 1], keep, parse)
      case None => None
      case Some(es) =>
        var x := xs[|xs| - 1];
        if !keep(x) then Some(es)
        else
          match parse(x)
          case None => None
          case Some(e) => Some(es + [e])
  }

  /** The ports of the network lines of `lines`, in order; `None` as soon as one does not parse. */
  function Networks(lines: seq<string>): Option<seq<string>> {
    Collect(lines, IsNetworkLine, NetworkOf)
  }

  /** The loop of `verify_vlan_configurations` that collects `eth_list`. */
  method ParseEths(config: string) returns (r: Option<seq<string>>)
    ensures r == Networks(SplitLines(config))
  {
    r := CollectAll(SplitLines(config), IsNetworkLine, NetworkOf);
  }

  /** The loop of `ParseEths`, over any selection and parse of the lines. */
  method CollectAll<T, U>(xs: seq<T>, keep: T -> bool, parse: T -> Option<U>) returns (r: Option<seq<U>>)
    ensures r == Collect(xs, keep, parse)
  {
    var es := [];
    var i := 0;
    while i < |xs|
      invariant 0 <= i <= |xs|
      invariant Collect(xs[..i], keep, parse) == Some(es)
    {
      CollectStep(xs, keep, parse, i, es);
      if keep(xs[i]) {
        var e := parse(xs[i]);
        if e.None? {
          CollectNone(xs, keep, parse, i + 1);
          return None;
        }
        es := es + [e.value];
      }
      i := i + 1;
    }
    assert xs[..|xs|] == xs;
    r := Some(es);
  }

  /** One more element: skipped, parsed and appended, or the end of the parse. */
  lemma CollectStep<T, U>(xs: seq<T>, keep: T -> bool, parse: T -> Option<U>, i: nat, es: seq<U>)
    requires i < |xs| && Collect(xs[..i], keep, parse) == Some(es)
    ensures !keep(xs[i]) ==> Collect(xs[..i + 1], keep, parse) == Some(es)
    ensures keep(xs[i]) && parse(xs[i]).Some? ==> Collect(xs[..i + 1], keep, parse) == Some(es + [parse(xs[i]).value])
    ensures keep(xs[i]) && parse(xs[i]).None? ==> Collect(xs[..i + 1], keep, parse) == None
  {
    assert xs[..i + 1][..i] == xs[..i];
  }

  /** Once a kept line does not parse, the whole sequence fails to. */
  lemma {:induction false} CollectNone<T, U>(xs: seq<T>, keep: T -> bool, parse: T -> Option<U>, n: nat)
    requires n <= |xs| && Collect(xs[..n], keep, parse) == None
    ensures Collect(xs, keep, parse) == None
    decreases |xs| - n
  {
    if n == |xs| {
      assert xs[..n] == xs;
    } else {
      assert xs[..n + 1][..n] == xs[..n];
      CollectNone(xs, keep, parse, n + 1);
    }
  }

  // ---------------------------------------------------------------------
  // The records

  /** Sub-interface `.1` of port `eth`, VLAN id `eth`. */
  function V(eth: string): VlanConfiguration.Vlan {
    VlanConfiguration.Vlan(eth, "1", eth)
  }

  /** Create and address every sub-interface, then check every address. */
  function Setup(sw: string, eths: seq<string>): seq<Op> {
    FlatMap(eths, (eth: string) => VlanConfiguration.Configure(V(eth), LastTwo(sw)))
    + FlatMap(eths, (eth: string) => VlanConfiguration.VerifyAddress(sw, V(eth)))
    + [Rec("service quagga restart", Ignore)]
  }

  function CaptureCmd(eth: string): string {
    "tcpdump -c 15 -net -i eth-" + eth + "-1"
  }

  /** The capture on `eth` must show the 802.1Q tag and 'vlan <eth>'; no output fails. */
  function Capture(sw: string): string -> seq<Op> {
    (eth: string) => [Rec(CaptureCmd(eth), VlanConfiguration.TagTest(sw, eth, eth))]
  }

  function Captures(sw: string, eths: seq<string>): seq<Op> {
    FlatMap(eths, Capture(sw))
  }

  function PingCmd(sw: string, neighbor: string, eth: string, target: string): string {
    "ping -c 20 -I 192.168." + eth + "." + LastTwo(sw) + " 192.168." + target + "." + LastTwo(neighbor)
  }

  /**
   * The position of the first port whose first occurrence in `eths` is not
   * among the first two: `tmp_list[eth_list.index(eth)]` raises there.
   */
  function Reach(eths: seq<string>, i: nat): (r: nat)
    requires i <= |eths|
    decreases |eths| - i
  {
    if i == |eths| || IndexOf(eths, eths[i]) >= 2 then i else Reach(eths, i + 1)
  }

  /** The first leaf's pings from port `i` on, up to the port where the lookup raises. */
  function PingsFrom(sw: string, neighbor: string, eths: seq<string>, tmp: seq<string>, i: nat): seq<Op>
    requires i <= |eths| && |tmp| == 2
    decreases |eths| - i
  {
    if i == |eths| || IndexOf(eths, eths[i]) >= 2 then []
    else [Rec(PingCmd(sw, neighbor, eths[i], tmp[IndexOf(eths, eths[i])]), Ignore)] + PingsFrom(sw, neighbor, eths, tmp, i + 1)
  }

  function Reached(sw: string, neighbor: string, eths: seq<string>, tmp: seq<string>): seq<Op>
    requires |tmp| == 2
  {
    PingsFrom(sw, neighbor, eths, tmp, 0)
  }

  /** The traffic phase: what a leaf or a spine issues after the restart. */
  function Traffic(sw: string, p: Params, eths: seq<string>): Plan {
    if sw !in p.leafList then Plan(Captures(sw, eths), true)
    else
      var index := IndexOf(p.leafList, sw);
      var rest := RemoveFirst(p.leafList, sw);
      var pel := Split(p.ethList, ",");
      if rest == [] || |pel| < (if index == 0 then 4 else 2) then Plan([], false)
      else if index == 0 then
        Plan(Reached(sw, rest[0], eths, [pel[2], pel[3]]), Reach(eths, 0) == |eths|)
      else Plan(Captures(sw, eths), true)
  }

  function Closing(): seq<Op> {
    [SetLog("result.detail"), Rec("goes status", Ignore)]
  }

  /** Everything after parsing the configuration. */
  function Body(sw: string, p: Params, eths: seq<string>): Plan {
    var t := Traffic(sw, p, eths);
    Plan(Setup(sw, eths) + t.ops + (if t.completes then Closing() else []), t.completes)
  }

  /** Everything `verify_vlan_configurations` issues, and whether it returns. */
  function Outcome(sw: string, p: Params): Plan {
    var downs := if sw in p.leafList then VlanConfiguration.Downs(1, 33) else [];
    match Networks(SplitLines(p.config))
    case None => Plan(downs, false)
    case Some(eths) => var b := Body(sw, p, eths); Plan(downs + b.ops, b.completes)
  }

  // ---------------------------------------------------------------------
  // The module

  /** The first leaf's ping loop: it stops where the port lookup raises. */
  method PingLoop(s: Session, neighbor: string, eths: seq<string>, tmp: seq<string>, summary0: string)
    returns (summary: string, ok: bool)
    modifies s
    requires |tmp| == 2
    ensures ok == (Reach(eths, 0) == |eths|)
    ensures Acc(s.St(), summary) == Steps(s.E(), Acc(old(s.St()), summary0), Reached(s.switchName, neighbor, eths, tmp))
  {
    ghost var e := s.E();
    ghost var goal := Steps(e, Acc(s.St(), summary0), Reached(s.switchName, neighbor, eths, tmp));
    summary := summary0;
    var i := 0;
    while i < |eths|
      invariant i <= |eths| && Reach(eths, i) == Reach(eths, 0)
      invariant s.E() == e
      invariant Steps(e, Acc(s.St(), summary), PingsFrom(s.switchName, neighbor, eths, tmp, i)) == goal
    {
      var index := IndexOf(eths, eths[i]);
      if index >= 2 {
        return summary, false;
      }
      var op := Rec(PingCmd(s.switchName, neighbor, eths[i], tmp[index]), Ignore);
      StepsCons(e, Acc(s.St(), summary), op, PingsFrom(s.switchName, neighbor, eths, tmp, i + 1));
      var out;
      summary, out := s.Check(op.cmd, Ignore, summary);
      i := i + 1;
    }
    ok := true;
  }

  /** The traffic phase. */
  method RunTraffic(s: Session, p: Params, eths: seq<string>, summary0: string) returns (summary: string, ok: bool)
    modifies s
    ensures ok == Traffic(s.switchName, p, eths).completes
    ensures Acc(s.St(), summary) == Steps(s.E(), Acc(old(s.St()), summary0), Traffic(s.switchName, p, eths).ops)
  {
    var sw := s.switchName;
    if sw !in p.leafList {
      summary := s.Run(Captures(sw, eths), summary0);
      return summary, true;
    }
    var index := IndexOf(p.leafList, sw);
    var rest := RemoveFirst(p.leafList, sw);
    var pel := Split(p.ethList, ",");
    if rest == [] || |pel| < (if index == 0 then 4 else 2) {
      return summary0, false;
    }
    if index == 0 {
      summary, ok := PingLoop(s, rest[0], eths, [pel[2], pel[3]], summary0);
    } else {
      summary := s.Run(Captures(sw, eths), summary0);
      ok := true;
    }
  }

  /** Everything after parsing. */
  method RunBody(s: Session, p: Params, eths: seq<string>, summary0: string) returns (summary: string, ok: bool)
    modifies s
    ensures ok == Body(s.switchName, p, eths).completes
    ensures Acc(s.St(), summary) == Steps(s.E(), Acc(old(s.St()), summary0), Body(s.switchName, p, eths).ops)
  {
    ghost var e := s.E();
    ghost var a0 := Acc(s.St(), summary0);
    var setup := Setup(s.switchName, eths);
    summary := s.Run(setup, summary0);
    ghost var a1 := Acc(s.St(), summary);
    ghost var t := Traffic(s.switchName, p, eths);
    summary, ok := RunTraffic(s, p, eths, summary);
    StepsAppend(e, a0, setup, t.ops);
    if ok {
      ghost var a2 := Acc(s.St(), summary);
      summary := s.Run(Closing(), summary);
      StepsAppend(e, a0, setup + t.ops, Closing());
    } else {
      assert setup + t.ops + [] == setup + t.ops;
    }
  }

  /** `main`: the log text, or `None` where Python raises (the module then writes no log). */
  method RunModule(s: Session, p: Params) returns (msg: Option<string>)
    modifies s
    requires Plain(s.policy)
    ensures var plan := Outcome(s.switchName, p);
            msg.Some? == plan.completes
            && s.St() == (if plan.completes then WithStatus(Steps(s.E(), Acc(old(s.St()), ""), plan.ops).m)
                          else Steps(s.E(), Acc(old(s.St()), ""), plan.ops).m)
    ensures msg.Some? ==> msg.value == LogText(s.dict)
  {
    ghost var e := s.E();
    ghost var a0 := Acc(s.St(), "");
    var downs := if s.switchName in p.leafList then VlanConfiguration.Downs(1, 33) else [];
    var summary := s.Run(downs, "");
    var eths := ParseEths(p.config);
    if eths.None? {
      return None;
    }
    var ok;
    summary, ok := RunBody(s, p, eths.value, summary);
    StepsAppend(e, a0, downs, Body(s.switchName, p, eths.value).ops);
    if !ok {
      return None;
    }
    s.StoreStatus();
    var text := WriteLog(s.dict);
    msg := Some(text);
  }

  // ---------------------------------------------------------------------
  // Properties

  /** Where the ping loop stops: every port before it is among the first two, and the one there is not. */
  lemma {:induction false} ReachSpec(eths: seq<string>, i: nat)
    requires i <= |eths|
    ensures i <= Reach(eths, i) <= |eths|
    ensures forall j :: i <= j < Reach(eths, i) ==> IndexOf(eths, eths[j]) < 2
    ensures Reach(eths, i) < |eths| ==> IndexOf(eths, eths[Reach(eths, i)]) >= 2
    decreases |eths| - i
  {
    if i < |eths| && IndexOf(eths, eths[i]) < 2 {
      ReachSpec(eths, i + 1);
    }
  }

  /** The first leaf pings every port exactly when each one repeats one of the first two. */
  lemma ReachAll(eths: seq<string>)
    ensures Reach(eths, 0) == |eths| <==> forall j :: 0 <= j < |eths| ==> FirstTwo(eths, eths[j])
  {
    ReachSpec(eths, 0);
    forall j | 0 <= j < |eths|
      ensures IndexOf(eths, eths[j]) < 2 <==> FirstTwo(eths, eths[j])
    {
      IndexOfFirstTwo(eths, j);
    }
  }

  /** `x` is the first or the second element of `eths`. */
  predicate FirstTwo(eths: seq<string>, x: string) {
    (|eths| > 0 && eths[0] == x) || (|eths| > 1 && eths[1] == x)
  }

  lemma IndexOfFirstTwo(eths: seq<string>, j: nat)
    requires j < |eths|
    ensures IndexOf(eths, eths[j]) < 2 <==> FirstTwo(eths, eths[j])
  {
  }

  /** The pings from port `i` on: one per port until the lookup raises ... */
  lemma {:induction false} PingsLength(sw: string, neighbor: string, eths: seq<string>, tmp: seq<string>, i: nat)
    requires i <= |eths| && |tmp| == 2
    ensures i <= Reach(eths, i) && |PingsFrom(sw, neighbor, eths, tmp, i)| == Reach(eths, i) - i
    decreases |eths| - i
  {
    if i < |eths| && IndexOf(eths, eths[i]) < 2 {
      PingsLength(sw, neighbor, eths, tmp, i + 1);
    }
  }

  /** ... each from its port to the target listed at the position of the port's first occurrence. */
  lemma {:induction false} PingsAt(sw: string, neighbor: string, eths: seq<string>, tmp: seq<string>, i: nat, j: nat)
    requires |tmp| == 2 && j < |eths| && i <= j && j < Reach(eths, i)
    ensures i <= |eths| && j - i < |PingsFrom(sw, neighbor, eths, tmp, i)|
    ensures IndexOf(eths, eths[j]) < 2
    ensures PingsFrom(sw, neighbor, eths, tmp, i)[j - i] == Rec(PingCmd(sw, neighbor, eths[j], tmp[IndexOf(eths, eths[j])]), Ignore)
    decreases j - i
  {
    assert IndexOf(eths, eths[i]) < 2 && Reach(eths, i) == Reach(eths, i + 1);
    var rest := PingsFrom(sw, neighbor, eths, tmp, i + 1);
    var op := Rec(PingCmd(sw, neighbor, eths[i], tmp[IndexOf(eths, eths[i])]), Ignore);
    assert PingsFrom(sw, neighbor, eths, tmp, i) == [op] + rest;
    if i < j {
      PingsAt(sw, neighbor, eths, tmp, i + 1, j);
      assert ([op] + rest)[j - i] == rest[j - (i + 1)];
    }
  }

  /**
   * The first leaf pings its neighbour (the first other leaf) on the third
   * and fourth listed ports, the first port of the configuration to the
   * third, the second to the fourth.
   */
  lemma FirstLeafTargets(sw: string, p: Params, eths: seq<string>)
    requires sw in p.leafList && IndexOf(p.leafList, sw) == 0
    requires |RemoveFirst(p.leafList, sw)| > 0 && |Split(p.ethList, ",")| >= 4
    requires 2 <= |eths| && eths[0] != eths[1]
    ensures var t := Traffic(sw, p, eths);
            var pel := Split(p.ethList, ",");
            |p.leafList| >= 2 && |pel| >= 4 && |t.ops| >= 2
            && t.ops[0] == Rec(PingCmd(sw, p.leafList[1], eths[0], pel[2]), Ignore)
            && t.ops[1] == Rec(PingCmd(sw, p.leafList[1], eths[1], pel[3]), Ignore)
  {
    var pel := Split(p.ethList, ",");
    var rest := RemoveFirst(p.leafList, sw);
    assert rest[0] == p.leafList[1];
    var tmp := [pel[2], pel[3]];
    PingsLength(sw, rest[0], eths, tmp, 2);
    assert Reach(eths, 0) == Reach(eths, 2);
    PingsAt(sw, rest[0], eths, tmp, 0, 0);
    PingsAt(sw, rest[0], eths, tmp, 0, 1);
  }

  /** Every other leaf, and every spine, captures on every port: one tagged-frame check each. */
  lemma OthersCapture(sw: string, p: Params, eths: seq<string>, j: nat)
    requires sw !in p.leafList || (IndexOf(p.leafList, sw) != 0 && |RemoveFirst(p.leafList, sw)| > 0
                                   && |Split(p.ethList, ",")| >= 2)
    requires j < |eths|
    ensures Traffic(sw, p, eths).completes
    ensures |Traffic(sw, p, eths).ops| == |eths|
    ensures Traffic(sw, p, eths).ops[j] == Rec(CaptureCmd(eths[j]), VlanConfiguration.TagTest(sw, eths[j], eths[j]))
  {
    FlatMapAt(eths, Capture(sw), 1, j, 0);
  }

  /** A leaf with no other leaf to ping, or too few listed ports, stops right after the restart. */
  lemma LoneLeafRaises(sw: string, p: Params, eths: seq<string>)
    requires sw in p.leafList && p.leafList == [sw]
    ensures Traffic(sw, p, eths) == Plan([], false)
    ensures Body(sw, p, eths) == Plan(Setup(sw, eths), false)
  {
    assert RemoveFirst(p.leafList, sw) == [];
  }

  /**
   * The configuration parses exactly when every network line has a second
   * word with at least three dot-separated fields; the ports are then the
   * third field of each network line, in order.
   */
  lemma NetworksSpec(lines: seq<string>)
    ensures Networks(lines).Some? <==> forall k :: 0 <= k < |lines| && IsNetworkLine(lines[k]) ==> NetworkOf(lines[k]).Some?
    ensures Networks(lines).Some? ==> Networks(lines).value == Parses(Keep(lines, IsNetworkLine), NetworkOf)
  {
    CollectSpec(lines, IsNetworkLine, NetworkOf);
  }

  /** The elements `keep` selects, in order. */
  function Keep<T>(xs: seq<T>, keep: T -> bool): seq<T>
    decreases |xs|
  {
    if xs == [] then [] else (if keep(xs[0]) then [xs[0]] else []) + Keep(xs[1..], keep)
  }

  /** The successful parses, in order. */
  function Parses<T, U>(xs: seq<T>, parse: T -> Option<U>): seq<U>
    decreases |xs|
  {
    if xs == [] then [] else (match parse(xs[0]) case Some(e) => [e] case None => []) + Parses(xs[1..], parse)
  }

  /** `Collect` succeeds exactly when every kept element parses, and then gives their parses in order. */
  lemma {:induction false} CollectSpec<T, U>(xs: seq<T>, keep: T -> bool, parse: T -> Option<U>)
    ensures Collect(xs, keep, parse).Some? <==> forall k :: 0 <= k < |xs| && keep(xs[k]) ==> parse(xs[k]).Some?
    ensures Collect(xs, keep, parse).Some? ==> Collect(xs, keep, parse).value == Parses(Keep(xs, keep), parse)
    decreases |xs|
  {
    if xs != [] {
      var init, x := xs[..|xs| - 1], xs[|xs| - 1];
      CollectSpec(init, keep, parse);
      assert forall k :: 0 <= k < |init| ==> init[k] == xs[k];
      assert xs == init + [x];
      KeepSnoc(init, x, keep);
      if Collect(xs, keep, parse).Some? && keep(x) {
        var es := Collect(init, keep, parse).value;
        assert Collect(xs, keep, parse).value == es + [parse(x).value];
        ParsesSnoc(Keep(init, keep), x, parse);
        assert Keep(xs, keep) == Keep(init, keep) + [x];
      } else if Collect(xs, keep, parse).Some? {
        assert !keep(x) && Collect(init, keep, parse).Some?;
        assert Collect(xs, keep, parse) == Collect(init, keep, parse);
        assert Keep(init, keep) + [] == Keep(init, keep);
        assert Keep(xs, keep) == Keep(init, keep);
      }
    }
  }

  lemma {:induction false} KeepSnoc<T>(xs: seq<T>, x: T, keep: T -> bool)
    ensures Keep(xs + [x], keep) == Keep(xs, keep) + (if keep(x) then [x] else [])
    decreases |xs|
  {
    if xs == [] {
      assert [] + [x] == [x];
    } else {
      assert (xs + [x])[1..] == xs[1..] + [x];
      KeepSnoc(xs[1..], x, keep);
    }
  }

  lemma {:induction false} ParsesSnoc<T, U>(xs: seq<T>, x: T, parse: T -> Option<U>)
    requires parse(x).Some?
    ensures Parses(xs + [x], parse) == Parses(xs, parse) + [parse(x).value]
    decreases |xs|
  {
    if xs == [] {
      assert [] + [x] == [x];
    } else {
      assert (xs + [x])[1..] == xs[1..] + [x];
      ParsesSnoc(xs[1..], x, parse);
    }
  }
}
