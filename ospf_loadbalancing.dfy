/**
 * `ospf/test_ospf_loadbalancing.py`: add a dummy interface, address the
 * ports named by the quagga configuration's network lines, restart quagga,
 * and check that the OSPF route to another switch's network goes through
 * every port so addressed.
 */
module OspfLoadBalancing {
  import opened Wrappers
  import opened PyStr
  import opened PyList
  import opened Recorder
  import BgpPeeringIfDown

  datatype Params = Params(
    config: string, spineList: seq<string>, leafList: seq<string>, packageName: string)

  /** `'dummy0' in cmd`: recorded as `None` without being run. */
  predicate Held(cmd: string) {
    Contains(cmd, "dummy0")
  }

  const Netmask: string := "netmask 255.255.255.0"

  // ---------------------------------------------------------------------
  // The configuration loop

  /** What a configuration line asks for. */
  datatype Line =
    | Skip                              // not a network line
    | Again                             // the switch's own network: the previous command is recorded again
    | Address(eth: string, cmd: string) // another network: address its port
    | Raises                            // Python raises on this line

  function Octets(stripped: string): seq<string>
    requires |Words(stripped)| >= 2
  {
    Split(Split(Words(stripped)[1], "/")[0], ".")
  }

  /** `'eth-{}-1'.format(octets[2])` */
  function Eth(octets: seq<string>): string
    requires |octets| >= 3
  {
    "eth-" + octets[2] + "-1"
  }

  /** `'.'.join(octets)` once `octets[3] = switch_id`. */
  function OwnAddress(octets: seq<string>, id: string): string
    requires |octets| >= 4
  {
    Join(".", octets[3 := id])
  }

  function IfCmd(octets: seq<string>, id: string): string
    requires |octets| >= 4
  {
    "ifconfig " + Eth(octets) + " " + OwnAddress(octets, id) + " " + Netmask
  }

  /** A network line's octets, once the line is known to have an address. */
  function Network(id: string, octets: seq<string>): Line {
    if |octets| < 3 then Raises
    else if octets[2] == id then Again
    else if |octets| < 4 then Raises
    else Address(Eth(octets), IfCmd(octets, id))
  }

  function Classify(id: string, line: string): Line {
    if !StartsWith(Strip(line), "network") then Skip
    else if |Words(Strip(line))| < 2 then Raises
    else Network(id, Octets(Strip(line)))
  }

  function Classes(id: string, lines: seq<string>): (r: seq<Line>)
    ensures |r| == |lines| && forall k :: 0 <= k < |lines| ==> r[k] == Classify(id, lines[k])
  {
    seq(|lines|, k requires 0 <= k < |lines| => Classify(id, lines[k]))
  }

  /** The records of the loop from line `i` on, the ports it adds to `routes_to_check`, and whether it finishes. */
  datatype Config = Config(ops: seq<Op>, routes: seq<string>, completes: bool)

  /** What one line adds: its records, its port to check, and the command an own-network line repeats next. */
  function Next(l: Line, cmd: string): (seq<Op>, seq<string>, string) {
    match l
    case Again => ([Rec(cmd, Ignore)], [], cmd)
    case Address(eth, c) => ([Rec(c, Ignore)], [eth], c)
    case _ => ([], [], cmd)
  }

  /** The loop over the classified lines from `i` on, `cmd` being the last command built. */
  function ConfigFrom(ls: seq<Line>, i: nat, cmd: string): Config
    requires i <= |ls|
    decreases |ls| - i
  {
    if i == |ls| then Config([], [], true)
    else if ls[i].Raises? then Config([], [], false)
    else
      var (ops, eths, c) := Next(ls[i], cmd);
      var rest := ConfigFrom(ls, i + 1, c);
      Config(ops + rest.ops, eths + rest.routes, rest.completes)
  }

  /** The ports of the lines from `i` on that address another network: what the loop adds to `routes_to_check`. */
  function EthsFrom(ls: seq<Line>, i: nat): seq<string>
    requires i <= |ls|
    decreases |ls| - i
  {
    if i == |ls| then []
    else if ls[i].Address? then [ls[i].eth] + EthsFrom(ls, i + 1)
    else EthsFrom(ls, i + 1)
  }

  lemma ConfigStep(ls: seq<Line>, i: nat, cmd: string)
    requires i < |ls| && !ls[i].Raises?
    ensures var n := Next(ls[i], cmd);
            var rest := ConfigFrom(ls, i + 1, n.2);
            ConfigFrom(ls, i, cmd) == Config(n.0 + rest.ops, n.1 + rest.routes, rest.completes)
  {
  }

  // ---------------------------------------------------------------------
  // The route check

  /** The third octets the target is chosen from: the other leaves for a leaf, the other spines otherwise. */
  function Candidates(sw: string, p: Params): seq<string> {
    var group := if sw in p.leafList then p.leafList else p.spineList;
    seq(|group|, i requires 0 <= i < |group| => LastTwo(group[i]))
  }

  /**
   * `third_octet.remove(switch_id)` then `third_octet.pop()`; `None` where
   * Python raises (the switch's id absent, or nothing left).
   */
  function Target(sw: string, p: Params): Option<string> {
    var ids := Candidates(sw, p);
    if LastTwo(sw) !in ids then None
    else
      var left := RemoveFirst(ids, LastTwo(sw));
      if left == [] then None else Some(left[|left| - 1])
  }

  function RouteCmd(target: string): string {
    "vtysh -c 'sh ip route " + "192.168." + target + ".1" + "'"
  }

  function WrongLine(sw: string, cmd: string): string {
    "On switch " + sw + " " + "output of command " + cmd + " " + "did not show correct routes\n"
  }

  /** Without a trailing newline, as written. */
  function NoneLine(sw: string, cmd: string): string {
    "On switch " + sw + " " + "result cannot be verified since " + "output of command " + cmd + " is None"
  }

  /** Whether each port shows in the output. */
  function Shown(routes: seq<string>, out: string): (r: seq<bool>)
    ensures |r| == |routes| && forall k :: 0 <= k < |routes| ==> r[k] == Contains(out, routes[k])
  {
    seq(|routes|, k requires 0 <= k < |routes| => Contains(out, routes[k]))
  }

  /** The same line once per port missing from the output; no output fails with another line. */
  function RoutesJudge(sw: string, cmd: string, routes: seq<string>): Output -> Verdict {
    (o: Output) =>
      if o.None? || o.value == "" then Fail(NoneLine(sw, cmd))
      else
        var text := Lines(WrongLine(sw, cmd), Shown(routes, o.value));
        if text == "" then Pass else Fail(text)
  }

  function Services(p: Params): seq<Op> {
    [Rec("service " + p.packageName + " restart", Ignore), Rec("service " + p.packageName + " status", Ignore)]
  }

  function Closing(): seq<Op> {
    [SetLog("result.detail"), Rec("goes status", Ignore)]
  }

  /** The dummy interface, its address, and the running configuration. */
  function Head(sw: string): seq<Op> {
    [Rec(BgpPeeringIfDown.DummyAdd(), Ignore), Rec(BgpPeeringIfDown.DummyAddress(sw), Ignore),
     Rec(BgpPeeringIfDown.RunningConfig, Ignore)]
  }

  function Loop(sw: string, p: Params): Config {
    ConfigFrom(Classes(LastTwo(sw), SplitLines(p.config)), 0, BgpPeeringIfDown.DummyAddress(sw))
  }

  /** Everything after the loop, given the ports to check, and whether it returns. */
  function Tail(sw: string, p: Params, routes: seq<string>): (seq<Op>, bool) {
    var t := Target(sw, p);
    if t.None? then (Services(p), false)
    else
      var cmd := RouteCmd(t.value);
      (Services(p) + [Rec(cmd, RoutesJudge(sw, cmd, routes))] + Closing(), true)
  }

  /** Everything `verify_ospf_load_balancing` issues, and whether it returns. */
  function Outcome(sw: string, p: Params): (seq<Op>, bool) {
    var c := Loop(sw, p);
    if !c.completes then (Head(sw) + c.ops, false)
    else
      var t := Tail(sw, p, c.routes);
      (Head(sw) + c.ops + t.0, t.1)
  }

  // ---------------------------------------------------------------------
  // The module

  /** One pass of the configuration loop's body on a line that does not raise. */
  method ApplyLine(s: Session, line: Line, cmd: string, summary0: string)
    returns (summary: string, eths: seq<string>, next: string)
    modifies s
    ensures Acc(s.St(), summary) == Steps(s.E(), Acc(old(s.St()), summary0), Next(line, cmd).0)
    ensures eths == Next(line, cmd).1 && next == Next(line, cmd).2
  {
    var (ops, es, c) := Next(line, cmd);
    summary := s.Run(ops, summary0);
    eths, next := es, c;
  }

  /** The configuration loop. */
  method Configure(s: Session, ls: seq<Line>, cmd0: string, summary0: string)
    returns (summary: string, routes: seq<string>, ok: bool)
    modifies s
    ensures var c := ConfigFrom(ls, 0, cmd0);
            ok == c.completes && (ok ==> routes == c.routes)
            && Acc(s.St(), summary) == Steps(s.E(), Acc(old(s.St()), summary0), c.ops)
  {
    ghost var e := s.E();
    ghost var goal := ConfigFrom(ls, 0, cmd0);
    ghost var target := Steps(e, Acc(s.St(), summary0), goal.ops);
    summary, routes := summary0, [];
    var cmd := cmd0;
    var i := 0;
    while i < |ls|
      invariant i <= |ls| && s.E() == e
      invariant ConfigFrom(ls, i, cmd).completes == goal.completes
      invariant routes + ConfigFrom(ls, i, cmd).routes == goal.routes
      invariant Steps(e, Acc(s.St(), summary), ConfigFrom(ls, i, cmd).ops) == target
    {
      var line := ls[i];
      if line.Raises? {
        ConfigRaises(e, Acc(s.St(), summary), ls, i, cmd);
        return summary, routes, false;
      }
      ghost var before := Acc(s.St(), summary);
      var eths, c;
      summary, eths, c := ApplyLine(s, line, cmd, summary);
      ConfigAdvance(e, before, Acc(s.St(), summary), ls, i, cmd, routes, goal, target);
      routes := routes + eths;
      cmd := c;
      i := i + 1;
    }
    assert routes + [] == routes;
    ok := true;
  }

  /** A line that raises ends the loop with nothing more recorded. */
  lemma ConfigRaises(e: Env, a: Acc, ls: seq<Line>, i: nat, cmd: string)
    requires i < |ls| && ls[i].Raises?
    ensures !ConfigFrom(ls, i, cmd).completes && Steps(e, a, ConfigFrom(ls, i, cmd).ops) == a
  {
  }

  /** One turn of the configuration loop keeps its three invariants. */
  lemma ConfigAdvance(e: Env, a: Acc, b: Acc, ls: seq<Line>, i: nat, cmd: string, routes: seq<string>, goal: Config, target: Acc)
    requires i < |ls| && !ls[i].Raises?
    requires ConfigFrom(ls, i, cmd).completes == goal.completes
    requires routes + ConfigFrom(ls, i, cmd).routes == goal.routes
    requires Steps(e, a, ConfigFrom(ls, i, cmd).ops) == target
    requires b == Steps(e, a, Next(ls[i], cmd).0)
    ensures var n := Next(ls[i], cmd);
            var rest := ConfigFrom(ls, i + 1, n.2);
            && rest.completes == goal.completes
            && (routes + n.1) + rest.routes == goal.routes
            && Steps(e, b, rest.ops) == target
  {
    var n := Next(ls[i], cmd);
    var rest := ConfigFrom(ls, i + 1, n.2);
    ConfigStep(ls, i, cmd);
    StepsAppend(e, a, n.0, rest.ops);
    assert routes + (n.1 + rest.routes) == (routes + n.1) + rest.routes;
  }

  /** Everything after the loop. */
  method RunTail(s: Session, p: Params, routes: seq<string>, summary0: string) returns (summary: string, ok: bool)
    modifies s
    ensures ok == Tail(s.switchName, p, routes).1
    ensures Acc(s.St(), summary) == Steps(s.E(), Acc(old(s.St()), summary0), Tail(s.switchName, p, routes).0)
  {
    var sw := s.switchName;
    var t := Target(sw, p);
    if t.None? {
      summary := s.Run(Services(p), summary0);
      return summary, false;
    }
    var cmd := RouteCmd(t.value);
    summary := s.Run(Services(p) + [Rec(cmd, RoutesJudge(sw, cmd, routes))] + Closing(), summary0);
    ok := true;
  }

  /** `main`: the log text, or `None` where Python raises (the module then writes no log). */
  method RunModule(s: Session, p: Params) returns (msg: Option<string>)
    modifies s
    requires Holding(s.policy, Held)
    ensures var (ops, completes) := Outcome(s.switchName, p);
            msg.Some? == completes
            && s.St() == (if completes then WithStatus(Steps(s.E(), Acc(old(s.St()), ""), ops).m)
                          else Steps(s.E(), Acc(old(s.St()), ""), ops).m)
    ensures msg.Some? ==> msg.value == LogText(s.dict)
  {
    ghost var e := s.E();
    ghost var a0 := Acc(s.St(), "");
    var sw := s.switchName;
    var summary := s.Run(Head(sw), "");
    var routes, ok;
    var ls := Classes(LastTwo(sw), SplitLines(p.config));
    summary, routes, ok := Configure(s, ls, BgpPeeringIfDown.DummyAddress(sw), summary);
    ghost var c := Loop(sw, p);
    StepsAppend(e, a0, Head(sw), c.ops);
    if !ok {
      return None;
    }
    summary, ok := RunTail(s, p, routes, summary);
    StepsAppend(e, a0, Head(sw) + c.ops, Tail(sw, p, routes).0);
    if !ok {
      return None;
    }
    s.StoreStatus();
    var text := WriteLog(s.dict);
    msg := Some(text);
  }

  // ---------------------------------------------------------------------
  // Properties

  /**
   * A line on the switch's own network records the command built last
   * again: the dummy interface's address before any other network line.
   */
  lemma AgainRepeats(ls: seq<Line>, i: nat, cmd: string)
    requires i < |ls| && ls[i] == Again
    ensures ConfigFrom(ls, i, cmd).ops == [Rec(cmd, Ignore)] + ConfigFrom(ls, i + 1, cmd).ops
  {
  }

  /** Any other network line addresses its port and makes its command the one an own-network line repeats. */
  lemma AddressRecords(ls: seq<Line>, i: nat, cmd: string)
    requires i < |ls| && ls[i].Address?
    ensures ConfigFrom(ls, i, cmd).ops == [Rec(ls[i].cmd, Ignore)] + ConfigFrom(ls, i + 1, ls[i].cmd).ops
    ensures ConfigFrom(ls, i, cmd).routes == [ls[i].eth] + ConfigFrom(ls, i + 1, ls[i].cmd).routes
  {
  }

  /**
   * The ports to check do not depend on the commands carried along: when
   * the loop finishes they are those of the lines addressing another
   * network, in order.
   */
  lemma {:induction false} RoutesAreEths(ls: seq<Line>, i: nat, cmd: string)
    requires i <= |ls| && ConfigFrom(ls, i, cmd).completes
    ensures ConfigFrom(ls, i, cmd).routes == EthsFrom(ls, i)
    decreases |ls| - i
  {
    if i < |ls| {
      RoutesAreEths(ls, i + 1, Next(ls[i], cmd).2);
    }
  }

  /** The loop finishes exactly when no line raises. */
  lemma {:induction false} LoopCompletes(ls: seq<Line>, i: nat, cmd: string)
    requires i <= |ls|
    ensures ConfigFrom(ls, i, cmd).completes <==> forall k :: i <= k < |ls| ==> !ls[k].Raises?
    decreases |ls| - i
  {
    if i < |ls| && !ls[i].Raises? {
      LoopCompletes(ls, i + 1, Next(ls[i], cmd).2);
    }
  }

  /** Lines other than network lines are skipped; a network line without an address raises. */
  lemma ClassifySpec(id: string, line: string)
    ensures !StartsWith(Strip(line), "network") ==> Classify(id, line) == Skip
    ensures StartsWith(Strip(line), "network") && |Words(Strip(line))| < 2 ==> Classify(id, line) == Raises
    ensures StartsWith(Strip(line), "network") && |Words(Strip(line))| >= 2 ==> Classify(id, line) == Network(id, Octets(Strip(line)))
  {
  }

  /** A network on the switch's own subnet repeats the last command. */
  lemma OwnNetwork(id: string, octets: seq<string>)
    requires |octets| >= 3 && octets[2] == id
    ensures Network(id, octets) == Again
  {
  }

  /**
   * Another network's port is `eth-<third octet>-1`; it gets the network's
   * address with the switch's id as the fourth octet.
   */
  lemma AddressSpec(id: string, address: string)
    requires var octets := Split(address, "."); |octets| >= 4 && octets[2] != id
    requires '.' !in id
    ensures var octets := Split(address, ".");
            Network(id, octets) == Address("eth-" + octets[2] + "-1", IfCmd(octets, id))
            && Split(OwnAddress(octets, id), ".") == octets[3 := id]
  {
    var octets := Split(address, ".");
    var parts := octets[3 := id];
    SplitNoSep(address, ".");
    forall i, k | 0 <= i < |parts| && 0 <= k < |parts[i]|
      ensures parts[i][k] != '.'
    {
      if i != 3 {
        ContainsChar(parts[i], '.');
      }
    }
    SplitOfJoin(parts, '.');
  }

  /**
   * The route queried is to the network of the last switch of the group
   * left once the switch's own id is removed; Python raises when the id is
   * not in the group or nothing is left.
   */
  lemma TargetSpec(sw: string, p: Params)
    ensures var ids := Candidates(sw, p);
            Target(sw, p).Some? <==> LastTwo(sw) in ids && |ids| >= 2
    ensures var ids := Candidates(sw, p);
            Target(sw, p).Some? ==> Target(sw, p).value == RemoveFirst(ids, LastTwo(sw))[|ids| - 2]
    ensures sw in p.leafList ==> |Candidates(sw, p)| == |p.leafList|
  {
  }

  /**
   * The route check passes exactly when there is output and it names every
   * port addressed; otherwise it adds the same line once per missing port.
   */
  lemma RoutesSpec(sw: string, cmd: string, routes: seq<string>, out: string)
    requires out != ""
    ensures RoutesJudge(sw, cmd, routes)(Some(out)).Pass? <==> forall k :: 0 <= k < |routes| ==> Contains(out, routes[k])
    ensures RoutesJudge(sw, cmd, routes)(Some(out)).Fail? ==>
              RoutesJudge(sw, cmd, routes)(Some(out)).line == Repeat(WrongLine(sw, cmd), Misses(Shown(routes, out)))
  {
    var line := WrongLine(sw, cmd);
    assert line[0] == 'O';
    LinesEmpty(line, Shown(routes, out));
    LinesCount(line, Shown(routes, out));
  }

  /** No output fails with a line that does not end the line. */
  lemma RoutesNone(sw: string, cmd: string, routes: seq<string>)
    ensures RoutesJudge(sw, cmd, routes)(None) == Fail(NoneLine(sw, cmd))
    ensures NoneLine(sw, cmd)[|NoneLine(sw, cmd)| - 1] == 'e'
  {
  }

  /** The dummy interface and its address are recorded without being run. */
  lemma HeadHeld(sw: string)
    ensures Held(BgpPeeringIfDown.DummyAdd()) && Held(BgpPeeringIfDown.DummyAddress(sw))
  {
    var add := BgpPeeringIfDown.DummyAdd();
    assert add[12..18] == "dummy0";
    ContainsAt(add, "dummy0", 12);
    var id := LastTwo(sw);
    assert "dummy0 192.168."[0..6] == "dummy0";
    ContainsAt("dummy0 192.168.", "dummy0", 0);
    ContainsConcat("dummy0 192.168.", id, "dummy0");
    ContainsConcat("dummy0 192.168." + id, ".1 netmask 255.255.255.255", "dummy0");
    ContainsConcat("ifconfig ", "dummy0 192.168." + id + ".1 netmask 255.255.255.255", "dummy0");
  }
}
