/**
 * `bgp/test_bgp_state_propagation.py`: the propagating switch announces a
 * dummy network and takes its listed interfaces down and up again; every
 * other switch checks that the BGP route to that network is present,
 * withdrawn, and present again.
 */
module BgpStatePropagation {
  import opened Wrappers
  import opened PyStr
  import opened PyList
  import opened Recorder
  import BgpPeeringIfDown

  datatype Params = Params(propagateSwitch: string, ethList: string, packageName: string)

  const RouteCmd: string := "vtysh -c 'sh ip route'"

  /** `'B>* 192.168.{}.1'.format(propagate_switch[-2::])`: the best BGP route to the dummy network. */
  function Route(p: Params): string {
    "B>* " + "192.168." + LastTwo(p.propagateSwitch) + ".1"
  }

  /** `if out:` */
  predicate Truthy(o: Output) {
    o.Some? && o.value != ""
  }

  function AbsentLine(sw: string, p: Params): string {
    "On Switch " + sw + " bgp route " + Route(p) + " is not present " + "in the output of command " + RouteCmd + "\n"
  }

  function PresentLine(sw: string, p: Params): string {
    "On Switch " + sw + " bgp route " + Route(p) + " is present " + "in the output of command " + RouteCmd + " "
    + "even after shutting down this route\n"
  }

  /** Without a trailing newline, as written. */
  function NoneLine(sw: string): string {
    "On switch " + sw + " " + "bgp routes cannot be verified " + "because output of command " + RouteCmd + " " + "is None"
  }

  /** `verify_bgp_routes(module, present)`: the route must be there exactly when `present`. */
  function RouteJudge(sw: string, p: Params, present: bool): Output -> Verdict {
    (o: Output) =>
      if !Truthy(o) then Fail(NoneLine(sw))
      else if present && !Contains(o.value, Route(p)) then Fail(AbsentLine(sw, p))
      else if !present && Contains(o.value, Route(p)) then Fail(PresentLine(sw, p))
      else Pass
  }

  function CheckRoutes(sw: string, p: Params, present: bool): Op {
    Rec(RouteCmd, RouteJudge(sw, p, present))
  }

  function Restart(p: Params): string {
    "service " + p.packageName + " restart"
  }

  function Status(p: Params): string {
    "service " + p.packageName + " status"
  }

  function IfCmd(eth: string, state: string): string {
    "ifconfig eth-" + eth + "-1 " + state
  }

  /** Every listed interface, stripped, brought to `state` in list order. */
  function Toggle(p: Params, state: string): (r: seq<Op>)
    ensures |r| == |Split(p.ethList, ",")|
  {
    var eths := Split(p.ethList, ",");
    seq(|eths|, i requires 0 <= i < |eths| => Rec(IfCmd(Strip(eths[i]), state), Ignore))
  }

  function Services(p: Params): seq<Op> {
    [Rec(BgpPeeringIfDown.RunningConfig, Ignore), Rec(Restart(p), Ignore), Rec(Status(p), Ignore)]
  }

  function Closing(): seq<Op> {
    [SetLog("result.detail"), Rec("goes status", Ignore)]
  }

  /** Everything `verify_quagga_bgp_state_propagation` records, in order. */
  function Script(sw: string, p: Params): seq<Op> {
    if sw == p.propagateSwitch then
      [Rec(BgpPeeringIfDown.DummyAdd(), Ignore), Rec(BgpPeeringIfDown.DummyAddress(sw), Ignore)]
      + Services(p) + Toggle(p, "down") + Toggle(p, "up") + Closing()
    else
      Services(p) + [CheckRoutes(sw, p, true), CheckRoutes(sw, p, false), CheckRoutes(sw, p, true)] + Closing()
  }

  // ---------------------------------------------------------------------
  // The module

  /** `verify_quagga_bgp_state_propagation` */
  method VerifyStatePropagation(s: Session, p: Params)
    modifies s
    requires Holding(s.policy, BgpPeeringIfDown.Held)
    ensures s.St() == Steps(s.E(), Acc(old(s.St()), ""), Script(s.switchName, p)).m
  {
    var summary := s.Run(Script(s.switchName, p), "");
  }

  /** `main` */
  method RunModule(s: Session, p: Params) returns (text: string)
    modifies s
    requires Holding(s.policy, BgpPeeringIfDown.Held)
    ensures s.St() == WithStatus(Steps(s.E(), Acc(old(s.St()), ""), Script(s.switchName, p)).m)
    ensures text == LogText(s.dict)
  {
    VerifyStatePropagation(s, p);
    s.StoreStatus();
    text := WriteLog(s.dict);
  }

  // ---------------------------------------------------------------------
  // Properties

  /**
   * A route check fails without output; otherwise it fails exactly when the
   * route's presence differs from what is expected.
   */
  lemma RouteSpec(sw: string, p: Params, present: bool, o: Output)
    ensures RouteJudge(sw, p, present)(o).Fail? <==> !Truthy(o) || (present != Contains(o.value, Route(p)))
    ensures !RouteJudge(sw, p, present)(o).Note?
    ensures !Truthy(o) ==> RouteJudge(sw, p, present)(o) == Fail(NoneLine(sw))
  {
  }

  /** On the same output, exactly one of the present and the absent checks fails. */
  lemma PresentAbsentExclusive(sw: string, p: Params, out: string)
    requires out != ""
    ensures RouteJudge(sw, p, true)(Some(out)).Fail? != RouteJudge(sw, p, false)(Some(out)).Fail?
  {
  }

  /** Every other switch checks the route present, then withdrawn, then present again, after the services. */
  lemma ObserverScript(sw: string, p: Params)
    requires sw != p.propagateSwitch
    ensures |Script(sw, p)| == 8
    ensures Script(sw, p)[3] == CheckRoutes(sw, p, true)
    ensures Script(sw, p)[4] == CheckRoutes(sw, p, false)
    ensures Script(sw, p)[5] == CheckRoutes(sw, p, true)
    ensures Script(sw, p)[6] == SetLog("result.detail")
  {
  }

  /** The records the propagating switch makes before toggling its interfaces. */
  function Announce(sw: string, p: Params): seq<Op> {
    [Rec(BgpPeeringIfDown.DummyAdd(), Ignore), Rec(BgpPeeringIfDown.DummyAddress(sw), Ignore)] + Services(p)
  }

  lemma PropagatorScript(sw: string, p: Params)
    requires sw == p.propagateSwitch
    ensures Script(sw, p) == Announce(sw, p) + Toggle(p, "down") + Toggle(p, "up") + Closing()
    ensures |Announce(sw, p)| == 5
  {
  }

  /**
   * The propagating switch brings interface `i` down at position `5 + i`
   * and back up at position `5 + n + i`, `n` being the number of listed
   * interfaces.
   */
  lemma TogglesAt(sw: string, p: Params, i: nat)
    requires sw == p.propagateSwitch && i < |Split(p.ethList, ",")|
    ensures var n := |Split(p.ethList, ",")|;
            var eth := Strip(Split(p.ethList, ",")[i]);
            |Script(sw, p)| == 7 + 2 * n
            && Script(sw, p)[5 + i] == Rec(IfCmd(eth, "down"), Ignore)
            && Script(sw, p)[5 + n + i] == Rec(IfCmd(eth, "up"), Ignore)
  {
    var eth := Strip(Split(p.ethList, ",")[i]);
    PropagatorScript(sw, p);
    ToggleAt(p, "down", i);
    ToggleAt(p, "up", i);
    Layout(Script(sw, p), Announce(sw, p), Toggle(p, "down"), Toggle(p, "up"), Closing(), i,
           Rec(IfCmd(eth, "down"), Ignore), Rec(IfCmd(eth, "up"), Ignore));
  }

  lemma ToggleAt(p: Params, state: string, i: nat)
    requires i < |Split(p.ethList, ",")|
    ensures Toggle(p, state)[i] == Rec(IfCmd(Strip(Split(p.ethList, ",")[i]), state), Ignore)
  {
  }

  lemma Layout<T>(s: seq<T>, a: seq<T>, b: seq<T>, c: seq<T>, d: seq<T>, i: nat, x: T, y: T)
    requires s == a + b + c + d && i < |b| && |b| == |c| && b[i] == x && c[i] == y
    ensures |s| == |a| + 2 * |b| + |d|
    ensures s[|a| + i] == x && s[|a| + |b| + i] == y
  {
  }

  /** The propagating switch checks nothing: its run keeps the status it started with and adds no narrative. */
  lemma PropagatorSilent(e: Env, a: Acc, p: Params)
    requires e.switchName == p.propagateSwitch
    ensures Steps(e, a, Script(e.switchName, p)).m.status == a.m.status
    ensures Steps(e, a, Script(e.switchName, p)).log == a.log
  {
    var sw := e.switchName;
    PropagatorScript(sw, p);
    ToggleSilent(p, "down");
    ToggleSilent(p, "up");
    EndsSilent(sw, p);
    SilentFour(Script(sw, p), Announce(sw, p), Toggle(p, "down"), Toggle(p, "up"), Closing());
    StepsSilent(e, a, Script(sw, p));
  }

  lemma EndsSilent(sw: string, p: Params)
    ensures AllSilent(Announce(sw, p)) && AllSilent(Closing())
  {
  }

  lemma SilentFour(s: seq<Op>, a: seq<Op>, b: seq<Op>, c: seq<Op>, d: seq<Op>)
    requires s == a + b + c + d
    requires AllSilent(a) && AllSilent(b) && AllSilent(c) && AllSilent(d)
    ensures AllSilent(s)
  {
    AllSilentAppend(a, b);
    AllSilentAppend(a + b, c);
    AllSilentAppend(a + b + c, d);
  }

  lemma ToggleSilent(p: Params, state: string)
    ensures AllSilent(Toggle(p, state))
  {
  }

  /** The dummy set-up and the restart are recorded without being run. */
  lemma HeldCommands(sw: string, p: Params)
    ensures BgpPeeringIfDown.Held(BgpPeeringIfDown.DummyAdd())
    ensures BgpPeeringIfDown.Held(BgpPeeringIfDown.DummyAddress(sw))
    ensures BgpPeeringIfDown.Held(Restart(p))
  {
    var q := BgpPeeringIfDown.Params("", [], "", false, p.packageName);
    BgpPeeringIfDown.SetupHeld(sw, q);
    assert Restart(p) == BgpPeeringIfDown.Restart(q);
  }
}
