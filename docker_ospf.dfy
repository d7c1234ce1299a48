/**
 * `testcases/docker/test_docker_ospf.py`: inside a Quagga container, every
 * OSPF network of the config file must show up among the OSPF routes, and
 * the neighbour table must be readable.
 */
module DockerOspf {
  import opened Wrappers
  import opened PyStr
  import opened Recorder
  import opened OrderedDict

  /** `get_cli`: the prefix that runs a command inside the container. */
  function Cli(container: string): string {
    "docker exec -i " + container + " "
  }

  function ConfigCmd(container: string): string { Cli(container) + "vtysh -c 'sh running-config'" }

  function RoutesCmd(container: string): string { Cli(container) + "vtysh -c 'show ip route ospf'" }

  function NeighborCmd(container: string): string { Cli(container) + "vtysh -c 'show ip ospf neighbor'" }

  /** A (stripped) config line that declares an OSPF network. */
  predicate IsNetwork(line: string) {
    Contains(line, "network") && Contains(line, "area")
  }

  /** The route a network line declares: its second word. */
  function Route(line: string): string {
    Word(line, 1)
  }

  /** Every network line has a second word; Python raises otherwise. */
  predicate WellFormed(lines: seq<string>) {
    forall i :: 0 <= i < |lines| ==> IsNetwork(Strip(lines[i])) ==> |Words(Strip(lines[i]))| >= 2
  }

  function RouteLine(sw: string, route: string, cmd: string): string {
    "On switch " + sw + " " + "ospf route " + route + " is not showing up " + "in the output of command " + cmd + " "
  }

  function NoRoutesLine(sw: string, cmd: string): string {
    "On switch " + sw + " " + "ospf routes cannot be verified since " + "output of command " + cmd + " is None"
  }

  function NoNeighborsLine(sw: string, cmd: string): string {
    "On Switch " + sw + " " + "ospf neighbors cannot be verified since " + "output of command " + cmd + " is None"
  }

  /** A config line declares a network that the routes do not show. */
  predicate Missing(raw: string, routes: string) {
    IsNetwork(Strip(raw)) && !Contains(routes, Route(Strip(raw)))
  }

  /** What the check of one raw config line adds to the narrative. */
  function LineReport(sw: string, cmd: string, raw: string, routes: string): string {
    if Missing(raw, routes) then RouteLine(sw, Route(Strip(raw)), cmd) else ""
  }

  function Reports(sw: string, cmd: string, lines: seq<string>, routes: string): (r: seq<string>)
    ensures |r| == |lines|
  {
    seq(|lines|, i requires 0 <= i < |lines| => LineReport(sw, cmd, lines[i], routes))
  }

  function Report(sw: string, cmd: string, lines: seq<string>, routes: string): string {
    Concat(Reports(sw, cmd, lines, routes))
  }

  /** `if ospf_routes:` */
  predicate Truthy(o: Output) {
    o.Some? && o.value != ""
  }

  /** The route check: no routes at all fails, else each missing route adds a failure line. */
  function RouteJudge(sw: string, cmd: string, lines: seq<string>): Output -> Verdict {
    (o: Output) =>
      if !Truthy(o) then Fail(NoRoutesLine(sw, cmd))
      else
        var t := Report(sw, cmd, lines, o.value);
        if t == "" then Pass else Fail(t)
  }

  /** The neighbour check: `out is None or 'error' in out` fails. */
  function NeighborJudge(sw: string, cmd: string): Output -> Verdict {
    (o: Output) => if o.None? || Contains(o.value, "error") then Fail(NoNeighborsLine(sw, cmd)) else Pass
  }

  /** Everything `verify_ospf_neighbors` does, in order. */
  function Script(sw: string, container: string, configFile: string): seq<Op> {
    [Rec(ConfigCmd(container), Ignore),
     Rec(RoutesCmd(container), RouteJudge(sw, RoutesCmd(container), SplitLines(configFile))),
     Rec(NeighborCmd(container), NeighborJudge(sw, NeighborCmd(container))),
     SetLog("result.detail"),
     Rec("goes status", Ignore)]
  }

  /** The loop over the config file, once the routes `out` have been recorded. */
  method CheckRoutes(s: Session, cmd: string, lines: seq<string>, out: Output, summary0: string)
    returns (summary: string)
    modifies s
    requires WellFormed(lines)
    ensures Acc(s.St(), summary) == Conclude(Acc(old(s.St()), summary0), RouteJudge(s.switchName, cmd, lines)(out))
  {
    var sw := s.switchName;
    if !(out.Some? && out.value != "") {
      s.Fail();
      summary := summary0 + NoRoutesLine(sw, cmd);
      return;
    }
    summary := summary0;
    var i := 0;
    while i < |lines|
      invariant 0 <= i <= |lines|
      invariant summary == summary0 + Report(sw, cmd, lines[..i], out.value)
      invariant s.dict == old(s.dict) && s.history == old(s.history)
      invariant s.status == (old(s.status) && Report(sw, cmd, lines[..i], out.value) == "")
    {
      ReportStep(sw, cmd, lines, i, out.value);
      ghost var before := Report(sw, cmd, lines[..i], out.value);
      summary := CheckLine(s, cmd, lines[i], out.value, summary);
      Assoc(summary0, before, LineReport(sw, cmd, lines[i], out.value));
      i := i + 1;
    }
    assert i == |lines|;
    assert lines[..|lines|] == lines;
    TextVerdict(Acc(old(s.St()), summary0), Report(sw, cmd, lines, out.value));
  }

  /** The body of the loop: check one config line against the routes. */
  method CheckLine(s: Session, cmd: string, raw: string, routes: string, summary0: string) returns (summary: string)
    modifies s
    requires IsNetwork(Strip(raw)) ==> |Words(Strip(raw))| >= 2
    ensures summary == summary0 + LineReport(s.switchName, cmd, raw, routes)
    ensures s.dict == old(s.dict) && s.history == old(s.history)
    ensures s.status == (old(s.status) && LineReport(s.switchName, cmd, raw, routes) == "")
  {
    summary := summary0;
    var line := Strip(raw);
    if IsNetwork(line) {
      var route := Route(line);
      if !Contains(routes, route) {
        s.Fail();
        summary := summary + RouteLine(s.switchName, route, cmd);
        RouteLineNonEmpty(s.switchName, route, cmd);
      }
    }
  }

  lemma Assoc(a: string, b: string, c: string)
    ensures (a + b) + c == a + (b + c) && b + "" == b
  {
  }

  lemma ReportStep(sw: string, cmd: string, lines: seq<string>, i: nat, routes: string)
    requires i < |lines|
    ensures Report(sw, cmd, lines[..i + 1], routes) == Report(sw, cmd, lines[..i], routes) + LineReport(sw, cmd, lines[i], routes)
  {
    ReportsPrefix(sw, cmd, lines, i + 1, routes);
    ReportsPrefix(sw, cmd, lines, i, routes);
    ConcatPrefix(Reports(sw, cmd, lines, routes), i);
  }

  lemma ReportsPrefix(sw: string, cmd: string, lines: seq<string>, k: nat, routes: string)
    requires k <= |lines|
    ensures Reports(sw, cmd, lines[..k], routes) == Reports(sw, cmd, lines, routes)[..k]
  {
  }

  lemma RouteLineNonEmpty(sw: string, route: string, cmd: string)
    ensures RouteLine(sw, route, cmd) != ""
  {
    assert RouteLine(sw, route, cmd)[0] == 'O';
  }

  /** The route query and its check. */
  method CheckRoutesCmd(s: Session, container: string, lines: seq<string>, summary0: string) returns (summary: string)
    modifies s
    requires WellFormed(lines)
    ensures Acc(s.St(), summary)
            == Step(s.E(), Acc(old(s.St()), summary0), Rec(RoutesCmd(container), RouteJudge(s.switchName, RoutesCmd(container), lines)))
  {
    ghost var b := Acc(s.St(), summary0);
    var out;
    summary, out := s.Check(RoutesCmd(container), Ignore, summary0);
    summary := CheckRoutes(s, RoutesCmd(container), lines, out, summary);
    ExecJudged(s.E(), b, RoutesCmd(container), RouteJudge(s.switchName, RoutesCmd(container), lines));
  }

  /** `verify_ospf_neighbors` */
  method VerifyOspfNeighbors(s: Session, container: string, configFile: string)
    modifies s
    requires WellFormed(SplitLines(configFile))
    ensures s.St() == Steps(s.E(), Acc(old(s.St()), ""), Script(s.switchName, container, configFile)).m
  {
    ghost var e := s.E();
    var r := Script(s.switchName, container, configFile);
    ghost var a := Acc(s.St(), "");
    var summary := s.Run([Rec(ConfigCmd(container), Ignore)], "");
    ghost var a1 := Acc(s.St(), summary);
    summary := CheckRoutesCmd(s, container, SplitLines(configFile), summary);
    ghost var a2 := Acc(s.St(), summary);
    summary := s.Run(r[2..], summary);
    assert r == [r[0]] + [r[1]] + r[2..];
    StepsAppend(e, a, [r[0]] + [r[1]], r[2..]);
    StepsAppend(e, a, [r[0]], [r[1]]);
    StepsOne(e, a1, r[1]);
  }

  lemma StepsFive(e: Env, a: Acc, r: seq<Op>)
    requires |r| == 5
    ensures Steps(e, a, r) == Step(e, Step(e, Step(e, Step(e, Step(e, a, r[0]), r[1]), r[2]), r[3]), r[4])
  {
    assert r == r[..4] + [r[4]];
    StepsSnoc(e, a, r[..4], r[4]);
    StepsFour(e, a, r[..4]);
  }

  /** `main` */
  method RunModule(s: Session, container: string, configFile: string) returns (text: string)
    modifies s
    requires Plain(s.policy)
    requires WellFormed(SplitLines(configFile))
    ensures s.St() == WithStatus(Steps(s.E(), Acc(old(s.St()), ""), Script(s.switchName, container, configFile)).m)
    ensures text == LogText(s.dict)
  {
    VerifyOspfNeighbors(s, container, configFile);
    s.StoreStatus();
    text := WriteLog(s.dict);
  }

  // ---------------------------------------------------------------------
  // Properties

  /** The narrative is empty exactly when no config line declares a network the routes lack. */
  lemma ReportSpec(sw: string, cmd: string, lines: seq<string>, routes: string)
    ensures Report(sw, cmd, lines, routes) == "" <==> forall i :: 0 <= i < |lines| ==> !Missing(lines[i], routes)
  {
    var parts := Reports(sw, cmd, lines, routes);
    ConcatEmpty(parts);
    forall i | 0 <= i < |lines|
      ensures parts[i] == "" <==> !Missing(lines[i], routes)
    {
      if Missing(lines[i], routes) {
        RouteLineNonEmpty(sw, Route(Strip(lines[i])), cmd);
      }
    }
  }

  /**
   * The route check fails exactly when the routes output is `None` or empty,
   * or some network of the config file is not in it; it never merely notes.
   */
  lemma RouteSpec(sw: string, cmd: string, lines: seq<string>, o: Output)
    ensures RouteJudge(sw, cmd, lines)(o).Fail?
            <==> !Truthy(o) || exists i :: 0 <= i < |lines| && Missing(lines[i], o.value)
    ensures !RouteJudge(sw, cmd, lines)(o).Note?
  {
    if Truthy(o) {
      ReportSpec(sw, cmd, lines, o.value);
    }
  }

  /** The neighbour check fails exactly when the output is `None` or says 'error' (case-sensitive). */
  lemma NeighborSpec(sw: string, cmd: string, o: Output)
    ensures NeighborJudge(sw, cmd)(o).Fail? <==> o.None? || Contains(o.value, "error")
    ensures NeighborJudge(sw, cmd)(Some("Error")).Pass?
  {
    assert !Contains("Error", "error") by {
      ContainsSameLength("Error", "error");
      assert "Error"[0] != "error"[0];
    }
  }

  /**
   * The module records the running config, the routes and the neighbours
   * inside the container, then 'goes status' on the host.
   */
  lemma RecordedSpec(sw: string, container: string, configFile: string)
    ensures Recorded(Script(sw, container, configFile))
            == [ConfigCmd(container), RoutesCmd(container), NeighborCmd(container), "goes status"]
    ensures forall k :: 0 <= k < 3 ==>
              StartsWith(Recorded(Script(sw, container, configFile))[k], "docker exec -i " + container + " ")
  {
    var r := Script(sw, container, configFile);
    var body := r[..3];
    assert r == body + [SetLog("result.detail"), Rec("goes status", Ignore)];
    RecordedAppend(body, [SetLog("result.detail"), Rec("goes status", Ignore)]);
    RecordedAll(body);
    RecordedClosing("result.detail", "goes status", Ignore);
    PrefixOf(Cli(container), "vtysh -c 'sh running-config'");
    PrefixOf(Cli(container), "vtysh -c 'show ip route ospf'");
    PrefixOf(Cli(container), "vtysh -c 'show ip ospf neighbor'");
  }

  lemma PrefixOf(p: string, rest: string)
    ensures StartsWith(p + rest, p)
  {
    assert (p + rest)[..|p|] == p;
  }

  /**
   * The log ends with result.detail, the 'goes status' record and
   * result.status, in that order, when `date` prints no spaces.
   */
  lemma EntryOrder(e: Env, container: string, configFile: string)
    requires SpaceFreeClock(e)
    ensures var r := Script(e.switchName, container, configFile);
            var ks := Keys(WithStatus(Steps(e, Acc(Fresh, ""), r).m).dict);
            var stamp := StampAfter(e, Trace(e.policy, r[..3]), "goes status");
            |ks| >= 3 && ks[|ks| - 3..] == ["result.detail", Key(e.switchName, stamp, "goes status"), "result.status"]
  {
    var r := Script(e.switchName, container, configFile);
    var body := r[..3];
    assert r == body + [SetLog("result.detail"), Rec("goes status", Ignore)];
    RecordedAll(body);
    GoesStatusNotDocker(container);
    assert [] + Trace(e.policy, body) == Trace(e.policy, body);
    ClosingOrder(e, Acc(Fresh, ""), body, "result.detail", "goes status", Ignore);
  }

  lemma GoesStatusNotDocker(container: string)
    ensures "goes status" != ConfigCmd(container) && "goes status" != RoutesCmd(container)
            && "goes status" != NeighborCmd(container)
  {
    assert ConfigCmd(container)[0] == 'd' && RoutesCmd(container)[0] == 'd' && NeighborCmd(container)[0] == 'd';
  }
}
