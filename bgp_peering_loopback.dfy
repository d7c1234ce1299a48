/**
 * `bgp/test_bgp_peering_loopback.py`: add and address a dummy loopback
 * interface, restart Quagga, then check that every BGP neighbour of the
 * configuration is present and established.
 */
module BgpPeeringLoopback {
  import opened Wrappers
  import opened PyStr
  import opened OrderedDict
  import opened Recorder
  import BgpPeeringIfDown
  import BgpAuthentication

  datatype Params = Params(configFile: string, packageName: string)

  /** The set-up is the one of `bgp/test_bgp_peering_if_down.py` for the same package. */
  function Shared(p: Params): BgpPeeringIfDown.Params {
    BgpPeeringIfDown.Params(p.configFile, [], "", false, p.packageName)
  }

  /** Add and address `dummy0`, read the running configuration, restart the package and query it. */
  function Head(sw: string, p: Params): seq<Op> {
    BgpPeeringIfDown.Setup(sw, Shared(p))
  }

  function Check(sw: string, p: Params): Op {
    Rec(BgpPeeringIfDown.NeighborsCmd, BgpPeeringIfDown.NeighborJudge(sw, SplitLines(p.configFile)))
  }

  /** Everything `verify_bgp_peering_loopback` records, in order. */
  function Script(sw: string, p: Params): seq<Op> {
    Head(sw, p) + [Check(sw, p)] + BgpAuthentication.Closing()
  }

  // ---------------------------------------------------------------------
  // The module

  /** `verify_bgp_peering_loopback` */
  method VerifyBgpPeeringLoopback(s: Session, p: Params)
    modifies s
    requires Holding(s.policy, BgpPeeringIfDown.Held)
    requires BgpPeeringIfDown.WellFormed(SplitLines(p.configFile))
    ensures s.St() == Steps(s.E(), Acc(old(s.St()), ""), Script(s.switchName, p)).m
  {
    var summary := s.Run(Script(s.switchName, p), "");
  }

  /** `main`: the log file is opened for writing, so its text replaces what was there. */
  method RunModule(s: Session, p: Params) returns (text: string)
    modifies s
    requires Holding(s.policy, BgpPeeringIfDown.Held)
    requires BgpPeeringIfDown.WellFormed(SplitLines(p.configFile))
    ensures s.St() == WithStatus(Steps(s.E(), Acc(old(s.St()), ""), Script(s.switchName, p)).m)
    ensures text == LogText(s.dict)
  {
    VerifyBgpPeeringLoopback(s, p);
    s.StoreStatus();
    text := WriteLog(s.dict);
  }

  // ---------------------------------------------------------------------
  // Properties

  /**
   * The dummy interface commands and the restart are recorded as `None`
   * without being run: of the set-up only the running configuration and
   * the status query start, each followed by its time stamp.
   */
  lemma HeadTrace(pol: Policy, sw: string, p: Params)
    requires Holding(pol, BgpPeeringIfDown.Held)
    ensures BgpPeeringIfDown.Held(BgpPeeringIfDown.DummyAdd()) && BgpPeeringIfDown.Held(BgpPeeringIfDown.DummyAddress(sw))
    ensures BgpPeeringIfDown.Held(BgpAuthentication.Restart(BgpAuthentication.Params(p.configFile, p.packageName, false)))
    ensures Trace(pol, Head(sw, p))
            == [DateCmd, DateCmd] + (BgpPeeringIfDown.Started(BgpPeeringIfDown.RunningConfig) + [DateCmd]
                                     + BgpPeeringIfDown.Started("service " + p.packageName + " status"))
  {
    BgpPeeringIfDown.SetupHeld(sw, Shared(p));
    BgpPeeringIfDown.SetupTrace(pol, sw, Shared(p));
  }

  /**
   * The run keeps its status exactly when the neighbour check passes on
   * what the neighbour query returns, and its narrative is that check's
   * lines: one per neighbour whose IP or AS is missing, then the
   * Established line, or the `None` line when there is no output.
   */
  lemma Verdict(e: Env, a: Acc, p: Params)
    ensures var o := ExecOut(e, Steps(e, a, Head(e.switchName, p)).m, BgpPeeringIfDown.NeighborsCmd);
            var v := BgpPeeringIfDown.NeighborJudge(e.switchName, SplitLines(p.configFile))(o);
            var r := Steps(e, a, Script(e.switchName, p));
            r.m.status == (a.m.status && v.Pass?) && r.log == a.log + VerdictLine(v)
  {
    var sw := e.switchName;
    var c := Check(sw, p);
    var head := Head(sw, p);
    assert head == BgpPeeringIfDown.DummySetup(sw) + BgpPeeringIfDown.ServiceSetup(Shared(p));
    assert |head| == 5 && forall i :: 0 <= i < 5 ==> head[i].Rec? && head[i].judge == Ignore;
    assert AllSilent(head) && AllSilent(BgpAuthentication.Closing());
    OneCheck(e, a, head, c.cmd, c.judge, BgpAuthentication.Closing());
  }

  /** `result.detail` holds the narrative of the neighbour check, even after the closing status query. */
  lemma Detail(e: Env, a: Acc, p: Params)
    ensures var r := Steps(e, a, Script(e.switchName, p));
            Get(r.m.dict, "result.detail") == Some(Some(r.log))
  {
    var sw := e.switchName;
    var body := Head(sw, p) + [Check(sw, p)];
    var closing := [SetLog("result.detail"), Rec("goes status", Ignore)];
    ClosingDetail(e, a, body, "result.detail", "goes status", Ignore);
    var b := Steps(e, a, body);
    assert Ignore(ExecOut(e, b.m, "goes status")) == Pass;
    assert Steps(e, a, body + closing).log == b.log;
    assert Script(sw, p) == body + closing;
  }
}
