/**
 * `port_provision/test_single_port_provision.py`: on a 100g port, either
 * check that its link is up or check its optic, FEC and speed and bring it
 * up; any other speed checks nothing.
 */
module SinglePortProvision {
  import opened Wrappers
  import opened PyStr
  import opened Recorder

  datatype Params = Params(
    eth: string, speed: string, media: string, fec: string, channel: string, verifyLinks: bool)

  function HGet(p: Params, field: string): string {
    "goes hget " + p.channel + " " + field
  }

  function LinkCmd(p: Params): string {
    HGet(p, "vnet.eth-" + p.eth + "-1.link")
  }

  function ComplianceCmd(p: Params): string {
    HGet(p, "qsfp.compliance")
  }

  function FecCmd(p: Params): string {
    HGet(p, "vnet.eth-" + p.eth + "-1.fec")
  }

  function SpeedCmd(p: Params): string {
    HGet(p, "vnet.eth-" + p.eth + "-1.speed")
  }

  /** The compliance line the port's optic must show: CWDM4 optics read '100G CWDM4', others '100GBASE-<media>'. */
  function Compliance(p: Params): string {
    "port-" + p.eth + ".qsfp.compliance: extended "
    + (if p.media == "CWDM4" then "100G CWDM4" else "100GBASE-" + p.media)
  }

  function OnSwitch(sw: string): string {
    "On switch " + sw + " "
  }

  function LinkLine(sw: string, p: Params): string {
    OnSwitch(sw) + "port link is not up for " + "eth-" + p.eth + "-1 interface\n"
  }

  function MediaLine(sw: string, p: Params): string {
    OnSwitch(sw) + "eth-" + p.eth + "-1 interface does not " + "have correct optic installed\n"
  }

  function FecLine(sw: string, p: Params): string {
    OnSwitch(sw) + "fec is not set to " + p.fec + " " + "for eth-" + p.eth + "-1 interface\n"
  }

  function SpeedLine(sw: string, p: Params): string {
    OnSwitch(sw) + "speed of the interface " + "is not set to " + p.speed + " for " + "the eth-" + p.eth + "-1 interface\n"
  }

  /**
   * `if want not in out:` fails with `line`. Python raises on a `None`
   * output; the model's callers rule that out, and the judge passes it.
   */
  function Expect(want: string, line: string): Output -> Verdict {
    (o: Output) => if o.Some? && !Contains(o.value, want) then Fail(line) else Pass
  }

  /** The checks of a 100g port. */
  function Checks(sw: string, p: Params): seq<Op> {
    if p.verifyLinks then [Rec(LinkCmd(p), Expect("true", LinkLine(sw, p)))]
    else
      [Rec(ComplianceCmd(p), Expect(Compliance(p), MediaLine(sw, p))),
       Rec(FecCmd(p), Expect(p.fec, FecLine(sw, p))),
       Rec(SpeedCmd(p), Expect(p.speed, SpeedLine(sw, p))),
       Rec("ifconfig eth-" + p.eth + "-1 up", Ignore)]
  }

  function Closing(): seq<Op> {
    [SetLog("result.detail"), Rec("goes status", Ignore)]
  }

  /** Everything `verify_single_port_provisioning` records, in order. */
  function Script(sw: string, p: Params): seq<Op> {
    (if p.speed == "100g" then Checks(sw, p) else []) + Closing()
  }

  /** The queries whose output the checks test: each must answer. */
  ghost predicate Answered(e: Env, p: Params) {
    p.speed == "100g" ==>
      if p.verifyLinks then Answers(e, LinkCmd(p))
      else Answers(e, ComplianceCmd(p)) && Answers(e, FecCmd(p)) && Answers(e, SpeedCmd(p))
  }

  // ---------------------------------------------------------------------
  // The module

  /** `verify_single_port_provisioning` */
  method VerifySinglePortProvisioning(s: Session, p: Params)
    modifies s
    requires Plain(s.policy) && Answered(s.E(), p)
    ensures s.St() == Steps(s.E(), Acc(old(s.St()), ""), Script(s.switchName, p)).m
  {
    var summary := s.Run(Script(s.switchName, p), "");
  }

  /** `main` */
  method RunModule(s: Session, p: Params) returns (text: string)
    modifies s
    requires Plain(s.policy) && Answered(s.E(), p)
    ensures s.St() == WithStatus(Steps(s.E(), Acc(old(s.St()), ""), Script(s.switchName, p)).m)
    ensures text == LogText(s.dict)
  {
    VerifySinglePortProvisioning(s, p);
    s.StoreStatus();
    text := WriteLog(s.dict);
  }

  // ---------------------------------------------------------------------
  // Properties

  /** Any speed but 100g checks nothing: the status stays, the detail is empty, and only the status query runs. */
  lemma OtherSpeedsSilent(e: Env, a: Acc, p: Params)
    requires p.speed != "100g"
    ensures Script(e.switchName, p) == Closing()
    ensures Steps(e, a, Script(e.switchName, p)).m.status == a.m.status
    ensures Steps(e, a, Script(e.switchName, p)).log == a.log
  {
    assert AllSilent(Closing());
    StepsSilent(e, a, Closing());
  }

  /** In link mode the run passes exactly when the link state mentions 'true'. */
  lemma LinkVerdict(e: Env, a: Acc, p: Params)
    requires p.speed == "100g" && p.verifyLinks && Answers(e, LinkCmd(p))
    ensures ExecOut(e, a.m, LinkCmd(p)).Some?
    ensures Steps(e, a, Script(e.switchName, p)).m.status
            == (a.m.status && Contains(ExecOut(e, a.m, LinkCmd(p)).value, "true"))
  {
    var op := Rec(LinkCmd(p), Expect("true", LinkLine(e.switchName, p)));
    assert Script(e.switchName, p) == [op] + Closing();
    StepsCons(e, a, op, Closing());
    StepSpec(e, a, op);
    assert AllSilent(Closing());
    StepsSilent(e, Step(e, a, op), Closing());
  }

  /** A check fails exactly when there is output and it lacks the expected text. */
  lemma ExpectSpec(want: string, line: string, out: string)
    ensures Expect(want, line)(Some(out)) == if Contains(out, want) then Pass else Fail(line)
  {
  }

  /** The default FEC, the empty string, is found in any output. */
  lemma DefaultFecPasses(sw: string, p: Params, out: string)
    requires p.fec == ""
    ensures Expect(p.fec, FecLine(sw, p))(Some(out)) == Pass
  {
    ContainsEmpty(out);
  }

  /**
   * The optic check wants 'port-<eth>.qsfp.compliance: extended ' followed
   * by '100G CWDM4' for CWDM4 media and by '100GBASE-<media>' otherwise.
   */
  lemma ComplianceSpec(p: Params)
    ensures var head := "port-" + p.eth + ".qsfp.compliance: extended ";
            (p.media == "CWDM4" ==> Compliance(p) == head + "100G CWDM4")
            && (p.media != "CWDM4" ==> Compliance(p) == head + "100GBASE-" + p.media)
  {
  }

  /** In optic mode the four records run in order: optic, FEC, speed, then the interface is brought up. */
  lemma OpticOrder(sw: string, p: Params)
    requires p.speed == "100g" && !p.verifyLinks
    ensures |Script(sw, p)| == 6
    ensures Script(sw, p)[0].cmd == ComplianceCmd(p) && Script(sw, p)[1].cmd == FecCmd(p)
    ensures Script(sw, p)[2].cmd == SpeedCmd(p) && Script(sw, p)[3] == Rec("ifconfig eth-" + p.eth + "-1 up", Ignore)
    ensures Script(sw, p)[4] == SetLog("result.detail")
  {
  }
}
