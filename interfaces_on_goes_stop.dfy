/**
 * `issues/verify_interfaces_on_goes_stop.py`: the Linux interfaces
 * `eth-1-1` to `eth-17-1` must disappear from `ip link show` when goes is
 * stopped and come back when it is started again.
 */
module InterfacesOnGoesStop {
  import opened Wrappers
  import opened PyStr
  import opened Recorder
  import opened OrderedDict

  const LinkShow: string := "ip link show"
  const Interfaces: nat := 17

  /** `['eth-{}-1'.format(i) for i in range(1, 18)]` */
  function Eths(): (r: seq<string>)
    ensures |r| == Interfaces
  {
    seq(Interfaces, i requires 0 <= i < Interfaces => "eth-" + NatToStr(i + 1) + "-1")
  }

  /** Added once per interface still listed after goes is stopped. */
  function StopLine(sw: string): string {
    "On switch " + sw + " " + "linux interfaces are showing up " + "in output of command " + LinkShow + " "
    + "even after stopping goes"
  }

  /** Added once per interface missing after goes is started. */
  function StartLine(sw: string): string {
    "On switch " + sw + " " + "linux interfaces are not showing up " + "in output of command " + LinkShow + " "
    + "even after starting goes"
  }

  /** For each interface, whether its presence in `out` is the wanted one. */
  function AsWanted(out: string, want: bool): (r: seq<bool>)
    ensures |r| == Interfaces
  {
    seq(Interfaces, i requires 0 <= i < Interfaces => Contains(out, Eths()[i]) == want)
  }

  /**
   * The loop over the interfaces as a test of the listing (whose caller
   * ensures it is not `None`): `line` once per interface whose presence is
   * not the wanted one.
   */
  function LinkJudge(line: string, want: bool): Output -> Verdict {
    (o: Output) =>
      var t := if o.Some? then Lines(line, AsWanted(o.value, want)) else "";
      if t == "" then Pass else Fail(t)
  }

  /** Everything `main` records. */
  function Script(sw: string): seq<Op> {
    [Rec("goes stop", Ignore), Rec(LinkShow, LinkJudge(StopLine(sw), false)),
     Rec("goes start", Ignore), Rec(LinkShow, LinkJudge(StartLine(sw), true))]
  }

  /** One of the two interface loops of `main`, once the listing `out` has been recorded. */
  method CheckLinks(s: Session, line: string, want: bool, out: Output, summary0: string) returns (summary: string)
    modifies s
    requires line != "" && out.Some?
    ensures Acc(s.St(), summary) == Conclude(Acc(old(s.St()), summary0), LinkJudge(line, want)(out))
  {
    summary := summary0;
    var eths := Eths();
    ghost var ok := AsWanted(out.value, want);
    var i := 0;
    while i < |eths|
      invariant 0 <= i <= |eths|
      invariant summary == summary0 + Lines(line, ok[..i])
      invariant s.dict == old(s.dict) && s.history == old(s.history)
      invariant s.status == (old(s.status) && Lines(line, ok[..i]) == "")
    {
      LinesStep(line, ok, i);
      ghost var before := Lines(line, ok[..i]);
      if Contains(out.value, eths[i]) != want {
        s.Fail();
        summary := summary + line;
        Assoc(summary0, before, line);
      } else {
        Assoc(summary0, before, "");
      }
      i := i + 1;
    }
    assert i == |eths|;
    assert ok[..|eths|] == ok;
    TextVerdict(Acc(old(s.St()), summary0), Lines(line, ok));
  }

  lemma Assoc(a: string, b: string, c: string)
    ensures (a + b) + c == a + (b + c) && b + "" == b
  {
  }

  /** Record a listing of the links and test it. */
  method ShowLinks(s: Session, line: string, want: bool, summary0: string) returns (summary: string)
    modifies s
    requires line != "" && Answers(s.E(), LinkShow)
    ensures Acc(s.St(), summary) == Step(s.E(), Acc(old(s.St()), summary0), Rec(LinkShow, LinkJudge(line, want)))
  {
    ghost var a := Acc(s.St(), summary0);
    var out;
    summary, out := s.Check(LinkShow, Ignore, summary0);
    summary := CheckLinks(s, line, want, out, summary);
    ExecJudged(s.E(), a, LinkShow, LinkJudge(line, want));
  }

  /** `main` */
  method RunModule(s: Session) returns (text: string)
    modifies s
    requires Plain(s.policy) && Answers(s.E(), LinkShow)
    ensures s.St() == StatusThenDetail(Steps(s.E(), Acc(old(s.St()), ""), Script(s.switchName)), "result.detail")
    ensures text == LogText(s.dict)
  {
    ghost var a := Acc(s.St(), "");
    var sw := s.switchName;
    var summary, out := s.Check("goes stop", Ignore, "");
    LinesNonEmpty(sw);
    summary := ShowLinks(s, StopLine(sw), false, summary);
    summary, out := s.Check("goes start", Ignore, summary);
    summary := ShowLinks(s, StartLine(sw), true, summary);
    StepsFour(s.E(), a, Script(sw));
    s.StoreStatus();
    s.Store("result.detail", Some(summary));
    text := WriteLog(s.dict);
  }

  lemma LinesNonEmpty(sw: string)
    ensures StopLine(sw) != "" && StartLine(sw) != ""
  {
    assert StopLine(sw)[0] == 'O' && StartLine(sw)[0] == 'O';
  }

  // ---------------------------------------------------------------------
  // Properties

  /**
   * After goes is stopped, the listing fails the test exactly when it names
   * one of the seventeen interfaces; after goes is started, exactly when it
   * misses one. The narrative then has one line per such interface.
   */
  lemma LinkSpec(sw: string, out: string)
    ensures LinkJudge(StopLine(sw), false)(Some(out)).Fail?
            <==> exists n :: 1 <= n <= Interfaces && Contains(out, "eth-" + NatToStr(n) + "-1")
    ensures LinkJudge(StartLine(sw), true)(Some(out)).Fail?
            <==> exists n :: 1 <= n <= Interfaces && !Contains(out, "eth-" + NatToStr(n) + "-1")
    ensures !LinkJudge(StopLine(sw), false)(Some(out)).Note? && !LinkJudge(StartLine(sw), true)(Some(out)).Note?
  {
    LinesNonEmpty(sw);
    OneSpec(StopLine(sw), false, out);
    OneSpec(StartLine(sw), true, out);
  }

  /** The test of either listing, with one line per interface whose presence is wrong. */
  lemma OneSpec(line: string, want: bool, out: string)
    requires line != ""
    ensures LinkJudge(line, want)(Some(out)).Fail?
            <==> exists n :: 1 <= n <= Interfaces && Contains(out, "eth-" + NatToStr(n) + "-1") != want
    ensures LinkJudge(line, want)(Some(out)).Fail? ==>
              LinkJudge(line, want)(Some(out)).line == Repeat(line, Misses(AsWanted(out, want)))
  {
    var ok := AsWanted(out, want);
    LinesEmpty(line, ok);
    LinesCount(line, ok);
    if exists n :: 1 <= n <= Interfaces && Contains(out, "eth-" + NatToStr(n) + "-1") != want {
      var n :| 1 <= n <= Interfaces && Contains(out, "eth-" + NatToStr(n) + "-1") != want;
      assert !ok[n - 1];
    }
    if !forall i :: 0 <= i < |ok| ==> ok[i] {
      var i :| 0 <= i < |ok| && !ok[i];
      assert Contains(out, "eth-" + NatToStr(i + 1) + "-1") != want;
    }
  }

  /**
   * Run from an empty dictionary, the module lists `result.status` and
   * then `result.detail` last, and `result.detail` holds the narrative.
   */
  lemma ClosingKeys(e: Env, m: Sim)
    requires Keys(m.dict) == []
    ensures var a := Steps(e, Acc(m, ""), Script(e.switchName));
            var d := StatusThenDetail(a, "result.detail").dict;
            |Keys(d)| >= 2 && Keys(d)[|Keys(d)| - 2..] == ["result.status", "result.detail"]
            && Get(d, "result.detail") == Some(Some(a.log))
  {
    var r := Script(e.switchName);
    assert r[0].Rec? && r[1].Rec? && r[2].Rec? && r[3].Rec?;
    StatusBeforeDetail(e, Acc(m, ""), r, "result.detail");
  }
}
