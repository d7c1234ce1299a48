/**
 * `upgrade/goes_upgrade_downgrade.py`: install the upgrade and the downgrade
 * GOES installer in turn, five or six times, checking `goes status` around
 * every install and the installed package versions after it.
 */
module GoesUpgradeDowngrade {
  import opened Wrappers
  import opened PyStr
  import opened PyList
  import opened Recorder
  import opened OrderedDict

  datatype Params = Params(
    installerDir: string, upgradeInstaller: string, downgradeInstaller: string,
    upgradeVersion: string, downgradeVersion: string, channel: string)

  const GoesStatus: string := "goes status"

  /** `list.pop()` on the split version strings raises when they have no line. */
  predicate Valid(p: Params) {
    SplitLines(p.upgradeVersion) != [] && SplitLines(p.downgradeVersion) != []
  }

  /** `get_current_goes_version` */
  function VersionCmd(p: Params): string {
    "goes hget " + p.channel + " packages"
  }

  /** The installer a round runs: the upgrade one when `up`, else the downgrade one. */
  function InstallCmd(p: Params, up: bool): string {
    p.installerDir + "./" + (if up then p.upgradeInstaller else p.downgradeInstaller)
  }

  function State(up: bool): string {
    if up then "upgrade" else "downgrade"
  }

  /** The lines a round checks after installing: every line of the version string, the last one included. */
  function Versions(p: Params, up: bool): seq<string> {
    SplitLines(if up then p.upgradeVersion else p.downgradeVersion)
  }

  /** The lines `main` keeps after `pop()`: all but the last. */
  function Popped(s: string): (r: seq<string>)
    requires SplitLines(s) != []
    ensures |r| == |SplitLines(s)| - 1
    ensures forall i :: 0 <= i < |r| ==> r[i] == SplitLines(s)[i]
  {
    SplitLines(s)[..|SplitLines(s)| - 1]
  }

  // ---------------------------------------------------------------------
  // Narrative lines

  function StatusLine(sw: string): string {
    "On switch " + sw + " " + "goes status is not ok\n"
  }

  function InstallLine(sw: string, up: bool): string {
    "On switch " + sw + " " + "goes " + State(up) + " failed\n"
  }

  /** The version line has no space after the switch name. */
  function VersionLine(sw: string, up: bool): string {
    "On switch " + sw + "goes versions are not matching with given "
    + State(up) + " versions after " + State(up) + "\n"
  }

  // ---------------------------------------------------------------------
  // Tests of outputs

  /**
   * `verify_goes_status`: fails when the lower-cased status mentions 'not ok'.
   * Python raises on a `None` status; `RunModule` requires an answer, so the
   * `None` case, which passes here, is never reached.
   */
  function StatusJudge(sw: string): (r: Output -> Verdict)
    ensures r(None) == Pass
  {
    (o: Output) =>
      if o.Some? && Contains(Lower(o.value), "not ok") then Fail(StatusLine(sw)) else Pass
  }

  /** The installer's output fails the round when it reports a timeout or exit status 1; no output passes. */
  function InstallJudge(sw: string, up: bool): Output -> Verdict {
    (o: Output) =>
      if o.Some? && (Contains(o.value, "timeout") || Contains(o.value, "exit status 1"))
      then Fail(InstallLine(sw, up)) else Pass
  }

  /** Whether each stripped version line is part of `cur`. */
  function Found(vs: seq<string>, cur: string): (r: seq<bool>)
    ensures |r| == |vs|
  {
    seq(|vs|, i requires 0 <= i < |vs| => Contains(cur, Strip(vs[i])))
  }

  /** The version loop as a test of the current version, adding `line` per version not found. */
  function TextJudge(line: string, vs: seq<string>): Output -> Verdict {
    (o: Output) =>
      var t := if o.Some? then Lines(line, Found(vs, o.value)) else "";
      if t == "" then Pass else Fail(t)
  }

  /** The version loop (whose caller, when there are lines to check, ensures the current version is not `None`). */
  function VersionJudge(sw: string, up: bool, vs: seq<string>): Output -> Verdict {
    TextJudge(VersionLine(sw, up), vs)
  }

  // ---------------------------------------------------------------------
  // Reference definitions

  /** The stripped version lines `cur` lacks, in order. */
  function Missing(vs: seq<string>, cur: string): seq<string>
    decreases |vs|
  {
    if vs == [] then []
    else Missing(vs[..|vs| - 1], cur)
         + (if Contains(cur, Strip(vs[|vs| - 1])) then [] else [Strip(vs[|vs| - 1])])
  }

  /** `run_downgrade`: some stripped line is part of the current version. */
  predicate Downgrades(lines: seq<string>, cur: Output) {
    cur.Some? && exists i :: 0 <= i < |lines| && Contains(cur.value, Strip(lines[i]))
  }

  // ---------------------------------------------------------------------
  // Scripts

  /** One call of `upgrade_downgrade_goes`. */
  function Round(sw: string, p: Params, up: bool): seq<Op> {
    [Rec(GoesStatus, StatusJudge(sw)),
     Rec(InstallCmd(p, up), InstallJudge(sw, up)),
     Rec(VersionCmd(p), VersionJudge(sw, up, Versions(p, up))),
     Rec(GoesStatus, StatusJudge(sw))]
  }

  function RoundAll(sw: string, p: Params): bool -> seq<Op> {
    (up: bool) => Round(sw, p, up)
  }

  /** Which installer each round runs (true for the upgrade). */
  function Ups(rd: bool): seq<bool> {
    seq(if rd then 6 else 5, i => (i % 2 == 1) == rd)
  }

  /** The rounds of `main`, as it spells them out. */
  function Rounds(sw: string, p: Params, rd: bool): seq<Op> {
    var d, u := Round(sw, p, false), Round(sw, p, true);
    if rd then d + u + d + u + d + u else u + d + u + d + u
  }

  /** Everything `main` records, once the first version query answered `cur`. */
  function Script(sw: string, p: Params, cur: Output): seq<Op>
    requires Valid(p)
  {
    [Rec(VersionCmd(p), Ignore)]
    + Rounds(sw, p, Downgrades(Popped(p.upgradeVersion), cur))
    + [SetLog("result.detail")]
  }

  // ---------------------------------------------------------------------
  // The module

  /** The loop of `main` that sets `run_downgrade`. */
  method RunsDowngrade(lines: seq<string>, cur: Output) returns (rd: bool)
    requires lines != [] ==> cur.Some?
    ensures rd == Downgrades(lines, cur)
  {
    rd := false;
    var i := 0;
    while i < |lines|
      invariant 0 <= i <= |lines|
      invariant rd == (cur.Some? && exists j :: 0 <= j < i && Contains(cur.value, Strip(lines[j])))
    {
      if Contains(cur.value, Strip(lines[i])) {
        rd := true;
      }
      i := i + 1;
    }
  }

  /** The check of the current version against every line of `versions`, after its query has been recorded. */
  method CheckVersions(s: Session, line: string, versions: seq<string>, cur: Output, summary0: string) returns (summary: string)
    modifies s
    requires line != ""
    requires versions != [] ==> cur.Some?
    ensures Acc(s.St(), summary) == Conclude(Acc(old(s.St()), summary0), TextJudge(line, versions)(cur))
  {
    summary := summary0;
    var current := if cur.Some? then cur.value else "";
    ghost var found := Found(versions, current);
    var i := 0;
    while i < |versions|
      invariant 0 <= i <= |versions|
      invariant summary == summary0 + Lines(line, found[..i])
      invariant s.dict == old(s.dict) && s.history == old(s.history)
      invariant s.status == (old(s.status) && Lines(line, found[..i]) == "")
    {
      LinesStep(line, found, i);
      ghost var before := Lines(line, found[..i]);
      assert found[i] == Contains(current, Strip(versions[i]));
      if !Contains(current, Strip(versions[i])) {
        s.Fail();
        summary := summary + line;
        Assoc(summary0, before, line);
      } else {
        Assoc(summary0, before, "");
      }
      i := i + 1;
    }
    assert found[..|versions|] == found;
    TextVerdict(Acc(old(s.St()), summary0), Lines(line, found));
  }

  lemma Assoc(a: string, b: string, c: string)
    ensures (a + b) + c == a + (b + c) && b + "" == b
  {
  }

  lemma LineNonEmpty(sw: string, up: bool)
    ensures VersionLine(sw, up) != ""
  {
    assert VersionLine(sw, up)[0] == 'O';
  }

  /** `upgrade_downgrade_goes` */
  method UpgradeDowngradeGoes(s: Session, p: Params, up: bool, summary0: string) returns (summary: string)
    modifies s
    requires Answers(s.E(), VersionCmd(p))
    ensures Acc(s.St(), summary) == Steps(s.E(), Acc(old(s.St()), summary0), Round(s.switchName, p, up))
  {
    ghost var a := Acc(s.St(), summary0);
    var out;
    summary, out := s.Check(GoesStatus, StatusJudge(s.switchName), summary0);
    summary, out := s.Check(InstallCmd(p, up), InstallJudge(s.switchName, up), summary);
    ghost var b := Acc(s.St(), summary);
    var cur;
    summary, cur := s.Check(VersionCmd(p), Ignore, summary);
    LineNonEmpty(s.switchName, up);
    summary := CheckVersions(s, VersionLine(s.switchName, up), Versions(p, up), cur, summary);
    ExecJudged(s.E(), b, VersionCmd(p), VersionJudge(s.switchName, up, Versions(p, up)));
    ghost var c := Acc(s.St(), summary);
    summary, out := s.Check(GoesStatus, StatusJudge(s.switchName), summary);
    StepsFour(s.E(), a, Round(s.switchName, p, up));
  }

  /** The two sequences of rounds of `main`. */
  method RunRounds(s: Session, p: Params, rd: bool, summary0: string) returns (summary: string)
    modifies s
    requires Answers(s.E(), VersionCmd(p))
    ensures Acc(s.St(), summary) == Steps(s.E(), Acc(old(s.St()), summary0), Rounds(s.switchName, p, rd))
  {
    if rd {
      summary := DowngradeFirst(s, p, summary0);
    } else {
      summary := UpgradeFirst(s, p, summary0);
    }
  }

  /** With `run_downgrade`: downgrade, upgrade, three times over. */
  method DowngradeFirst(s: Session, p: Params, summary0: string) returns (summary: string)
    modifies s
    requires Answers(s.E(), VersionCmd(p))
    ensures Acc(s.St(), summary) == Steps(s.E(), Acc(old(s.St()), summary0), Rounds(s.switchName, p, true))
  {
    ghost var e, a := s.E(), Acc(s.St(), summary0);
    ghost var d, u := Round(s.switchName, p, false), Round(s.switchName, p, true);
    summary := UpgradeDowngradeGoes(s, p, false, summary0);
    summary := UpgradeDowngradeGoes(s, p, true, summary);
    StepsAppend(e, a, d, u);
    summary := UpgradeDowngradeGoes(s, p, false, summary);
    StepsAppend(e, a, d + u, d);
    summary := UpgradeDowngradeGoes(s, p, true, summary);
    StepsAppend(e, a, d + u + d, u);
    summary := UpgradeDowngradeGoes(s, p, false, summary);
    StepsAppend(e, a, d + u + d + u, d);
    summary := UpgradeDowngradeGoes(s, p, true, summary);
    StepsAppend(e, a, d + u + d + u + d, u);
  }

  /** Without it: upgrade, downgrade, upgrade, downgrade, upgrade. */
  method UpgradeFirst(s: Session, p: Params, summary0: string) returns (summary: string)
    modifies s
    requires Answers(s.E(), VersionCmd(p))
    ensures Acc(s.St(), summary) == Steps(s.E(), Acc(old(s.St()), summary0), Rounds(s.switchName, p, false))
  {
    ghost var e, a := s.E(), Acc(s.St(), summary0);
    ghost var d, u := Round(s.switchName, p, false), Round(s.switchName, p, true);
    summary := UpgradeDowngradeGoes(s, p, true, summary0);
    summary := UpgradeDowngradeGoes(s, p, false, summary);
    StepsAppend(e, a, u, d);
    summary := UpgradeDowngradeGoes(s, p, true, summary);
    StepsAppend(e, a, u + d, u);
    summary := UpgradeDowngradeGoes(s, p, false, summary);
    StepsAppend(e, a, u + d + u, d);
    summary := UpgradeDowngradeGoes(s, p, true, summary);
    StepsAppend(e, a, u + d + u + d, u);
  }

  /** `main` */
  method RunModule(s: Session, p: Params) returns (text: string)
    modifies s
    requires Plain(s.policy)
    requires Valid(p)
    requires Answers(s.E(), VersionCmd(p)) && Answers(s.E(), GoesStatus)
    ensures s.St() == WithStatus(Steps(s.E(), Acc(old(s.St()), ""),
                                       Script(s.switchName, p, ExecOut(s.E(), old(s.St()), VersionCmd(p)))).m)
    ensures text == LogText(s.dict)
  {
    ghost var a := Acc(s.St(), "");
    ghost var cur0 := ExecOut(s.E(), s.St(), VersionCmd(p));
    var summary, cur := s.Check(VersionCmd(p), Ignore, "");
    var rd := RunsDowngrade(Popped(p.upgradeVersion), cur);
    ghost var b := Acc(s.St(), summary);
    summary := RunRounds(s, p, rd, summary);
    ghost var c := Acc(s.St(), summary);
    summary := s.Run([SetLog("result.detail")], summary);
    ScriptSteps(s.E(), a, Rec(VersionCmd(p), Ignore), Rounds(s.switchName, p, rd), "result.detail");
    assert Script(s.switchName, p, cur0) == [Rec(VersionCmd(p), Ignore)] + Rounds(s.switchName, p, rd) + [SetLog("result.detail")];
    s.StoreStatus();
    text := WriteLog(s.dict);
  }

  lemma ScriptSteps(e: Env, a: Acc, first: Op, body: seq<Op>, detail: string)
    ensures Steps(e, a, [first] + body + [SetLog(detail)]) == Steps(e, Steps(e, Step(e, a, first), body), [SetLog(detail)])
  {
    StepsAppend(e, a, [first] + body, [SetLog(detail)]);
    StepsCons(e, a, first, body);
  }

  // ---------------------------------------------------------------------
  // Properties

  /** `main` drops the last line: a version named only there never starts with a downgrade. */
  lemma LastLineIgnored(u: string, cur: string)
    requires SplitLines(u) != []
    ensures Downgrades(Popped(u), Some(cur))
            <==> exists i :: 0 <= i < |SplitLines(u)| - 1 && Contains(cur, Strip(SplitLines(u)[i]))
  {
    var ls := SplitLines(u);
    if Downgrades(Popped(u), Some(cur)) {
      var i :| 0 <= i < |Popped(u)| && Contains(cur, Strip(Popped(u)[i]));
      assert ls[i] == Popped(u)[i];
    }
    if exists i :: 0 <= i < |ls| - 1 && Contains(cur, Strip(ls[i])) {
      var i :| 0 <= i < |ls| - 1 && Contains(cur, Strip(ls[i]));
      assert Popped(u)[i] == ls[i];
    }
  }

  /** Six rounds starting with a downgrade when `run_downgrade` holds, else five starting with an upgrade; they alternate and end with an upgrade. */
  lemma UpsSpec(rd: bool)
    ensures |Ups(rd)| == if rd then 6 else 5
    ensures Ups(rd)[0] == !rd
    ensures forall i :: 0 < i < |Ups(rd)| ==> Ups(rd)[i] == !Ups(rd)[i - 1]
    ensures Ups(rd)[|Ups(rd)| - 1]
  {
  }

  /** Round `i` checks the status, runs its installer, queries the version and checks the status again. */
  lemma RoundAt(sw: string, p: Params, rd: bool, i: nat)
    requires i < |Ups(rd)|
    ensures var r := Rounds(sw, p, rd); var up := Ups(rd)[i];
            |r| == 4 * |Ups(rd)|
            && r[4 * i] == Rec(GoesStatus, StatusJudge(sw))
            && r[4 * i + 1] == Rec(InstallCmd(p, up), InstallJudge(sw, up))
            && r[4 * i + 2] == Rec(VersionCmd(p), VersionJudge(sw, up, Versions(p, up)))
            && r[4 * i + 3] == Rec(GoesStatus, StatusJudge(sw))
  {
    RoundsFlat(sw, p, rd);
    var ups, f := Ups(rd), RoundAll(sw, p);
    FlatMapAt(ups, f, 4, i, 0);
    FlatMapAt(ups, f, 4, i, 1);
    FlatMapAt(ups, f, 4, i, 2);
    FlatMapAt(ups, f, 4, i, 3);
  }

  /** The rounds are those of the alternating installer choices. */
  lemma RoundsFlat(sw: string, p: Params, rd: bool)
    ensures Rounds(sw, p, rd) == FlatMap(Ups(rd), RoundAll(sw, p))
  {
    var f := RoundAll(sw, p);
    if rd {
      assert Ups(rd) == [false] + [true, false, true, false, true];
      Unrolled(f, false, [true, false, true, false, true]);
      Unrolled(f, true, [false, true, false, true]);
      Unrolled(f, false, [true, false, true]);
      FiveRounds(f, sw, p, [true, false, true]);
    } else {
      assert Ups(rd) == [true, false] + [true, false, true];
      Unrolled(f, true, [false, true, false, true]);
      Unrolled(f, false, [true, false, true]);
      FiveRounds(f, sw, p, [true, false, true]);
    }
  }

  lemma FiveRounds(f: bool -> seq<Op>, sw: string, p: Params, xs: seq<bool>)
    requires f == RoundAll(sw, p) && xs == [true, false, true]
    ensures FlatMap(xs, f) == Round(sw, p, true) + Round(sw, p, false) + Round(sw, p, true)
  {
    Unrolled(f, true, [false, true]);
    Unrolled(f, false, [true]);
    Unrolled(f, true, []);
  }

  lemma Unrolled(f: bool -> seq<Op>, x: bool, xs: seq<bool>)
    ensures FlatMap([x] + xs, f) == f(x) + FlatMap(xs, f)
  {
    assert ([x] + xs)[1..] == xs;
  }

  /** The status check fails exactly when the lower-cased status contains 'not ok'. */
  lemma StatusSpec(sw: string, status: string)
    ensures StatusJudge(sw)(Some(status)).Fail? <==> Contains(Lower(status), "not ok")
    ensures !StatusJudge(sw)(Some(status)).Note?
  {
  }

  /** An install fails exactly when its output has 'timeout' or 'exit status 1'; an install printing nothing passes. */
  lemma InstallSpec(sw: string, up: bool, o: Output)
    ensures InstallJudge(sw, up)(o).Fail? <==> o.Some? && (Contains(o.value, "timeout") || Contains(o.value, "exit status 1"))
    ensures InstallJudge(sw, up)(None) == Pass
  {
  }

  /** Each missing version line adds one version line to the narrative. */
  lemma {:induction false} VersionTextCount(line: string, vs: seq<string>, cur: string)
    ensures Lines(line, Found(vs, cur)) == Repeat(line, |Missing(vs, cur)|)
    decreases |vs|
  {
    if vs != [] {
      var init, last := vs[..|vs| - 1], Strip(vs[|vs| - 1]);
      var found := Found(vs, cur);
      assert found[..|vs| - 1] == Found(init, cur);
      VersionTextCount(line, init, cur);
      var n := |Missing(init, cur)|;
      if found[|vs| - 1] {
        assert Missing(vs, cur) == Missing(init, cur) + [];
        assert Lines(line, found) == Lines(line, Found(init, cur)) + "";
      } else {
        assert Missing(vs, cur) == Missing(init, cur) + [last];
        assert Repeat(line, n + 1) == Repeat(line, n) + line;
      }
    }
  }

  /** The missing lines are exactly the stripped version lines the current version lacks. */
  lemma {:induction false} MissingSpec(vs: seq<string>, cur: string, x: string)
    ensures x in Missing(vs, cur) <==> !Contains(cur, x) && exists i :: 0 <= i < |vs| && x == Strip(vs[i])
    decreases |vs|
  {
    if vs != [] {
      var init := vs[..|vs| - 1];
      MissingSpec(init, cur, x);
      if x in Missing(init, cur) {
        var i :| 0 <= i < |init| && x == Strip(init[i]);
        assert vs[i] == init[i];
      }
      if !Contains(cur, x) && exists i :: 0 <= i < |vs| && x == Strip(vs[i]) {
        var i :| 0 <= i < |vs| && x == Strip(vs[i]);
        if i < |vs| - 1 {
          assert init[i] == vs[i];
        }
      }
    }
  }

  /** The version check fails exactly when some stripped line is not part of the current version. */
  lemma VersionSpec(sw: string, up: bool, vs: seq<string>, cur: string)
    ensures VersionJudge(sw, up, vs)(Some(cur)).Fail?
            <==> exists i :: 0 <= i < |vs| && !Contains(cur, Strip(vs[i]))
    ensures VersionJudge(sw, up, vs)(Some(cur)).Fail? ==>
            VersionJudge(sw, up, vs)(Some(cur)).line == Repeat(VersionLine(sw, up), |Missing(vs, cur)|)
  {
    VersionTextCount(VersionLine(sw, up), vs, cur);
    LineNonEmpty(sw, up);
    RepeatEmpty(VersionLine(sw, up), |Missing(vs, cur)|);
    if exists i :: 0 <= i < |vs| && !Contains(cur, Strip(vs[i])) {
      var i :| 0 <= i < |vs| && !Contains(cur, Strip(vs[i]));
      MissingSpec(vs, cur, Strip(vs[i]));
    } else if Missing(vs, cur) != [] {
      MissingSpec(vs, cur, Missing(vs, cur)[0]);
    }
  }

  /** `result.detail` is entered before `result.status`, and both are the last entries of the log. */
  lemma DetailLast(e: Env, sw: string, p: Params, cur: Output)
    requires Valid(p)
    ensures var ks := Keys(WithStatus(Steps(e, Acc(Fresh, ""), Script(sw, p, cur)).m).dict);
            |ks| >= 2 && ks[|ks| - 2..] == ["result.detail", "result.status"]
  {
    var rd := Downgrades(Popped(p.upgradeVersion), cur);
    var body := [Rec(VersionCmd(p), Ignore)] + Rounds(sw, p, rd);
    RoundsRecorded(sw, p, rd);
    AllRecAppend([Rec(VersionCmd(p), Ignore)], Rounds(sw, p, rd));
    assert Script(sw, p, cur) == body + [SetLog("result.detail")];
    DetailThenStatus(e, Acc(Fresh, ""), body, "result.detail");
  }

  lemma RoundsRecorded(sw: string, p: Params, rd: bool)
    ensures AllRec(Rounds(sw, p, rd))
  {
    var d, u := Round(sw, p, false), Round(sw, p, true);
    assert AllRec(d) && AllRec(u);
    AllRecAppend(d, u);
    AllRecAppend(u, d);
    AllRecAppend(d + u, d);
    AllRecAppend(u + d, u);
    AllRecAppend(d + u + d, u);
    AllRecAppend(u + d + u, d);
    AllRecAppend(d + u + d + u, d);
    AllRecAppend(u + d + u + d, u);
    AllRecAppend(d + u + d + u + d, u);
  }
}
