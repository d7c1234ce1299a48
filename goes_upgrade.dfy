/**
 * `upgrade/goes_upgrade.py`: check GOES status, read the coreboot version,
 * run the installer (or flash the BIOS with flashrom), check status again,
 * read the version again, and report the two versions.
 */
module GoesUpgrade {
  import opened Wrappers
  import opened PyStr
  import opened Recorder
  import GoesUpgradeDowngrade
  import opened OrderedDict

  datatype Params = Params(installerDir: string, installerName: string, coreboot: bool)

  const StatusCmd: string := "goes status"
  const VersionCmd: string := "goes upgrade -r"

  /** `'{}./{}'.format(installer_dir, installer_name)` */
  function Installer(p: Params): string {
    p.installerDir + "./" + p.installerName
  }

  /** The upgrade command: flashrom writing the installer into the BIOS region, or the installer itself. */
  function UpgradeCmd(p: Params): string {
    if p.coreboot then
      "/usr/local/sbin/flashrom -p internal "
      + "-l /usr/local/share/flashrom/layouts/platina-mk1.xml -i bios "
      + "-w " + Installer(p) + " -A -V"
    else Installer(p)
  }

  function UpgradeLine(sw: string): string {
    "On switch " + sw + " " + "goes upgrade failed\n"
  }

  /** An upgrade fails when its output reports a timeout or exit status 1; no output passes. */
  function UpgradeJudge(sw: string): Output -> Verdict {
    (o: Output) =>
      if o.Some? && (Contains(o.value, "timeout") || Contains(o.value, "exit status 1")) then Fail(UpgradeLine(sw))
      else Pass
  }

  // ---------------------------------------------------------------------
  // get_core_boot_version

  /** What `get_core_boot_version` makes of the version output. */
  datatype Version = Found(v: string) | Absent | Raises

  /** `'version:' in line.lower()` for the stripped line. */
  predicate Mentions(line: string) {
    Contains(Lower(Strip(line)), "version:")
  }

  /** A line of the version output, as the loop sees it: token list of a line mentioning 'version:', or another line. */
  datatype Line = Other | Hit(words: seq<string>)

  function Classify(line: string): Line {
    if Mentions(line) then Hit(Words(Strip(line))) else Other
  }

  function Classes(lines: seq<string>): (r: seq<Line>)
    ensures |r| == |lines| && forall k :: 0 <= k < |lines| ==> r[k] == Classify(lines[k])
  {
    seq(|lines|, k requires 0 <= k < |lines| => Classify(lines[k]))
  }

  /** The version read from lines `i..`: token 1 of the first line mentioning 'version:'. */
  function VersionFrom(ls: seq<Line>, i: nat): Version
    requires i <= |ls|
    decreases |ls| - i
  {
    if i == |ls| then Absent
    else if ls[i].Hit? then (if |ls[i].words| >= 2 then Found(ls[i].words[1]) else Raises)
    else VersionFrom(ls, i + 1)
  }

  /** The index of the first line mentioning 'version:' from `i` on, or the line count. */
  function FirstHit(ls: seq<Line>, i: nat): (k: nat)
    requires i <= |ls|
    ensures i <= k <= |ls| && (k < |ls| ==> ls[k].Hit?)
    ensures forall j :: i <= j < k ==> ls[j].Other?
    decreases |ls| - i
  {
    if i == |ls| || ls[i].Hit? then i else FirstHit(ls, i + 1)
  }

  function VersionOf(out: string): Version {
    VersionFrom(Classes(SplitLines(out)), 0)
  }

  /** `str()` of what `get_core_boot_version` returns. */
  function Show(v: Version): string
    requires !v.Raises?
  {
    if v.Found? then v.v else "None"
  }

  /** Without a trailing newline, as written. */
  function ClosingLine(sw: string, before: string, after: string): string {
    "On switch " + sw + ", upgraded core boot version from " + before + " to " + after
  }

  // ---------------------------------------------------------------------
  // The run, as a function of the outputs

  /** `verify_goes_status`: `None` where a missing status makes Python raise. */
  function StatusStep(e: Env, a: Acc): Option<Acc> {
    if ExecOut(e, a.m, StatusCmd).None? then None
    else Some(Step(e, a, Rec(StatusCmd, GoesUpgradeDowngrade.StatusJudge(e.switchName))))
  }

  /** `get_core_boot_version`: the new state and the version; a missing output raises. */
  function VersionStep(e: Env, m: Sim): (Sim, Version) {
    var out := ExecOut(e, m, VersionCmd);
    (ExecF(e, m, VersionCmd).0, if out.None? then Raises else VersionOf(out.value))
  }

  /** The closing line noted in the narrative, which `result.detail` then holds. */
  function Finish(e: Env, a: Acc, line: string): Acc {
    Step(e, Conclude(a, Note(line)), SetLog("result.detail"))
  }

  /** The second version query and the report of both versions. */
  function Report(e: Env, a: Acc, before: Version): Option<Acc>
    requires !before.Raises?
  {
    var (m, after) := VersionStep(e, a.m);
    if after.Raises? then None
    else Some(Finish(e, Acc(m, a.log), ClosingLine(e.switchName, Show(before), Show(after))))
  }

  /** The second half of `upgrade_goes`, from the upgrade command on. */
  function After(e: Env, a: Acc, p: Params, before: Version): Option<Acc>
    requires !before.Raises?
  {
    match StatusStep(e, Step(e, a, Rec(UpgradeCmd(p), UpgradeJudge(e.switchName))))
    case None => None
    case Some(a4) => Report(e, a4, before)
  }

  /** `upgrade_goes`: the state it leaves, or `None` where Python raises. */
  function Upgrade(e: Env, a: Acc, p: Params): Option<Acc> {
    match StatusStep(e, a)
    case None => None
    case Some(a1) =>
      var (m2, before) := VersionStep(e, a1.m);
      if before.Raises? then None else After(e, Acc(m2, a1.log), p, before)
  }

  // ---------------------------------------------------------------------
  // The module

  /** `verify_goes_status`; `ok` is false where Python raises. */
  method VerifyGoesStatus(s: Session, summary0: string) returns (summary: string, ok: bool)
    modifies s
    ensures ok == StatusStep(s.E(), Acc(old(s.St()), summary0)).Some?
    ensures ok ==> Acc(s.St(), summary) == StatusStep(s.E(), Acc(old(s.St()), summary0)).value
  {
    var out;
    summary, out := s.Check(StatusCmd, GoesUpgradeDowngrade.StatusJudge(s.switchName), summary0);
    ok := out.Some?;
  }

  /** The loop of `get_core_boot_version` over the output's lines, each classified as it is reached. */
  method ParseVersion(ls: seq<Line>) returns (v: Version)
    ensures v == VersionFrom(ls, 0)
  {
    var i := 0;
    while i < |ls|
      invariant i <= |ls| && VersionFrom(ls, i) == VersionFrom(ls, 0)
    {
      if ls[i].Hit? {
        if |ls[i].words| < 2 {
          return Raises;
        }
        return Found(ls[i].words[1]);
      }
      i := i + 1;
    }
    v := Absent;
  }

  /** `get_core_boot_version`; `Raises` where Python raises. */
  method GetCoreBootVersion(s: Session) returns (v: Version)
    modifies s
    ensures (s.St(), v) == VersionStep(s.E(), old(s.St()))
  {
    var out := s.Execute(VersionCmd);
    if out.None? {
      return Raises;
    }
    v := ParseVersion(Classes(SplitLines(out.value)));
  }

  /** The second version query and the closing line. */
  method RunReport(s: Session, before: Version, summary0: string) returns (ok: bool)
    modifies s
    requires !before.Raises?
    ensures var r := Report(s.E(), Acc(old(s.St()), summary0), before);
            ok == r.Some? && (ok ==> s.St() == r.value.m)
  {
    var after := GetCoreBootVersion(s);
    if after.Raises? {
      return false;
    }
    var summary := summary0 + ClosingLine(s.switchName, Show(before), Show(after));
    s.Store("result.detail", Some(summary));
    ok := true;
  }

  /** The second half of `upgrade_goes`. */
  method RunAfter(s: Session, p: Params, before: Version, summary0: string) returns (ok: bool)
    modifies s
    requires !before.Raises?
    ensures var r := After(s.E(), Acc(old(s.St()), summary0), p, before);
            ok == r.Some? && (ok ==> s.St() == r.value.m)
  {
    var out;
    var summary;
    summary, out := s.Check(UpgradeCmd(p), UpgradeJudge(s.switchName), summary0);
    summary, ok := VerifyGoesStatus(s, summary);
    if ok {
      ok := RunReport(s, before, summary);
    }
  }

  /** `upgrade_goes`; `ok` is false where Python raises. */
  method UpgradeGoes(s: Session, p: Params) returns (ok: bool)
    modifies s
    ensures var r := Upgrade(s.E(), Acc(old(s.St()), ""), p);
            ok == r.Some? && (ok ==> s.St() == r.value.m)
  {
    var summary;
    summary, ok := VerifyGoesStatus(s, "");
    if !ok {
      return;
    }
    var before := GetCoreBootVersion(s);
    if before.Raises? {
      return false;
    }
    ok := RunAfter(s, p, before, summary);
  }

  /** `main`: the text appended to the log, or `None` where Python raises (the module then writes no log). */
  method RunModule(s: Session, p: Params) returns (msg: Option<string>)
    modifies s
    requires Truncating(s.policy)
    ensures var r := Upgrade(s.E(), Acc(old(s.St()), ""), p);
            msg.Some? == r.Some? && (r.Some? ==> s.St() == WithStatus(r.value.m) && msg.value == LogText(s.dict))
  {
    var ok := UpgradeGoes(s, p);
    if !ok {
      return None;
    }
    s.StoreStatus();
    var text := WriteLog(s.dict);
    msg := Some(text);
  }

  // ---------------------------------------------------------------------
  // Properties

  /**
   * With coreboot set, flashrom writes `<dir>./<name>` into the BIOS region;
   * otherwise `<dir>./<name>` is run itself.
   */
  lemma UpgradeCmdSpec(p: Params)
    ensures p.coreboot ==> StartsWith(UpgradeCmd(p), "/usr/local/sbin/flashrom ")
                           && Contains(UpgradeCmd(p), "-w " + Installer(p) + " -A -V")
    ensures !p.coreboot ==> UpgradeCmd(p) == p.installerDir + "./" + p.installerName
  {
    if p.coreboot {
      var head := "/usr/local/sbin/flashrom -p internal " + "-l /usr/local/share/flashrom/layouts/platina-mk1.xml -i bios ";
      var tail := "-w " + Installer(p) + " -A -V";
      assert UpgradeCmd(p) == head + tail;
      ContainsAt(tail, tail, 0);
      ContainsConcat(head, tail, tail);
    }
  }

  /** An upgrade fails exactly when it prints 'timeout' or 'exit status 1'. */
  lemma UpgradeSpec(sw: string, o: Output)
    ensures UpgradeJudge(sw)(o).Fail? <==> o.Some? && (Contains(o.value, "timeout") || Contains(o.value, "exit status 1"))
    ensures !UpgradeJudge(sw)(o).Note?
  {
  }

  /**
   * The version is token 1 of the first line that mentions 'version:'; with
   * no such line it is `None`, and Python raises when that line has a
   * single token.
   */
  lemma {:induction false} VersionFromSpec(ls: seq<Line>, i: nat)
    requires i <= |ls|
    ensures var k := FirstHit(ls, i);
            VersionFrom(ls, i) == if k == |ls| then Absent
                                  else if |ls[k].words| >= 2 then Found(ls[k].words[1]) else Raises
    decreases |ls| - i
  {
    if i < |ls| && ls[i].Other? {
      VersionFromSpec(ls, i + 1);
    }
  }

  /** `VersionFromSpec` on the output's lines: each stripped, lower-cased and searched for 'version:'. */
  lemma VersionSpec(out: string)
    ensures var lines := SplitLines(out);
            var k := FirstHit(Classes(lines), 0);
            && (forall j :: 0 <= j < k ==> !Mentions(lines[j]))
            && (k < |lines| ==> Mentions(lines[k]))
            && VersionOf(out) == if k == |lines| then Absent
                                 else if |Words(Strip(lines[k]))| >= 2 then Found(Words(Strip(lines[k]))[1]) else Raises
  {
    VersionFromSpec(Classes(SplitLines(out)), 0);
  }

  /** The found version is a whole token: it is not empty and has no white space. */
  lemma FoundIsWord(out: string)
    requires VersionOf(out).Found?
    ensures VersionOf(out).v != "" && forall c :: c in VersionOf(out).v ==> !IsSpace(c)
  {
    var ls := Classes(SplitLines(out));
    VersionFromSpec(ls, 0);
    var k := FirstHit(ls, 0);
    assert IsWord(ls[k].words[1]);
  }

  /** The closing line ends the narrative, and `result.detail` holds the narrative. */
  lemma FinishSpec(e: Env, a: Acc, line: string)
    ensures EndsWith(Finish(e, a, line).log, line)
    ensures Get(Finish(e, a, line).m.dict, "result.detail") == Some(Some(Finish(e, a, line).log))
    ensures Finish(e, a, line).m.status == a.m.status
  {
    var a6 := Conclude(a, Note(line));
    OrderedDict.PutGet(a6.m.dict, "result.detail", Some(a6.log), "result.detail");
  }

  /**
   * When the run finishes, the narrative ends with the version line (with
   * no newline, whatever else failed), `result.detail` holds it, and the
   * version line itself never fails the run.
   */
  lemma ClosingLast(e: Env, a: Acc, p: Params)
    requires Upgrade(e, a, p).Some?
    ensures var r := Upgrade(e, a, p).value;
            exists before, after :: EndsWith(r.log, ClosingLine(e.switchName, before, after))
    ensures Get(Upgrade(e, a, p).value.m.dict, "result.detail") == Some(Some(Upgrade(e, a, p).value.log))
  {
    var a1 := StatusStep(e, a).value;
    var (m2, before) := VersionStep(e, a1.m);
    var a4 := StatusStep(e, Step(e, Acc(m2, a1.log), Rec(UpgradeCmd(p), UpgradeJudge(e.switchName)))).value;
    var (m5, after) := VersionStep(e, a4.m);
    var line := ClosingLine(e.switchName, Show(before), Show(after));
    assert Upgrade(e, a, p).value == Finish(e, Acc(m5, a4.log), line);
    FinishSpec(e, Acc(m5, a4.log), line);
  }

  predicate EndsWith(s: string, suffix: string) {
    |suffix| <= |s| && s[|s| - |suffix|..] == suffix
  }
}
