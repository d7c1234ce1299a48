/**
 * `bgp/test_bgp_authentication.py`: restart Quagga and check that every
 * BGP neighbour of the configuration (configured with its password) is
 * present and established; in dry-run mode only list the commands the
 * test would run.
 */
module BgpAuthentication {
  import opened Wrappers
  import opened PyStr
  import opened OrderedDict
  import opened Recorder
  import BgpPeeringIfDown

  datatype Params = Params(configFile: string, packageName: string, dryRun: bool)

  /**
   * `('service' in cmd and 'restart' in cmd) or dry_run_mode`: recorded as
   * `None` without being run.
   */
  predicate Held(dryRun: bool, cmd: string) {
    (Contains(cmd, "service") && Contains(cmd, "restart")) || dryRun
  }

  function HeldBy(dryRun: bool): string -> bool {
    (cmd: string) => Held(dryRun, cmd)
  }

  function Restart(p: Params): string {
    "service " + p.packageName + " restart"
  }

  function Status(p: Params): string {
    "service " + p.packageName + " status"
  }

  const Pause: string := "pause for 35 secs"

  function Closing(): seq<Op> {
    [SetLog("result.detail"), Rec("goes status", Ignore)]
  }

  /**
   * Everything `verify_bgp_authentication` records, in order; the neighbour
   * check is the one of `bgp/test_bgp_peering_if_down.py`, starting from an
   * empty narrative.
   */
  function Script(sw: string, p: Params): seq<Op> {
    Head(p) + [Check(sw, p)] + Closing()
  }

  /** The running configuration, the restart and the status query. */
  function Head(p: Params): seq<Op> {
    [Rec(BgpPeeringIfDown.RunningConfig, Ignore), Rec(Restart(p), Ignore), Rec(Status(p), Ignore)]
  }

  function Check(sw: string, p: Params): Op {
    Rec(BgpPeeringIfDown.NeighborsCmd, BgpPeeringIfDown.NeighborJudge(sw, SplitLines(p.configFile)))
  }

  /** The commands a dry run lists. */
  function DryCmds(p: Params): seq<string> {
    [BgpPeeringIfDown.RunningConfig, Restart(p), Pause, Status(p), BgpPeeringIfDown.NeighborsCmd]
  }

  /** Records whose output nothing looks at. */
  function Records(cmds: seq<string>): (r: seq<Op>)
    ensures |r| == |cmds| && forall i :: 0 <= i < |cmds| ==> r[i] == Rec(cmds[i], Ignore)
  {
    seq(|cmds|, i requires 0 <= i < |cmds| => Rec(cmds[i], Ignore))
  }

  /** How `main` exits: with the listed commands, or with the dictionary and its log. */
  datatype Exit = Cmds(cmds: seq<string>) | Logged(text: string)

  // ---------------------------------------------------------------------
  // The module

  /** `verify_bgp_authentication` */
  method VerifyBgpAuthentication(s: Session, p: Params)
    modifies s
    requires Holding(s.policy, HeldBy(p.dryRun))
    requires BgpPeeringIfDown.WellFormed(SplitLines(p.configFile))
    ensures s.St() == Steps(s.E(), Acc(old(s.St()), ""), Script(s.switchName, p)).m
  {
    var summary := s.Run(Script(s.switchName, p), "");
  }

  /** The dry-run path of `main`: record the five commands and list the keys. */
  method DryRun(s: Session, p: Params) returns (cmds: seq<string>)
    modifies s
    ensures s.St() == Steps(s.E(), Acc(old(s.St()), ""), Records(DryCmds(p))).m
    ensures cmds == Keys(s.dict)
  {
    var summary := s.Run(Records(DryCmds(p)), "");
    var d := s.dict;
    cmds := [];
    var i := 0;
    while i < |d|
      invariant i <= |d| && cmds == Keys(d[..i])
      modifies {}
    {
      assert d[..i + 1] == d[..i] + [d[i]];
      KeysSnoc(d[..i], d[i]);
      cmds := cmds + [d[i].0];
      i := i + 1;
    }
    assert d[..|d|] == d;
  }

  /** `main`: a dry run lists the keys it recorded; a real run stores the verdict and writes the log. */
  method RunModule(s: Session, p: Params) returns (r: Exit)
    modifies s
    requires Holding(s.policy, HeldBy(p.dryRun))
    requires BgpPeeringIfDown.WellFormed(SplitLines(p.configFile))
    ensures p.dryRun ==> s.St() == Steps(s.E(), Acc(old(s.St()), ""), Records(DryCmds(p))).m
                         && r == Cmds(Keys(s.dict))
    ensures !p.dryRun ==> s.St() == WithStatus(Steps(s.E(), Acc(old(s.St()), ""), Script(s.switchName, p)).m)
                          && r == Logged(LogText(s.dict))
  {
    if p.dryRun {
      var cmds := DryRun(s, p);
      r := Cmds(cmds);
    } else {
      VerifyBgpAuthentication(s, p);
      s.StoreStatus();
      var text := WriteLog(s.dict);
      r := Logged(text);
    }
  }

  lemma KeysSnoc(d: Dict<Output>, entry: (string, Output))
    ensures Keys(d + [entry]) == Keys(d) + [entry.0]
  {
  }

  // ---------------------------------------------------------------------
  // Properties

  /**
   * The restart is held back in every run and, in a dry run, every command
   * is.
   */
  lemma HeldCommands(p: Params, cmd: string)
    ensures Held(p.dryRun, Restart(p))
    ensures p.dryRun ==> Held(p.dryRun, cmd)
  {
    var q := BgpPeeringIfDown.Params("", [], "", false, p.packageName);
    BgpPeeringIfDown.RestartHeld(q);
    ContainsAt(Restart(p), "service", 0);
  }

  /** `n` calls of `date`. */
  function Dates(n: nat): (r: seq<string>)
    ensures |r| == n && forall i :: 0 <= i < n ==> r[i] == DateCmd
  {
    seq(n, i => DateCmd)
  }

  /** The key of the `i`-th record of a run in which nothing but `date` is started. */
  function StampedKey(e: Env, h: seq<string>, cmds: seq<string>, i: nat): string
    requires i < |cmds|
  {
    Key(e.switchName, Answer(e.world(h + Dates(i), DateCmd), e.policy.strip), cmds[i])
  }

  /** The keys such a run writes. */
  function Stamped(e: Env, h: seq<string>, cmds: seq<string>): (r: seq<string>)
    ensures |r| == |cmds|
    decreases |cmds|
  {
    if cmds == [] then []
    else [Key(e.switchName, Answer(e.world(h, DateCmd), e.policy.strip), cmds[0])] + Stamped(e, h + [DateCmd], cmds[1..])
  }

  lemma {:induction false} StampedAt(e: Env, h: seq<string>, cmds: seq<string>, i: nat)
    requires i < |cmds|
    ensures Stamped(e, h, cmds)[i] == StampedKey(e, h, cmds, i)
    decreases i
  {
    if i == 0 {
      assert h + Dates(0) == h;
    } else {
      StampedAt(e, h + [DateCmd], cmds[1..], i - 1);
      assert h + Dates(i) == (h + [DateCmd]) + Dates(i - 1);
    }
  }

  /** A held record starts only `date`, keeps the verdict and the narrative, and writes its key. */
  lemma HeldStep(e: Env, a: Acc, c: string)
    requires e.policy.suppress(c)
    ensures Step(e, a, Rec(c, Ignore)) == Acc(a.m.(history := a.m.history + [DateCmd],
                                                    dict := Put(a.m.dict, Key(e.switchName, Answer(e.world(a.m.history, DateCmd), e.policy.strip), c), None)), a.log)
    ensures Trace(e.policy, [Rec(c, Ignore)]) == [DateCmd]
    ensures WrittenKey(e, a.m.history, Rec(c, Ignore)) == [Key(e.switchName, Answer(e.world(a.m.history, DateCmd), e.policy.strip), c)]
  {
    assert [Rec(c, Ignore)][1..] == [];
  }

  /**
   * When every command is held back, a run of records starts nothing but
   * one `date` per record and keeps the verdict and the narrative.
   */
  lemma {:induction false} HeldRecords(e: Env, a: Acc, cmds: seq<string>)
    requires forall c :: e.policy.suppress(c)
    ensures Steps(e, a, Records(cmds)).m.history == a.m.history + Dates(|cmds|)
    ensures Steps(e, a, Records(cmds)).m.status == a.m.status
    ensures Steps(e, a, Records(cmds)).log == a.log
    decreases |cmds|
  {
    if cmds == [] {
      assert a.m.history + Dates(0) == a.m.history;
    } else {
      var r := Records(cmds);
      assert r[1..] == Records(cmds[1..]);
      HeldStep(e, a, cmds[0]);
      HeldRecords(e, Step(e, a, r[0]), cmds[1..]);
      assert Dates(|cmds|) == [DateCmd] + Dates(|cmds| - 1);
    }
  }

  /** ... and writes one key per record, in order. */
  lemma {:induction false} HeldWritten(e: Env, h: seq<string>, cmds: seq<string>)
    requires forall c :: e.policy.suppress(c)
    ensures Written(e, h, Records(cmds)) == Stamped(e, h, cmds)
    decreases |cmds|
  {
    if cmds != [] {
      var r := Records(cmds);
      assert r[1..] == Records(cmds[1..]);
      HeldStep(e, Acc(Sim([], true, h), ""), cmds[0]);
      HeldWritten(e, h + [DateCmd], cmds[1..]);
    }
  }

  /** With a `date` that prints no space, records of distinct commands get distinct keys. */
  lemma StampedDistinct(e: Env, h: seq<string>, cmds: seq<string>)
    requires SpaceFreeClock(e)
    requires forall i, j :: 0 <= i < j < |cmds| ==> cmds[i] != cmds[j]
    ensures forall i, j :: 0 <= i < j < |cmds| ==> StampedKey(e, h, cmds, i) != StampedKey(e, h, cmds, j)
  {
    forall i, j | 0 <= i < j < |cmds|
      ensures StampedKey(e, h, cmds, i) != StampedKey(e, h, cmds, j)
    {
      var ti := Answer(e.world(h + Dates(i), DateCmd), e.policy.strip);
      var tj := Answer(e.world(h + Dates(j), DateCmd), e.policy.strip);
      if Key(e.switchName, ti, cmds[i]) == Key(e.switchName, tj, cmds[j]) {
        KeyInjective(e.switchName, ti, cmds[i], tj, cmds[j]);
      }
    }
  }

  lemma DryCmdsDistinct(p: Params)
    ensures forall i, j :: 0 <= i < j < 5 ==> DryCmds(p)[i] != DryCmds(p)[j]
  {
    var c := DryCmds(p);
    assert c[0][0] == 'v' && c[4][0] == 'v' && c[0][13] == 'r' && c[4][13] == 'i';
    assert c[1][0] == 's' && c[3][0] == 's' && c[2][0] == 'p';
    assert c[1][|p.packageName| + 9] == 'r' && c[3][|p.packageName| + 9] == 's';
  }

  /**
   * A dry run started from an empty dictionary starts nothing but five
   * `date` calls, fails nothing, and lists exactly five keys, one per
   * command in order, the third being the 35-second pause; there is no
   * `result.status` entry.
   */
  lemma DryRunSpec(e: Env, a: Acc, p: Params)
    requires forall c :: e.policy.suppress(c)
    requires SpaceFreeClock(e) && a.m.dict == []
    ensures var r := Steps(e, a, Records(DryCmds(p)));
            r.m.history == a.m.history + Dates(5) && r.m.status == a.m.status && r.log == a.log
            && |Keys(r.m.dict)| == 5
            && (forall i :: 0 <= i < 5 ==> Keys(r.m.dict)[i] == StampedKey(e, a.m.history, DryCmds(p), i))
            && "result.status" !in Keys(r.m.dict)
    ensures DryCmds(p)[2] == Pause
  {
    var cmds := DryCmds(p);
    var ks := Stamped(e, a.m.history, cmds);
    HeldRecords(e, a, cmds);
    HeldWritten(e, a.m.history, cmds);
    StepsKeys(e, a, Records(cmds));
    DryCmdsDistinct(p);
    StampedDistinct(e, a.m.history, cmds);
    forall i | 0 <= i < |ks|
      ensures ks[i] == StampedKey(e, a.m.history, cmds, i)
    {
      StampedAt(e, a.m.history, cmds, i);
    }
    FreshEntries(ks);
    forall i | 0 <= i < |ks|
      ensures ks[i] != "result.status"
    {
      KeyHasSpace(e.switchName, Answer(e.world(a.m.history + Dates(i), DateCmd), e.policy.strip), cmds[i], "result.status");
    }
  }

  lemma FreshEntries(ks: seq<string>)
    requires forall i, j :: 0 <= i < j < |ks| ==> ks[i] != ks[j]
    ensures EnterAll([], ks) == ks
  {
    assert forall i :: 0 <= i < |ks| ==> ks[i] !in [] && ks[i] !in ks[..i];
    EnterAllFresh([], ks);
    assert [] + ks == ks;
  }

  /**
   * A real run keeps its verdict exactly when the neighbour check passes on
   * what the neighbour query returns after the first three records; by
   * `BgpPeeringIfDown.NeighborJudgeSpec` that is a non-empty output showing
   * every configured neighbour's IP and AS and as many
   * 'BGP state = Established' as there are neighbours.
   */
  lemma Verdict(e: Env, a: Acc, p: Params)
    ensures var b := Steps(e, a, Head(p));
            var o := ExecOut(e, b.m, BgpPeeringIfDown.NeighborsCmd);
            Steps(e, a, Script(e.switchName, p)).m.status
            == (a.m.status && BgpPeeringIfDown.NeighborJudge(e.switchName, SplitLines(p.configFile))(o).Pass?)
  {
    var c := Check(e.switchName, p);
    assert AllSilent(Head(p)) && AllSilent(Closing());
    OneCheck(e, a, Head(p), c.cmd, c.judge, Closing());
  }
}
