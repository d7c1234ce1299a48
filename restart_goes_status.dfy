/**
 * `issues/restart_and_check_goes_status.py`: restart goes a given number of
 * times and check after every restart that `goes status` reports the
 * daemons, redis and vnet as healthy.
 */
module RestartGoesStatus {
  import opened Wrappers
  import opened PyStr
  import opened Recorder
  import opened OrderedDict

  const Restart: string := "goes restart"
  const Status: string := "goes status"

  /** A lower-cased status is healthy when it has no 'not ok' and reports all three checks. */
  predicate Healthy(status: string) {
    !Contains(status, "not ok")
    && Contains(status, "check daemons") && Contains(status, "check redis") && Contains(status, "check vnet")
  }

  /** The narrative line of round `i` (counted from 0). */
  function FailLine(sw: string, i: nat): string {
    "On switch " + sw + " " + "goes status is not ok after " + "restarting it for " + NatToStr(i) + " times\n"
  }

  /** The test of the status after round `i` (whose caller ensures it is not `None`). */
  function StatusJudge(sw: string, i: nat): Output -> Verdict {
    (o: Output) => if o.Some? && !Healthy(Lower(o.value)) then Fail(FailLine(sw, i)) else Pass
  }

  /** Round `i`: restart, then record and test the status. */
  function Round(sw: string, i: nat): seq<Op> {
    [Rec(Restart, Ignore), Rec(Status, StatusJudge(sw, i))]
  }

  /** The rounds of `range(0, count)`. */
  function Rounds(sw: string, count: int): seq<Op>
    decreases count
  {
    if count <= 0 then [] else Rounds(sw, count - 1) + Round(sw, count - 1)
  }

  /** One iteration of the loop of `main`. */
  method RestartRound(s: Session, i: nat, summary0: string) returns (summary: string)
    modifies s
    ensures Acc(s.St(), summary) == Steps(s.E(), Acc(old(s.St()), summary0), Round(s.switchName, i))
  {
    var out;
    summary, out := s.Check(Restart, Ignore, summary0);
    summary, out := s.Check(Status, StatusJudge(s.switchName, i), summary);
    StepsTwo(s.E(), Acc(old(s.St()), summary0), Round(s.switchName, i));
  }

  /** The loop of `main`. */
  method RestartRounds(s: Session, count: int, summary0: string) returns (summary: string)
    modifies s
    ensures Acc(s.St(), summary) == Steps(s.E(), Acc(old(s.St()), summary0), Rounds(s.switchName, count))
  {
    ghost var e := s.E();
    ghost var a := Acc(s.St(), summary0);
    var sw := s.switchName;
    summary := summary0;
    if count <= 0 {
      NoRoundsSteps(e, a, sw, count);
      return;
    }
    var i := 0;
    while i < count
      invariant 0 <= i <= count
      invariant Acc(s.St(), summary) == Steps(e, a, Rounds(sw, i))
    {
      summary := RestartRound(s, i, summary);
      RoundsSnoc(e, a, sw, i);
      i := i + 1;
    }
    assert i == count;
    assert Acc(s.St(), summary) == Steps(e, a, Rounds(sw, count));
  }

  lemma NoRoundsSteps(e: Env, a: Acc, sw: string, count: int)
    requires count <= 0
    ensures Steps(e, a, Rounds(sw, count)) == a
  {
  }

  lemma RoundsSnoc(e: Env, a: Acc, sw: string, i: nat)
    ensures Steps(e, a, Rounds(sw, i + 1)) == Steps(e, Steps(e, a, Rounds(sw, i)), Round(sw, i))
  {
    StepsAppend(e, a, Rounds(sw, i), Round(sw, i));
  }

  /** `main` */
  method RunModule(s: Session, count: int) returns (text: string)
    modifies s
    requires Plain(s.policy)
    requires count > 0 ==> Answers(s.E(), Status)
    ensures s.St() == StatusThenDetail(Steps(s.E(), Acc(old(s.St()), ""), Rounds(s.switchName, count)), "result.detail")
    ensures text == LogText(s.dict)
  {
    var summary := RestartRounds(s, count, "");
    s.StoreStatus();
    s.Store("result.detail", Some(summary));
    text := WriteLog(s.dict);
  }

  // ---------------------------------------------------------------------
  // Properties

  /** The status after a restart fails the test exactly when it is unhealthy, whatever its case. */
  lemma StatusSpec(sw: string, i: nat, status: string)
    ensures StatusJudge(sw, i)(Some(status)).Fail?
            <==> Contains(Lower(status), "not ok") || !Contains(Lower(status), "check daemons")
                 || !Contains(Lower(status), "check redis") || !Contains(Lower(status), "check vnet")
    ensures !StatusJudge(sw, i)(Some(status)).Note?
    ensures StatusJudge(sw, i)(Some(status)).Fail? ==> StatusJudge(sw, i)(Some(status)).line == FailLine(sw, i)
  {
  }

  /** Failure lines name their round, so failures of different rounds are told apart. */
  lemma FailLineNamesRound(sw: string, i: nat, j: nat)
    requires FailLine(sw, i) == FailLine(sw, j)
    ensures i == j
  {
    var pre := "On switch " + sw + " " + "goes status is not ok after " + "restarting it for ";
    var x, y := NatToStr(i), NatToStr(j);
    assert FailLine(sw, i) == pre + (x + " times\n");
    assert FailLine(sw, j) == pre + (y + " times\n");
    assert x + " times\n" == FailLine(sw, i)[|pre|..];
    TimesSuffix(x, y);
    NatToStrInjective(i, j);
  }

  lemma TimesSuffix(x: string, y: string)
    requires x + " times\n" == y + " times\n"
    ensures x == y
  {
    assert |x| == |y|;
    assert x == (x + " times\n")[..|x|];
    assert y == (y + " times\n")[..|y|];
  }

  /** Round `i` restarts goes and then records the status checked in round `i`. */
  lemma {:induction false} RoundsAt(sw: string, count: int, i: nat)
    requires i < count
    ensures |Rounds(sw, count)| == 2 * count
    ensures Rounds(sw, count)[2 * i] == Rec(Restart, Ignore)
    ensures Rounds(sw, count)[2 * i + 1] == Rec(Status, StatusJudge(sw, i))
    decreases count
  {
    RoundsLength(sw, count - 1);
    if i < count - 1 {
      RoundsAt(sw, count - 1, i);
    }
  }

  lemma {:induction false} RoundsLength(sw: string, count: int)
    ensures |Rounds(sw, count)| == if count <= 0 then 0 else 2 * count
    decreases count
  {
    if count > 0 {
      RoundsLength(sw, count - 1);
    }
  }

  /** With no restart asked for, the module passes with an empty narrative and records nothing. */
  lemma NoRounds(e: Env, m: Sim, sw: string, count: int)
    requires count <= 0
    ensures StatusThenDetail(Steps(e, Acc(m, ""), Rounds(sw, count)), "result.detail")
            == m.(dict := Put(WithStatus(m).dict, "result.detail", Some("")))
  {
  }

  /**
   * Run from an empty dictionary, the module lists `result.status` and then
   * `result.detail` last, and `result.detail` holds the narrative.
   */
  lemma ClosingKeys(e: Env, m: Sim, sw: string, count: int)
    requires Keys(m.dict) == []
    ensures var a := Steps(e, Acc(m, ""), Rounds(sw, count));
            var ks := Keys(StatusThenDetail(a, "result.detail").dict);
            |ks| >= 2 && ks[|ks| - 2..] == ["result.status", "result.detail"]
            && Get(StatusThenDetail(a, "result.detail").dict, "result.detail") == Some(Some(a.log))
  {
    RoundsRecords(sw, count);
    StatusBeforeDetail(e, Acc(m, ""), Rounds(sw, count), "result.detail");
  }

  /** Every step of the rounds runs a command. */
  lemma RoundsRecords(sw: string, count: int)
    ensures forall i :: 0 <= i < |Rounds(sw, count)| ==> Rounds(sw, count)[i].Rec?
  {
    RoundsLength(sw, count);
    forall i | 0 <= i < |Rounds(sw, count)|
      ensures Rounds(sw, count)[i].Rec?
    {
      RoundsAt(sw, count, i / 2);
    }
  }
}
