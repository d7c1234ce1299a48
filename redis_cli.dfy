/**
 * The `execute_and_verify` of the redis modules
 * (`redis/test_bmc_redis.py`, `redis/test_redis_invalid.py`): the command
 * runs behind a `redis-cli` prefix, but its record in the dictionary is
 * keyed by the command without the prefix, and its output is stored whole.
 */
module RedisCli {
  import opened Wrappers
  import opened OrderedDict
  import opened Recorder

  /** What a check concludes from the full command line and its output. */
  type Judge = string -> Output -> Verdict

  /** One `execute_and_verify`: run `prefix + cmd`, time-stamp it, record it under `cmd`, judge it. */
  function Call(e: Env, a: Acc, prefix: string, cmd: string, judge: Judge): Acc {
    var cli := prefix + cmd;
    var (m1, out) := RunF(e, a.m, cli);
    var (m2, time) := RunF(e, m1, DateCmd);
    Conclude(Acc(m2.(dict := Put(m2.dict, Key(e.switchName, time, cmd), out)), a.log), judge(cli)(out))
  }

  /** Several calls in a row, each concatenating its failure text to the narrative. */
  function Calls(e: Env, a: Acc, prefix: string, cmds: seq<string>, judge: Judge): Acc
    decreases |cmds|
  {
    if cmds == [] then a else Calls(e, Call(e, a, prefix, cmds[0], judge), prefix, cmds[1..], judge)
  }

  /** The processes the calls start: each full command line, then `date`. */
  function CallTrace(prefix: string, cmds: seq<string>): (r: seq<string>)
    ensures |r| == 2 * |cmds|
    ensures forall i :: 0 <= i < |cmds| ==> r[2 * i] == prefix + cmds[i] && r[2 * i + 1] == DateCmd
    decreases |cmds|
  {
    if cmds == [] then []
    else
      var rest := CallTrace(prefix, cmds[1..]);
      assert forall i :: 1 <= i < |cmds| ==> rest[2 * (i - 1)] == prefix + cmds[i];
      [prefix + cmds[0], DateCmd] + rest
  }

  /** The keys the calls write after the commands `h`: each is the switch, the time stamp and the bare command. */
  function CallKeys(e: Env, h: seq<string>, prefix: string, cmds: seq<string>): (r: seq<string>)
    ensures |r| == |cmds|
    decreases |cmds|
  {
    if cmds == [] then []
    else
      var h1 := h + [prefix + cmds[0]];
      [Key(e.switchName, Answer(e.world(h1, DateCmd), e.policy.strip), cmds[0])]
      + CallKeys(e, h1 + [DateCmd], prefix, cmds[1..])
  }

  /** Every failure has a line to report and nothing else adds one. */
  ghost predicate Reports(judge: Judge) {
    forall cli, o :: !judge(cli)(o).Note? && (judge(cli)(o).Fail? ==> judge(cli)(o).line != "")
  }

  /** The method form of `Call`. */
  method ExecuteAndVerify(s: Session, prefix: string, cmd: string, judge: Judge, summary0: string) returns (summary: string)
    modifies s
    ensures Acc(s.St(), summary) == Call(s.E(), Acc(old(s.St()), summary0), prefix, cmd, judge)
  {
    var cli := prefix + cmd;
    var out := s.RunCli(cli);
    var time := s.RunCli(DateCmd);
    s.Store(Key(s.switchName, time, cmd), out);
    var v := judge(cli)(out);
    summary := summary0;
    if v.Fail? {
      s.Fail();
      summary := summary0 + v.line;
    } else if v.Note? {
      summary := summary0 + v.line;
    }
  }

  /** `execute_and_verify` for each command in turn, the failure texts concatenated. */
  method ExecuteAll(s: Session, prefix: string, cmds: seq<string>, judge: Judge, summary0: string) returns (summary: string)
    modifies s
    ensures Acc(s.St(), summary) == Calls(s.E(), Acc(old(s.St()), summary0), prefix, cmds, judge)
  {
    ghost var a0 := Acc(s.St(), summary0);
    summary := summary0;
    var i := 0;
    while i < |cmds|
      invariant i <= |cmds| && Acc(s.St(), summary) == Calls(s.E(), a0, prefix, cmds[..i], judge)
    {
      CallsSnoc(s.E(), a0, prefix, cmds[..i], cmds[i], judge);
      assert cmds[..i + 1] == cmds[..i] + [cmds[i]];
      summary := ExecuteAndVerify(s, prefix, cmds[i], judge, summary);
      i := i + 1;
    }
    assert cmds[..i] == cmds;
  }

  lemma {:induction false} CallsSnoc(e: Env, a: Acc, prefix: string, cmds: seq<string>, cmd: string, judge: Judge)
    ensures Calls(e, a, prefix, cmds + [cmd], judge) == Call(e, Calls(e, a, prefix, cmds, judge), prefix, cmd, judge)
    decreases |cmds|
  {
    if cmds == [] {
      assert [cmd][1..] == [];
    } else {
      assert (cmds + [cmd])[1..] == cmds[1..] + [cmd];
      CallsSnoc(e, Call(e, a, prefix, cmds[0], judge), prefix, cmds[1..], cmd, judge);
    }
  }

  /** One call starts its command line and `date`, enters its key, and concludes on what the command line returned. */
  lemma CallSpec(e: Env, a: Acc, prefix: string, cmd: string, judge: Judge)
    ensures var b := Call(e, a, prefix, cmd, judge);
            var h1 := a.m.history + [prefix + cmd];
            var v := judge(prefix + cmd)(RunF(e, a.m, prefix + cmd).1);
            && b.m.history == h1 + [DateCmd]
            && Keys(b.m.dict) == EnterAll(Keys(a.m.dict), [Key(e.switchName, Answer(e.world(h1, DateCmd), e.policy.strip), cmd)])
            && b.log == a.log + VerdictLine(v)
            && b.m.status == (a.m.status && !v.Fail?)
  {
    var (m1, out) := RunF(e, a.m, prefix + cmd);
    var (m2, time) := RunF(e, m1, DateCmd);
    PutKeys(m2.dict, Key(e.switchName, time, cmd), out);
    EnterOne(Keys(a.m.dict), Key(e.switchName, time, cmd));
  }

  /** The calls start their command lines and time stamps in order. */
  lemma {:induction false} CallsHistory(e: Env, a: Acc, prefix: string, cmds: seq<string>, judge: Judge)
    ensures Calls(e, a, prefix, cmds, judge).m.history == a.m.history + CallTrace(prefix, cmds)
    decreases |cmds|
  {
    if cmds != [] {
      CallSpec(e, a, prefix, cmds[0], judge);
      CallsHistory(e, Call(e, a, prefix, cmds[0], judge), prefix, cmds[1..], judge);
    }
  }

  /** The calls enter their keys, named by the bare commands, in order. */
  lemma {:induction false} CallsKeys(e: Env, a: Acc, prefix: string, cmds: seq<string>, judge: Judge)
    ensures Keys(Calls(e, a, prefix, cmds, judge).m.dict) == EnterAll(Keys(a.m.dict), CallKeys(e, a.m.history, prefix, cmds))
    decreases |cmds|
  {
    if cmds != [] {
      var b := Call(e, a, prefix, cmds[0], judge);
      CallSpec(e, a, prefix, cmds[0], judge);
      CallsKeys(e, b, prefix, cmds[1..], judge);
      var ks := CallKeys(e, a.m.history, prefix, cmds);
      EnterAllAppend(Keys(a.m.dict), [ks[0]], ks[1..]);
      assert ks == [ks[0]] + ks[1..];
    }
  }

  /**
   * The calls only extend the narrative, and keep the status exactly when
   * the narrative stays as it was.
   */
  lemma {:induction false} CallsVerdict(e: Env, a: Acc, prefix: string, cmds: seq<string>, judge: Judge)
    requires Reports(judge)
    ensures var r := Calls(e, a, prefix, cmds, judge);
            && |a.log| <= |r.log| && r.log[..|a.log|] == a.log
            && r.m.status == (a.m.status && r.log == a.log)
    decreases |cmds|
  {
    if cmds != [] {
      var b := Call(e, a, prefix, cmds[0], judge);
      CallSpec(e, a, prefix, cmds[0], judge);
      CallsVerdict(e, b, prefix, cmds[1..], judge);
      var r := Calls(e, a, prefix, cmds, judge);
      assert r.log[..|a.log|] == b.log[..|a.log|];
    }
  }

  /**
   * After the calls, the narrative stored under `detail`: the new keys are
   * the calls' and then `detail`, which holds the narrative; the status
   * stays exactly when no call added to the narrative.
   */
  lemma CallsDetail(e: Env, a: Acc, prefix: string, cmds: seq<string>, judge: Judge, detail: string)
    requires Reports(judge)
    ensures var r := Step(e, Calls(e, a, prefix, cmds, judge), SetLog(detail));
            && Keys(r.m.dict) == EnterAll(EnterAll(Keys(a.m.dict), CallKeys(e, a.m.history, prefix, cmds)), [detail])
            && Get(r.m.dict, detail) == Some(Some(r.log))
            && r.m.status == (a.m.status && r.log == a.log)
  {
    var c := Calls(e, a, prefix, cmds, judge);
    CallsKeys(e, a, prefix, cmds, judge);
    CallsVerdict(e, a, prefix, cmds, judge);
    PutKeys(c.m.dict, detail, Some(c.log));
    EnterOne(Keys(c.m.dict), detail);
    PutGet(c.m.dict, detail, Some(c.log), detail);
  }
}
