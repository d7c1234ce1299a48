/**
 * `redis/test_redis_invalid.py`: try to set two read-only redis fields and
 * expect redis to refuse both.
 */
module RedisInvalid {
  import opened Wrappers
  import opened PyStr
  import opened OrderedDict
  import opened Recorder
  import opened RedisCli

  datatype Params = Params(remoteAccess: bool, switchIp: string, channel: string)

  /** `get_cli`: remotely the switch's redis on port 6379, else the local one. */
  function Prefix(p: Params): string {
    if p.remoteAccess then "redis-cli -h " + p.switchIp + " -p 6379 " else "redis-cli "
  }

  /** The command of `execute_and_verify`: only `hset` carries the value. */
  function Cmd(operation: string, channel: string, param: string, value: string): string {
    operation + " " + channel + " " + param + " " + (if operation == "hset" then value else "")
  }

  /** The two fields set to 'false', in order. */
  function Cmds(p: Params): seq<string> {
    [Cmd("hset", p.channel, "vnet.ready", "false"), Cmd("hset", p.channel, "vnet.packet-generator.admin", "false")]
  }

  const Refusal := "error can't set"

  function NoneLine(sw: string, cli: string): string {
    "On switch " + sw + " " + "output of command " + cli + " is None\n"
  }

  function ExecutedLine(sw: string, cli: string): string {
    "On switch " + sw + " " + "command " + cli + " should not have executed\n"
  }

  /** A set passes only when redis answers with its refusal, whatever the case. */
  function Judge(sw: string): RedisCli.Judge {
    (cli: string) => (o: Output) =>
      if o.None? then Fail(NoneLine(sw, cli))
      else if !Contains(Lower(o.value), Refusal) then Fail(ExecutedLine(sw, cli))
      else Pass
  }

  /** `test_hset_operations_with_invalid_input`: both sets, then `result.detail`. */
  function Run(e: Env, a: Acc, p: Params): Acc {
    Step(e, Calls(e, a, Prefix(p), Cmds(p), Judge(e.switchName)), SetLog("result.detail"))
  }

  // ---------------------------------------------------------------------
  // The module

  /** `test_hset_operations_with_invalid_input` */
  method TestHsetOperations(s: Session, p: Params)
    modifies s
    ensures s.St() == Run(s.E(), Acc(old(s.St()), ""), p).m
  {
    var summary := ExecuteAll(s, Prefix(p), Cmds(p), Judge(s.switchName), "");
    s.Store("result.detail", Some(summary));
  }

  /**
   * `main`: the log file, opened for writing, is written only without remote access.
   * The module calls only `run_cli`, which strips its output; it neither
   * truncates nor suppresses, so only the stripping policy matters.
   */
  method RunModule(s: Session, p: Params) returns (text: Option<string>)
    modifies s
    requires s.policy.strip
    ensures s.St() == WithStatus(Run(s.E(), Acc(old(s.St()), ""), p).m)
    ensures text == if p.remoteAccess then None else Some(LogText(s.dict))
  {
    TestHsetOperations(s, p);
    s.StoreStatus();
    if p.remoteAccess {
      return None;
    }
    var log := WriteLog(s.dict);
    text := Some(log);
  }

  // ---------------------------------------------------------------------
  // Properties

  /** Remotely the switch's address and port 6379 are named; locally neither. */
  lemma PrefixSpec(p: Params)
    ensures p.remoteAccess ==> Prefix(p) == "redis-cli -h " + p.switchIp + " -p 6379 "
    ensures !p.remoteAccess ==> Prefix(p) == "redis-cli "
  {
  }

  /**
   * A get ignores the value and ends in a space; a set ends in the value.
   */
  lemma CmdSpec(channel: string, param: string, value: string, other: string)
    ensures Cmd("hget", channel, param, value) == Cmd("hget", channel, param, other) == "hget " + channel + " " + param + " "
    ensures Cmd("hset", channel, param, value) == "hset " + channel + " " + param + " " + value
  {
  }

  /** A set passes exactly when there is output with the refusal in it, whatever the case; a failure always has a line. */
  lemma JudgeSpec(sw: string, cli: string, o: Output)
    ensures Judge(sw)(cli)(o).Pass? <==> o.Some? && Contains(Lower(o.value), Refusal)
    ensures Reports(Judge(sw))
  {
    forall cli', o': Output
      ensures !Judge(sw)(cli')(o').Note? && (Judge(sw)(cli')(o').Fail? ==> Judge(sw)(cli')(o').line != "")
    {
      assert |NoneLine(sw, cli')| > 0 && |ExecutedLine(sw, cli')| > 0;
    }
  }

  /**
   * The new keys are the two sets' (named without the `redis-cli` prefix)
   * and then `result.detail`, which holds the narrative; the status stays
   * exactly when neither set added to the narrative.
   */
  lemma Outcome(e: Env, a: Acc, p: Params)
    ensures var r := Run(e, a, p);
            && Keys(r.m.dict) == EnterAll(EnterAll(Keys(a.m.dict), CallKeys(e, a.m.history, Prefix(p), Cmds(p))), ["result.detail"])
            && Get(r.m.dict, "result.detail") == Some(Some(r.log))
            && r.m.status == (a.m.status && r.log == a.log)
  {
    JudgeSpec(e.switchName, "", None);
    CallsDetail(e, a, Prefix(p), Cmds(p), Judge(e.switchName), "result.detail");
  }

  lemma CallsTwo(e: Env, a: Acc, prefix: string, x: string, y: string, judge: RedisCli.Judge)
    ensures Calls(e, a, prefix, [x, y], judge) == Call(e, Call(e, a, prefix, x, judge), prefix, y, judge)
  {
    var b := Call(e, a, prefix, x, judge);
    assert [x, y][1..] == [y] && [y][1..] == [];
    assert Calls(e, b, prefix, [y], judge) == Calls(e, Call(e, b, prefix, y, judge), prefix, [], judge);
  }

  /**
   * The run keeps its status exactly when both sets were refused: each
   * output, taken after the commands before it, exists and has the refusal.
   */
  lemma Refused(e: Env, a: Acc, p: Params)
    ensures var b := Call(e, a, Prefix(p), Cmds(p)[0], Judge(e.switchName));
            var o0 := RunF(e, a.m, Prefix(p) + Cmds(p)[0]).1;
            var o1 := RunF(e, b.m, Prefix(p) + Cmds(p)[1]).1;
            && b.m.history == a.m.history + [Prefix(p) + Cmds(p)[0], DateCmd]
            && Run(e, a, p).m.status
               == (a.m.status && o0.Some? && Contains(Lower(o0.value), Refusal) && o1.Some? && Contains(Lower(o1.value), Refusal))
  {
    var sw := e.switchName;
    var cmds := Cmds(p);
    var b := Call(e, a, Prefix(p), cmds[0], Judge(sw));
    CallSpec(e, a, Prefix(p), cmds[0], Judge(sw));
    CallSpec(e, b, Prefix(p), cmds[1], Judge(sw));
    CallsTwo(e, a, Prefix(p), cmds[0], cmds[1], Judge(sw));
    JudgeSpec(sw, Prefix(p) + cmds[0], RunF(e, a.m, Prefix(p) + cmds[0]).1);
    JudgeSpec(sw, Prefix(p) + cmds[1], RunF(e, b.m, Prefix(p) + cmds[1]).1);
  }
}
