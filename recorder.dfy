/**
 * The state every Ansible test module keeps while it runs: the `HASH_DICT`
 * ordered dictionary of recorded command outputs, the `RESULT_STATUS` verdict
 * and the processes it has started, together with `run_cli`,
 * `execute_commands` and the log file written from `HASH_DICT`.
 *
 * Command execution is an oracle: the `World` maps the commands started so
 * far and the next command to what that command prints on stdout and stderr.
 * The `date` call that timestamps every record is a command like any other.
 */
module Recorder {
  import opened Wrappers
  import opened PyStr
  import opened OrderedDict

  /** What `run_cli` returns: a string, or `None` when the command printed nothing. */
  type Output = Option<string>

  datatype Streams = Streams(out: string, err: string)

  /** Output of the next command, given every command started before it. */
  type World = (seq<string>, string) -> Streams

  /**
   * The `execute_commands` variant a module uses: whether `run_cli` strips
   * trailing whitespace, whether stored outputs longer than 512 UTF-8 bytes
   * are cut to their first 512 characters, and
   * which commands are recorded without being run.
   */
  datatype Policy = Policy(strip: bool, truncate: bool, suppress: string -> bool)

  /** Everything fixed for one module run. */
  datatype Env = Env(world: World, policy: Policy, switchName: string)

  const DateCmd: string := "date +%Y%m%d%T"
  const StoreLimit: nat := 512

  /** `run_cli`'s result for the streams a command produced. */
  function Answer(st: Streams, strip: bool): Output {
    if st.out != "" then Some(if strip then RStrip(st.out) else st.out)
    else if st.err != "" then Some(if strip then RStrip(st.err) else st.err)
    else None
  }

  /** `run_cli` returns `None` exactly when both streams are empty. */
  lemma AnswerNone(st: Streams, strip: bool)
    ensures Answer(st, strip) == None <==> st.out == "" && st.err == ""
  {
  }

  /** Standard output wins: a non-empty stdout is returned (stripped) whatever stderr holds. */
  lemma AnswerPrefersStdout(st: Streams)
    requires st.out != ""
    ensures Answer(st, true) == Some(RStrip(st.out)) && Answer(st, false) == Some(st.out)
  {
  }

  /** Whitespace-only stdout gives the empty string, not `None`. */
  lemma AnswerBlank(st: Streams)
    requires IsSpaceOnly(st.out)
    ensures Answer(st, true) == Some("")
  {
  }

  /** `str(value)` */
  function Show(v: Output): string {
    match v
    case None => "None"
    case Some(s) => s
  }

  /** `'{0} {1} {2}'.format(switch_name, exec_time, cmd)` */
  function Key(switchName: string, time: Output, cmd: string): string {
    switchName + " " + Show(time) + " " + cmd
  }

  /** A record key always contains a space, so it never equals a key such as 'result.status'. */
  lemma KeyHasSpace(switchName: string, time: Output, cmd: string, plain: string)
    requires ' ' !in plain
    ensures Key(switchName, time, cmd) != plain
  {
    var k := Key(switchName, time, cmd);
    assert k[|switchName|] == ' ';
  }

  /** The value `execute_commands` stores: cut to 512 characters when its encoding is longer. */
  function Stored(truncate: bool, out: Output): Output {
    match out
    case None => None
    case Some(s) => if truncate && s != "" && UTF8Len(s) > StoreLimit then Some(Take(s, StoreLimit)) else out
  }

  /** The stored value is a prefix of the output, of at most 512 characters or the whole output. */
  lemma StoredPrefix(truncate: bool, out: Output)
    ensures Stored(truncate, out).Some? <==> out.Some?
    ensures out.Some? ==> Stored(truncate, out).value <= out.value
    ensures out.Some? && (!truncate || UTF8Len(out.value) <= StoreLimit) ==> Stored(truncate, out) == out
    ensures out.Some? ==> |Stored(truncate, out).value| <= StoreLimit || Stored(truncate, out) == out
  {
  }

  /**
   * On an ASCII output, where characters and bytes coincide, the stored value
   * is the first 512 bytes of a longer output and the whole output otherwise.
   */
  lemma StoredAscii(s: string)
    requires forall k :: 0 <= k < |s| ==> s[k] < '\U{0080}'
    ensures Stored(true, Some(s)) == Some(if |s| > StoreLimit then s[..StoreLimit] else s)
    ensures |Stored(true, Some(s)).value| <= StoreLimit
  {
    UTF8Ascii(s);
  }

  /** The module state: `HASH_DICT`, `RESULT_STATUS` and the processes started so far. */
  datatype Sim = Sim(dict: Dict<Output>, status: bool, history: seq<string>)

  const Fresh: Sim := Sim([], true, [])

  /** `run_cli(cmd)`: start the command and return its answer. */
  function RunF(e: Env, m: Sim, cmd: string): (Sim, Output) {
    (m.(history := m.history + [cmd]), Answer(e.world(m.history, cmd), e.policy.strip))
  }

  /** `execute_commands(cmd)`: run it unless suppressed, timestamp it, record it, return the output. */
  function ExecF(e: Env, m: Sim, cmd: string): (Sim, Output) {
    var (m1, out) := if e.policy.suppress(cmd) then (m, None) else RunF(e, m, cmd);
    var (m2, time) := RunF(e, m1, DateCmd);
    (m2.(dict := Put(m2.dict, Key(e.switchName, time, cmd), Stored(e.policy.truncate, out))), out)
  }

  /** The output a run-then-record of `cmd` observes from state `m`. */
  function ExecOut(e: Env, m: Sim, cmd: string): Output {
    if e.policy.suppress(cmd) then None else Answer(e.world(m.history, cmd), e.policy.strip)
  }

  /** The timestamp the record of `cmd` gets when started from `m`. */
  function ExecTime(e: Env, m: Sim, cmd: string): Output {
    var h := if e.policy.suppress(cmd) then m.history else m.history + [cmd];
    Answer(e.world(h, DateCmd), e.policy.strip)
  }

  /**
   * One call of `execute_commands`: the command (unless suppressed) and then
   * `date` are started, exactly one entry keyed by switch, time and command
   * holds the (possibly truncated) output, the verdict is untouched, and the
   * caller gets the untruncated output.
   */
  lemma ExecSpec(e: Env, m: Sim, cmd: string)
    ensures ExecF(e, m, cmd).1 == ExecOut(e, m, cmd)
    ensures ExecF(e, m, cmd).0.history
            == m.history + (if e.policy.suppress(cmd) then [] else [cmd]) + [DateCmd]
    ensures ExecF(e, m, cmd).0.dict
            == Put(m.dict, Key(e.switchName, ExecTime(e, m, cmd), cmd), Stored(e.policy.truncate, ExecOut(e, m, cmd)))
    ensures ExecF(e, m, cmd).0.status == m.status
  {
  }

  /** A suppressed command is recorded as `None` without being started. */
  lemma ExecSuppressed(e: Env, m: Sim, cmd: string)
    requires e.policy.suppress(cmd)
    ensures ExecF(e, m, cmd).1 == None
    ensures ExecF(e, m, cmd).0.history == m.history + [DateCmd]
    ensures Get(ExecF(e, m, cmd).0.dict, Key(e.switchName, ExecTime(e, m, cmd), cmd)) == Some(None)
  {
    PutGet(m.dict, Key(e.switchName, ExecTime(e, m, cmd), cmd), None, Key(e.switchName, ExecTime(e, m, cmd), cmd));
  }

  /** The world always has something to say about `cmd`, and `cmd` is not suppressed. */
  ghost predicate Answers(e: Env, cmd: string) {
    !e.policy.suppress(cmd) && forall h :: Answer(e.world(h, cmd), e.policy.strip).Some?
  }

  /** A module's state plus its local `failure_summary` narrative. */
  datatype Acc = Acc(m: Sim, log: string)

  /** What a check concludes from an output: nothing, a failure with its narrative line, or a line that does not fail. */
  datatype Verdict = Pass | Fail(line: string) | Note(line: string)

  /** Apply a verdict: failures clear `RESULT_STATUS`, and lines extend the narrative. */
  function Conclude(a: Acc, v: Verdict): Acc {
    match v
    case Pass => a
    case Fail(line) => Acc(a.m.(status := false), a.log + line)
    case Note(line) => Acc(a.m, a.log + line)
  }

  /** A module step that only ever moves forward. */
  predicate Grows(a: Acc, b: Acc) {
    (b.m.status ==> a.m.status) && a.log <= b.log && a.m.history <= b.m.history
    && Keys(a.m.dict) <= Keys(b.m.dict)
  }

  lemma GrowsTrans(a: Acc, b: Acc, c: Acc)
    requires Grows(a, b) && Grows(b, c)
    ensures Grows(a, c)
  {
  }

  /**
   * One step of a module's script: `execute_commands(cmd)` or `run_cli(cmd)`
   * followed by a test of the result, or an assignment to `HASH_DICT`.
   */
  datatype Op =
    | Rec(cmd: string, judge: Output -> Verdict)
    | Raw(cmd: string, judge: Output -> Verdict)
    | Set(key: string, value: Output)
    | SetLog(key: string)

  /** The test of a command whose result the module ignores. */
  function Ignore(o: Output): Verdict {
    Pass
  }

  /** What step `op` sees when the commands `h` have been started before it. */
  function Seen(e: Env, h: seq<string>, op: Op): Output {
    match op
    case Rec(cmd, _) => if e.policy.suppress(cmd) then None else Answer(e.world(h, cmd), e.policy.strip)
    case Raw(cmd, _) => Answer(e.world(h, cmd), e.policy.strip)
    case _ => None
  }

  /** What step `op` concludes after the commands `h`. */
  function VerdictOf(e: Env, h: seq<string>, op: Op): Verdict {
    match op
    case Rec(_, judge) => judge(Seen(e, h, op))
    case Raw(_, judge) => judge(Seen(e, h, op))
    case _ => Pass
  }

  /** The processes a script starts, `date` calls included. */
  function Trace(p: Policy, ops: seq<Op>): seq<string>
    decreases |ops|
  {
    if ops == [] then []
    else
      (match ops[0]
       case Rec(cmd, _) => (if p.suppress(cmd) then [] else [cmd]) + [DateCmd]
       case Raw(cmd, _) => [cmd]
       case _ => [])
      + Trace(p, ops[1..])
  }

  /** Apply one step to the module state. */
  function Step(e: Env, a: Acc, op: Op): Acc {
    match op
    case Rec(cmd, judge) => Conclude(Acc(ExecF(e, a.m, cmd).0, a.log), judge(ExecOut(e, a.m, cmd)))
    case Raw(cmd, judge) => Conclude(Acc(RunF(e, a.m, cmd).0, a.log), judge(RunF(e, a.m, cmd).1))
    case Set(key, value) => Acc(a.m.(dict := Put(a.m.dict, key, value)), a.log)
    case SetLog(key) => Acc(a.m.(dict := Put(a.m.dict, key, Some(a.log))), a.log)
  }

  /** Run a script. */
  function Steps(e: Env, a: Acc, ops: seq<Op>): Acc
    decreases |ops|
  {
    if ops == [] then a else Steps(e, Step(e, a, ops[0]), ops[1..])
  }

  /** A step only moves forward: the status never comes back, the log, history and keys only grow. */
  lemma StepGrows(e: Env, a: Acc, op: Op)
    ensures Grows(a, Step(e, a, op))
  {
    match op
    case Rec(cmd, judge) =>
      PutKeys(a.m.dict, Key(e.switchName, ExecTime(e, a.m, cmd), cmd), Stored(e.policy.truncate, ExecOut(e, a.m, cmd)));
      ExecSpec(e, a.m, cmd);
    case Raw(cmd, judge) =>
    case Set(key, value) => PutKeys(a.m.dict, key, value);
    case SetLog(key) => PutKeys(a.m.dict, key, Some(a.log));
  }

  /** So does a whole script. */
  lemma {:induction false} StepsGrow(e: Env, a: Acc, ops: seq<Op>)
    ensures Grows(a, Steps(e, a, ops))
    decreases |ops|
  {
    if ops != [] {
      var b := Step(e, a, ops[0]);
      StepGrows(e, a, ops[0]);
      StepsGrow(e, b, ops[1..]);
      GrowsTrans(a, b, Steps(e, a, ops));
    }
  }

  /** The key step `op` writes after the commands `h`, if any. */
  function WrittenKey(e: Env, h: seq<string>, op: Op): seq<string> {
    match op
    case Rec(cmd, _) =>
      var hc := if e.policy.suppress(cmd) then h else h + [cmd];
      [Key(e.switchName, Answer(e.world(hc, DateCmd), e.policy.strip), cmd)]
    case Raw(_, _) => []
    case Set(key, _) => [key]
    case SetLog(key) => [key]
  }

  /** The verdicts of a script's steps, in order, when it starts after the commands `h`. */
  function Verdicts(e: Env, h: seq<string>, ops: seq<Op>): (r: seq<Verdict>)
    ensures |r| == |ops|
    decreases |ops|
  {
    if ops == [] then []
    else [VerdictOf(e, h, ops[0])] + Verdicts(e, h + Trace(e.policy, [ops[0]]), ops[1..])
  }

  /** The keys a script writes, in order, when it starts after the commands `h`. */
  function Written(e: Env, h: seq<string>, ops: seq<Op>): seq<string>
    decreases |ops|
  {
    if ops == [] then []
    else WrittenKey(e, h, ops[0]) + Written(e, h + Trace(e.policy, [ops[0]]), ops[1..])
  }

  /** The narrative the verdicts add. */
  function Narrative(vs: seq<Verdict>): string
    decreases |vs|
  {
    if vs == [] then "" else VerdictLine(vs[0]) + Narrative(vs[1..])
  }

  /** Some verdict is a failure. */
  predicate AnyFail(vs: seq<Verdict>) {
    exists i :: 0 <= i < |vs| && vs[i].Fail?
  }

  lemma StepSpec(e: Env, a: Acc, op: Op)
    ensures Step(e, a, op).m.history == a.m.history + Trace(e.policy, [op])
    ensures Step(e, a, op).log == a.log + VerdictLine(VerdictOf(e, a.m.history, op))
    ensures Step(e, a, op).m.status == (a.m.status && !VerdictOf(e, a.m.history, op).Fail?)
    ensures Keys(Step(e, a, op).m.dict) == EnterAll(Keys(a.m.dict), WrittenKey(e, a.m.history, op))
  {
    assert [op][1..] == [];
    match op
    case Rec(cmd, judge) =>
      ExecSpec(e, a.m, cmd);
      PutKeys(a.m.dict, Key(e.switchName, ExecTime(e, a.m, cmd), cmd), Stored(e.policy.truncate, ExecOut(e, a.m, cmd)));
      EnterOne(Keys(a.m.dict), Key(e.switchName, ExecTime(e, a.m, cmd), cmd));
    case Raw(cmd, judge) =>
    case Set(key, value) =>
      PutKeys(a.m.dict, key, value);
      EnterOne(Keys(a.m.dict), key);
    case SetLog(key) =>
      PutKeys(a.m.dict, key, Some(a.log));
      EnterOne(Keys(a.m.dict), key);
  }

  lemma {:induction false} StepsAppend(e: Env, a: Acc, s: seq<Op>, t: seq<Op>)
    ensures Steps(e, a, s + t) == Steps(e, Steps(e, a, s), t)
    decreases |s|
  {
    if s == [] {
      assert s + t == t;
    } else {
      assert (s + t)[1..] == s[1..] + t;
      StepsAppend(e, Step(e, a, s[0]), s[1..], t);
    }
  }

  lemma {:induction false} TraceAppend(p: Policy, s: seq<Op>, t: seq<Op>)
    ensures Trace(p, s + t) == Trace(p, s) + Trace(p, t)
    decreases |s|
  {
    if s == [] {
      assert s + t == t;
    } else {
      assert (s + t)[1..] == s[1..] + t;
      TraceAppend(p, s[1..], t);
    }
  }

  lemma TraceCons(p: Policy, s: seq<Op>)
    requires s != []
    ensures Trace(p, s) == Trace(p, [s[0]]) + Trace(p, s[1..])
  {
    assert [s[0]][1..] == [];
  }

  /**
   * A script starts the processes of its trace, concludes with the verdicts
   * of its steps (each judged on what it sees after the steps before it), and
   * enters the keys it writes in first-insertion order.
   */
  lemma {:induction false} StepsSpec(e: Env, a: Acc, ops: seq<Op>)
    ensures Steps(e, a, ops).m.history == a.m.history + Trace(e.policy, ops)
    ensures Steps(e, a, ops).log == a.log + Narrative(Verdicts(e, a.m.history, ops))
    ensures Steps(e, a, ops).m.status == (a.m.status && !AnyFail(Verdicts(e, a.m.history, ops)))
    ensures Keys(Steps(e, a, ops).m.dict) == EnterAll(Keys(a.m.dict), Written(e, a.m.history, ops))
    decreases |ops|
  {
    if ops != [] {
      var b := Step(e, a, ops[0]);
      StepSpec(e, a, ops[0]);
      StepsSpec(e, b, ops[1..]);
      TraceCons(e.policy, ops);
      EnterAllAppend(Keys(a.m.dict), WrittenKey(e, a.m.history, ops[0]), Written(e, b.m.history, ops[1..]));
      var vs := Verdicts(e, a.m.history, ops);
      assert vs[1..] == Verdicts(e, b.m.history, ops[1..]);
      AnyFailCons(vs);
    }
  }

  lemma AnyFailCons(vs: seq<Verdict>)
    requires vs != []
    ensures AnyFail(vs) == (vs[0].Fail? || AnyFail(vs[1..]))
  {
    if AnyFail(vs[1..]) {
      var i :| 0 <= i < |vs[1..]| && vs[1..][i].Fail?;
      assert vs[i + 1].Fail?;
    }
  }

  /** The i-th verdict is the i-th judge applied to what its command sees after the steps before it. */
  lemma {:induction false} VerdictAt(e: Env, h: seq<string>, ops: seq<Op>, i: nat)
    requires i < |ops|
    ensures Verdicts(e, h, ops)[i] == VerdictOf(e, h + Trace(e.policy, ops[..i]), ops[i])
    decreases i
  {
    if i == 0 {
      assert ops[..0] == [];
      assert h + Trace(e.policy, ops[..0]) == h;
    } else {
      var h' := h + Trace(e.policy, [ops[0]]);
      VerdictAt(e, h', ops[1..], i - 1);
      TracePrefix(e.policy, h, ops, i);
      assert ops[1..][i - 1] == ops[i];
    }
  }

  lemma TracePrefix(p: Policy, h: seq<string>, ops: seq<Op>, i: nat)
    requires 0 < i <= |ops|
    ensures h + Trace(p, ops[..i]) == (h + Trace(p, [ops[0]])) + Trace(p, ops[1..][..i - 1])
  {
    assert ops[..i] == [ops[0]] + ops[1..][..i - 1];
    TraceAppend(p, [ops[0]], ops[1..][..i - 1]);
  }

  lemma StepsCons(e: Env, a: Acc, op: Op, rest: seq<Op>)
    ensures Steps(e, a, [op] + rest) == Steps(e, Step(e, a, op), rest)
  {
    assert ([op] + rest)[1..] == rest;
  }

  /** Running one more step after a script. */
  lemma StepsSnoc(e: Env, a: Acc, ops: seq<Op>, op: Op)
    ensures Steps(e, a, ops + [op]) == Step(e, Steps(e, a, ops), op)
  {
    StepsAppend(e, a, ops, [op]);
    StepsOne(e, Steps(e, a, ops), op);
  }

  lemma StepsOne(e: Env, a: Acc, op: Op)
    ensures Steps(e, a, [op]) == Step(e, a, op)
  {
    assert [op][1..] == [];
  }

  lemma StepsTwo(e: Env, a: Acc, r: seq<Op>)
    requires |r| == 2
    ensures Steps(e, a, r) == Step(e, Step(e, a, r[0]), r[1])
  {
    assert r == [r[0]] + [r[1]];
    StepsCons(e, a, r[0], [r[1]]);
    StepsOne(e, Step(e, a, r[0]), r[1]);
  }

  lemma StepsThree(e: Env, a: Acc, x: Op, y: Op, z: Op)
    ensures Steps(e, a, [x, y, z]) == Step(e, Step(e, Step(e, a, x), y), z)
  {
    assert [x, y, z][1..] == [y, z];
    assert [y, z][1..] == [z];
    assert [z][1..] == [];
    var b := Step(e, a, x);
    assert Steps(e, a, [x, y, z]) == Steps(e, b, [y, z]);
    assert Steps(e, b, [y, z]) == Steps(e, Step(e, b, y), [z]);
  }

  lemma StepsFour(e: Env, a: Acc, r: seq<Op>)
    requires |r| == 4
    ensures Steps(e, a, r) == Step(e, Step(e, Step(e, Step(e, a, r[0]), r[1]), r[2]), r[3])
  {
    assert r == [r[0], r[1], r[2]] + [r[3]];
    StepsSnoc(e, a, [r[0], r[1], r[2]], r[3]);
    StepsThree(e, a, r[0], r[1], r[2]);
  }

  /** Recording a command with a test is recording it and then applying the test to its output. */
  lemma ExecJudged(e: Env, a: Acc, cmd: string, judge: Output -> Verdict)
    ensures Step(e, a, Rec(cmd, judge)) == Conclude(Step(e, a, Rec(cmd, Ignore)), judge(ExecOut(e, a.m, cmd)))
  {
  }

  lemma StepsAssoc(e: Env, a: Acc, x: seq<Op>, y: seq<Op>, z: seq<Op>)
    ensures Steps(e, a, (x + y) + z) == Steps(e, Steps(e, a, x), y + z)
  {
    assert (x + y) + z == x + (y + z);
    StepsAppend(e, a, x, y + z);
  }

  /** Every step records a command, and none records `c`. */
  predicate Avoids(ops: seq<Op>, c: string) {
    forall n :: 0 <= n < |ops| ==> ops[n].Rec? && ops[n].cmd != c
  }

  lemma AvoidsAppend(x: seq<Op>, y: seq<Op>, c: string)
    requires Avoids(x, c) && Avoids(y, c)
    ensures Avoids(x + y, c)
  {
    forall n | 0 <= n < |x + y|
      ensures (x + y)[n].Rec? && (x + y)[n].cmd != c
    {
      if n >= |x| {
        assert (x + y)[n] == y[n - |x|];
      }
    }
  }

  lemma {:induction false} AvoidsRecorded(ops: seq<Op>, c: string)
    requires Avoids(ops, c)
    ensures c !in Recorded(ops)
    decreases |ops|
  {
    if ops != [] {
      assert Avoids(ops[1..], c) by {
        forall n | 0 <= n < |ops[1..]|
          ensures ops[1..][n].Rec? && ops[1..][n].cmd != c
        {
          assert ops[1..][n] == ops[n + 1];
        }
      }
      AvoidsRecorded(ops[1..], c);
    }
  }

  /** The variant that strips, stores outputs whole and runs every command. */
  ghost predicate Plain(p: Policy) {
    p.strip && !p.truncate && forall c :: !p.suppress(c)
  }

  /** The variant that strips, cuts stored outputs to 512 and runs every command. */
  ghost predicate Truncating(p: Policy) {
    p.strip && p.truncate && forall c :: !p.suppress(c)
  }

  /** The variant that strips, stores outputs whole and records the commands `held` without running them. */
  ghost predicate Holding(p: Policy, held: string -> bool) {
    p.strip && !p.truncate && forall c :: p.suppress(c) == held(c)
  }

  /**
   * Assigning `detail` for the first time appends it to the keys, and
   * re-assigning it later keeps it where it was: after `pre`, the write of
   * `detail` and anything after it, `detail` is the key at the position
   * the keys of `pre` end.
   */
  lemma FirstWriteStays(e: Env, a: Acc, pre: seq<Op>, detail: string, post: seq<Op>)
    requires ' ' !in detail && detail !in Keys(a.m.dict)
    requires forall i :: 0 <= i < |pre| && !pre[i].Rec? && !pre[i].Raw? ==> pre[i].key != detail
    ensures var n := |Keys(Steps(e, a, pre).m.dict)|;
            var ks := Keys(Steps(e, a, pre + [SetLog(detail)] + post).m.dict);
            n < |ks| && ks[n] == detail
  {
    var b := Steps(e, a, pre);
    StepsKeys(e, a, pre);
    PlainNotWritten(e, a.m.history, pre, detail);
    EnterAllMembers(Keys(a.m.dict), Written(e, a.m.history, pre), detail);
    var c := Step(e, b, SetLog(detail));
    PutKeys(b.m.dict, detail, Some(b.log));
    assert Keys(c.m.dict) == Keys(b.m.dict) + [detail];
    StepsSnoc(e, a, pre, SetLog(detail));
    StepsAppend(e, a, pre + [SetLog(detail)], post);
    StepsGrow(e, c, post);
  }

  /**
   * A module whose script ends by assigning its narrative to a new `detail`
   * and then stores `result.status` lists those two entries last, in that order.
   */
  lemma DetailThenStatus(e: Env, a: Acc, body: seq<Op>, detail: string)
    requires ' ' !in detail && detail != "result.status"
    requires detail !in Keys(a.m.dict) && "result.status" !in Keys(a.m.dict)
    requires forall i :: 0 <= i < |body| && !body[i].Rec? && !body[i].Raw? ==>
               body[i].key != detail && body[i].key != "result.status"
    ensures var ks := Keys(WithStatus(Steps(e, a, body + [SetLog(detail)]).m).dict);
            |ks| >= 2 && ks[|ks| - 2..] == [detail, "result.status"]
  {
    var b := Steps(e, a, body);
    StepsKeys(e, a, body);
    PlainNotWritten(e, a.m.history, body, detail);
    PlainNotWritten(e, a.m.history, body, "result.status");
    EnterAllMembers(Keys(a.m.dict), Written(e, a.m.history, body), detail);
    EnterAllMembers(Keys(a.m.dict), Written(e, a.m.history, body), "result.status");
    var c := Step(e, b, SetLog(detail));
    PutKeys(b.m.dict, detail, Some(b.log));
    StepsSnoc(e, a, body, SetLog(detail));
    StatusAppended(c.m);
    LastPair(Keys(b.m.dict), detail, "result.status");
  }

  /**
   * The closing of the modules that store `result.status` first and then
   * assign their narrative to `detail`.
   */
  function StatusThenDetail(a: Acc, detail: string): Sim {
    var m := WithStatus(a.m);
    m.(dict := Put(m.dict, detail, Some(a.log)))
  }

  /**
   * Such a module lists the two entries last, `result.status` first, and
   * `detail` holds the narrative.
   */
  lemma StatusBeforeDetail(e: Env, a: Acc, body: seq<Op>, detail: string)
    requires ' ' !in detail && detail != "result.status"
    requires detail !in Keys(a.m.dict) && "result.status" !in Keys(a.m.dict)
    requires forall i :: 0 <= i < |body| && !body[i].Rec? && !body[i].Raw? ==>
               body[i].key != detail && body[i].key != "result.status"
    ensures var d := StatusThenDetail(Steps(e, a, body), detail).dict;
            |Keys(d)| >= 2 && Keys(d)[|Keys(d)| - 2..] == ["result.status", detail]
            && Get(d, detail) == Some(Some(Steps(e, a, body).log))
  {
    var b := Steps(e, a, body);
    StepsKeys(e, a, body);
    PlainNotWritten(e, a.m.history, body, detail);
    PlainNotWritten(e, a.m.history, body, "result.status");
    EnterAllMembers(Keys(a.m.dict), Written(e, a.m.history, body), detail);
    EnterAllMembers(Keys(a.m.dict), Written(e, a.m.history, body), "result.status");
    var m := WithStatus(b.m);
    StatusAppended(b.m);
    PutKeys(m.dict, detail, Some(b.log));
    PutGet(m.dict, detail, Some(b.log), detail);
    LastPair(Keys(b.m.dict), "result.status", detail);
  }

  lemma LastPair(ks: seq<string>, x: string, y: string)
    ensures (ks + [x]) + [y] == ks + [x, y]
    ensures (ks + [x, y])[|ks + [x, y]| - 2..] == [x, y]
  {
  }

  /** `date` never prints a space, so a record key splits back into switch, time and command. */
  ghost predicate SpaceFreeClock(e: Env) {
    forall h :: ' ' !in Show(Answer(e.world(h, DateCmd), e.policy.strip))
  }

  /** With space-free time stamps, records of different commands get different keys. */
  lemma KeyInjective(sw: string, t1: Output, c1: string, t2: Output, c2: string)
    requires ' ' !in Show(t1) && ' ' !in Show(t2)
    requires Key(sw, t1, c1) == Key(sw, t2, c2)
    ensures c1 == c2
  {
    var x, y := Show(t1) + " " + c1, Show(t2) + " " + c2;
    assert Key(sw, t1, c1) == (sw + " ") + x;
    assert Key(sw, t2, c2) == (sw + " ") + y;
    assert x == Key(sw, t1, c1)[|sw| + 1..];
    assert y == Key(sw, t2, c2)[|sw| + 1..];
    SpaceSplit(Show(t1), c1, Show(t2), c2);
  }

  /** A space-free word followed by a space is determined by the text it starts. */
  lemma SpaceSplit(a: string, c: string, b: string, d: string)
    requires ' ' !in a && ' ' !in b && a + " " + c == b + " " + d
    ensures a == b && c == d
  {
    SpaceFirst(a, c, b, d);
    SpaceFirst(b, d, a, c);
    var x := a + " " + c;
    assert a == x[..|a|] && c == x[|a| + 1..];
  }

  lemma SpaceFirst(a: string, c: string, b: string, d: string)
    requires a + " " + c == b + " " + d
    ensures |a| < |b| ==> b[|a|] == ' '
  {
    if |a| < |b| {
      assert (a + " " + c)[|a|] == ' ';
    }
  }

  /**
   * A record of `cmd` cannot clash with the keys of a script that never
   * records `cmd` and assigns only space-free keys.
   */
  lemma {:induction false} NotWritten(e: Env, h: seq<string>, ops: seq<Op>, t: Output, cmd: string)
    requires SpaceFreeClock(e) && ' ' !in Show(t)
    requires cmd !in Recorded(ops)
    requires forall i :: 0 <= i < |ops| && !ops[i].Rec? && !ops[i].Raw? ==> ' ' !in ops[i].key
    ensures Key(e.switchName, t, cmd) !in Written(e, h, ops)
    decreases |ops|
  {
    if ops != [] {
      var k := Key(e.switchName, t, cmd);
      match ops[0] {
        case Rec(c, _) =>
          var hc := if e.policy.suppress(c) then h else h + [c];
          assert cmd != c;
          if k == Key(e.switchName, Answer(e.world(hc, DateCmd), e.policy.strip), c) {
            KeyInjective(e.switchName, t, cmd, Answer(e.world(hc, DateCmd), e.policy.strip), c);
          }
        case Raw(_, _) =>
        case Set(key, _) =>
          KeyHasSpace(e.switchName, t, cmd, key);
        case SetLog(key) =>
          KeyHasSpace(e.switchName, t, cmd, key);
      }
      forall i | 0 <= i < |ops[1..]| && !ops[1..][i].Rec? && !ops[1..][i].Raw?
        ensures ' ' !in ops[1..][i].key
      {
        assert ops[1..][i] == ops[i + 1];
      }
      NotWritten(e, h + Trace(e.policy, [ops[0]]), ops[1..], t, cmd);
    }
  }

  lemma {:induction false} WrittenAppend(e: Env, h: seq<string>, s: seq<Op>, t: seq<Op>)
    ensures Written(e, h, s + t) == Written(e, h, s) + Written(e, h + Trace(e.policy, s), t)
    decreases |s|
  {
    if s == [] {
      assert s + t == t;
      assert h + Trace(e.policy, s) == h;
    } else {
      assert (s + t)[1..] == s[1..] + t;
      WrittenAppend(e, h + Trace(e.policy, [s[0]]), s[1..], t);
      TraceCons(e.policy, s);
      assert h + Trace(e.policy, [s[0]]) + Trace(e.policy, s[1..]) == h + Trace(e.policy, s);
    }
  }

  /** A space-free key is written only by an assignment to it. */
  lemma {:induction false} PlainNotWritten(e: Env, h: seq<string>, ops: seq<Op>, k: string)
    requires ' ' !in k
    requires forall i :: 0 <= i < |ops| && !ops[i].Rec? && !ops[i].Raw? ==> ops[i].key != k
    ensures k !in Written(e, h, ops)
    decreases |ops|
  {
    if ops != [] {
      match ops[0] {
        case Rec(c, _) =>
          var hc := if e.policy.suppress(c) then h else h + [c];
          KeyHasSpace(e.switchName, Answer(e.world(hc, DateCmd), e.policy.strip), c, k);
        case Raw(_, _) =>
        case Set(_, _) =>
        case SetLog(_) =>
      }
      forall i | 0 <= i < |ops[1..]| && !ops[1..][i].Rec? && !ops[1..][i].Raw?
        ensures ops[1..][i].key != k
      {
        assert ops[1..][i] == ops[i + 1];
      }
      PlainNotWritten(e, h + Trace(e.policy, [ops[0]]), ops[1..], k);
    }
  }

  /** `HASH_DICT['result.status'] = 'Passed' if RESULT_STATUS else 'Failed'` */
  function WithStatus(m: Sim): Sim {
    m.(dict := Put(m.dict, "result.status", Some(StatusText(m.status))))
  }

  /** The answer `date` gives right after `cmd` is recorded following the commands `h`. */
  function StampAfter(e: Env, h: seq<string>, cmd: string): Output {
    Answer(e.world(if e.policy.suppress(cmd) then h else h + [cmd], DateCmd), e.policy.strip)
  }

  /**
   * A module that ends by assigning its narrative to `detail`, recording
   * `last` and storing `result.status` lists those three entries last, in
   * that order, provided they are new when written.
   */
  lemma ClosingOrder(e: Env, a: Acc, body: seq<Op>, detail: string, last: string, judge: Output -> Verdict)
    requires SpaceFreeClock(e) && Keys(a.m.dict) == []
    requires ' ' !in detail && detail != "result.status"
    requires last !in Recorded(body)
    requires forall i :: 0 <= i < |body| && !body[i].Rec? && !body[i].Raw? ==>
               ' ' !in body[i].key && body[i].key != detail && body[i].key != "result.status"
    ensures var ks := Keys(WithStatus(Steps(e, a, body + [SetLog(detail), Rec(last, judge)]).m).dict);
            var stamp := StampAfter(e, a.m.history + Trace(e.policy, body), last);
            |ks| >= 3 && ks[|ks| - 3..] == [detail, Key(e.switchName, stamp, last), "result.status"]
  {
    var stamp := StampAfter(e, a.m.history + Trace(e.policy, body), last);
    var kl := Key(e.switchName, stamp, last);
    var r := Steps(e, a, body + [SetLog(detail), Rec(last, judge)]);
    var wb := Written(e, a.m.history, body);
    ClosingKeys(e, a, body, detail, last, judge);
    PlainNotWritten(e, a.m.history, body, "result.status");
    EnterAllMembers([], wb, "result.status");
    KeyHasSpace(e.switchName, stamp, last, "result.status");
    StatusAppended(r.m);
    LastThree(EnterAll([], wb), detail, kl, "result.status");
  }

  lemma StatusAppended(m: Sim)
    requires "result.status" !in Keys(m.dict)
    ensures Keys(WithStatus(m).dict) == Keys(m.dict) + ["result.status"]
  {
    PutKeys(m.dict, "result.status", Some(StatusText(m.status)));
  }

  lemma LastThree(ks: seq<string>, x: string, y: string, z: string)
    ensures (ks + [x, y]) + [z] == ks + [x, y, z]
    ensures (ks + [x, y, z])[|ks + [x, y, z]| - 3..] == [x, y, z]
  {
  }

  lemma ClosingKeys(e: Env, a: Acc, body: seq<Op>, detail: string, last: string, judge: Output -> Verdict)
    requires SpaceFreeClock(e) && Keys(a.m.dict) == []
    requires ' ' !in detail
    requires last !in Recorded(body)
    requires forall i :: 0 <= i < |body| && !body[i].Rec? && !body[i].Raw? ==>
               ' ' !in body[i].key && body[i].key != detail
    ensures Keys(Steps(e, a, body + [SetLog(detail), Rec(last, judge)]).m.dict)
            == EnterAll([], Written(e, a.m.history, body))
               + [detail, Key(e.switchName, StampAfter(e, a.m.history + Trace(e.policy, body), last), last)]
  {
    var h := a.m.history;
    var hb := h + Trace(e.policy, body);
    var tail := [SetLog(detail), Rec(last, judge)];
    var stamp := StampAfter(e, hb, last);
    var kl := Key(e.switchName, stamp, last);
    StepsKeys(e, a, body + tail);
    WrittenAppend(e, h, body, tail);
    ClosingWritten(e, hb, detail, last, judge);
    var wb := Written(e, h, body);
    assert ' ' !in Show(stamp);
    NotWritten(e, h, body, stamp, last);
    PlainNotWritten(e, h, body, detail);
    KeyHasSpace(e.switchName, stamp, last, detail);
    EnterAllTail([], wb, [detail, kl]);
  }

  /** A record made after the narrative is assigned to `detail` leaves that assignment alone. */
  lemma DetailKept(e: Env, b: Acc, detail: string, last: string, judge: Output -> Verdict)
    requires ' ' !in detail
    ensures Get(Steps(e, b, [SetLog(detail), Rec(last, judge)]).m.dict, detail) == Some(Some(b.log))
    ensures Steps(e, b, [SetLog(detail), Rec(last, judge)]).log == b.log + VerdictLine(judge(ExecOut(e, b.m, last)))
  {
    var c := Step(e, b, SetLog(detail));
    StepsCons(e, b, SetLog(detail), [Rec(last, judge)]);
    StepsOne(e, c, Rec(last, judge));
    PutGet(b.m.dict, detail, Some(b.log), detail);
    var (m1, out) := if e.policy.suppress(last) then (c.m, None) else RunF(e, c.m, last);
    var (m2, time) := RunF(e, m1, DateCmd);
    KeyHasSpace(e.switchName, time, last, detail);
    PutGet(m2.dict, Key(e.switchName, time, last), Stored(e.policy.truncate, out), detail);
  }

  /** `DetailKept` after any script. */
  lemma ClosingDetail(e: Env, a: Acc, body: seq<Op>, detail: string, last: string, judge: Output -> Verdict)
    requires ' ' !in detail
    ensures var b := Steps(e, a, body);
            var r := Steps(e, a, body + [SetLog(detail), Rec(last, judge)]);
            Get(r.m.dict, detail) == Some(Some(b.log)) && r.log == b.log + VerdictLine(judge(ExecOut(e, b.m, last)))
  {
    StepsAppend(e, a, body, [SetLog(detail), Rec(last, judge)]);
    DetailKept(e, Steps(e, a, body), detail, last, judge);
  }

  lemma StepsKeys(e: Env, a: Acc, ops: seq<Op>)
    ensures Keys(Steps(e, a, ops).m.dict) == EnterAll(Keys(a.m.dict), Written(e, a.m.history, ops))
  {
    StepsSpec(e, a, ops);
  }

  lemma ClosingWritten(e: Env, hb: seq<string>, detail: string, last: string, judge: Output -> Verdict)
    ensures Written(e, hb, [SetLog(detail), Rec(last, judge)]) == [detail, Key(e.switchName, StampAfter(e, hb, last), last)]
  {
    var tail := [SetLog(detail), Rec(last, judge)];
    var r := Rec(last, judge);
    assert tail[1..] == [r];
    assert Trace(e.policy, [SetLog(detail)]) == [] by {
      assert [SetLog(detail)][1..] == [];
    }
    assert hb + [] == hb;
    assert [r][1..] == [];
    assert Written(e, hb, [r]) == WrittenKey(e, hb, r) + Written(e, hb + Trace(e.policy, [r]), []);
    assert Written(e, hb, tail) == WrittenKey(e, hb, SetLog(detail)) + Written(e, hb + Trace(e.policy, [SetLog(detail)]), [r]);
  }

  /** The commands a script records, in order. */
  function Recorded(ops: seq<Op>): seq<string>
    decreases |ops|
  {
    if ops == [] then []
    else (if ops[0].Rec? then [ops[0].cmd] else []) + Recorded(ops[1..])
  }

  lemma {:induction false} RecordedAppend(s: seq<Op>, t: seq<Op>)
    ensures Recorded(s + t) == Recorded(s) + Recorded(t)
    decreases |s|
  {
    if s == [] {
      assert s + t == t;
    } else {
      assert (s + t)[1..] == s[1..] + t;
      RecordedAppend(s[1..], t);
    }
  }

  /** A script of `run_cli` calls only records nothing. */
  lemma {:induction false} RecordedNone(ops: seq<Op>)
    requires forall i :: 0 <= i < |ops| ==> !ops[i].Rec?
    ensures Recorded(ops) == []
    decreases |ops|
  {
    if ops != [] {
      assert forall i :: 0 <= i < |ops[1..]| ==> ops[1..][i] == ops[i + 1];
      RecordedNone(ops[1..]);
    }
  }

  /** A script of records only records its commands, in order. */
  lemma {:induction false} RecordedAll(ops: seq<Op>)
    requires forall i :: 0 <= i < |ops| ==> ops[i].Rec?
    ensures Recorded(ops) == seq(|ops|, i requires 0 <= i < |ops| => ops[i].cmd)
    decreases |ops|
  {
    if ops != [] {
      assert forall i :: 0 <= i < |ops[1..]| ==> ops[1..][i] == ops[i + 1];
      RecordedAll(ops[1..]);
    }
  }

  /** Recording distributes over the pieces of a script. */
  lemma RecordedSix(a: seq<Op>, b: seq<Op>, c: seq<Op>, d: seq<Op>, e: seq<Op>, f: seq<Op>)
    ensures Recorded(a + b + c + d + e + f)
            == Recorded(a) + Recorded(b) + Recorded(c) + Recorded(d) + Recorded(e) + Recorded(f)
  {
    RecordedAppend(a, b);
    RecordedAppend(a + b, c);
    RecordedAppend(a + b + c, d);
    RecordedAppend(a + b + c + d, e);
    RecordedAppend(a + b + c + d + e, f);
  }

  /** The closing assignment of the narrative and the final record. */
  lemma RecordedClosing(detail: string, last: string, judge: Output -> Verdict)
    ensures Recorded([SetLog(detail), Rec(last, judge)]) == [last]
  {
    var tail := [Rec(last, judge)];
    assert [SetLog(detail), Rec(last, judge)][1..] == tail;
    assert tail[1..] == [];
    assert Recorded(tail) == [last] + Recorded([]);
  }

  // ---------------------------------------------------------------------
  // Narratives built by a loop over several items

  /** The narrative of a loop that adds `line` for every item not found, in order. */
  function Lines(line: string, found: seq<bool>): string
    decreases |found|
  {
    if found == [] then ""
    else Lines(line, found[..|found| - 1]) + (if found[|found| - 1] then "" else line)
  }

  /** `n` copies of `s`. */
  function Repeat(s: string, n: nat): string
    decreases n
  {
    if n == 0 then "" else Repeat(s, n - 1) + s
  }

  /** One more item extends the narrative by `line` when it is not found. */
  lemma LinesStep(line: string, found: seq<bool>, i: nat)
    requires i < |found|
    ensures Lines(line, found[..i + 1]) == Lines(line, found[..i]) + (if found[i] then "" else line)
  {
    assert found[..i + 1][..i] == found[..i];
    assert found[..i + 1][i] == found[i];
  }

  /** Concluding with the verdict of narrative `t`: the status falls iff `t` is not empty, and `t` is appended. */
  lemma TextVerdict(a: Acc, t: string)
    ensures Conclude(a, if t == "" then Pass else Fail(t)) == Acc(a.m.(status := a.m.status && t == ""), a.log + t)
  {
    if t == "" {
      assert a.log + t == a.log;
    }
  }

  lemma {:induction false} RepeatEmpty(s: string, n: nat)
    requires s != ""
    ensures Repeat(s, n) == "" <==> n == 0
    decreases n
  {
    if n > 0 {
      RepeatEmpty(s, n - 1);
    }
  }

  /** The narrative is empty exactly when every item was found. */
  lemma {:induction false} LinesEmpty(line: string, found: seq<bool>)
    requires line != ""
    ensures Lines(line, found) == "" <==> forall i :: 0 <= i < |found| ==> found[i]
    decreases |found|
  {
    if found != [] {
      var init := found[..|found| - 1];
      LinesEmpty(line, init);
      assert forall i :: 0 <= i < |init| ==> init[i] == found[i];
    }
  }

  /** The number of items not found. */
  function Misses(ok: seq<bool>): nat
    decreases |ok|
  {
    if ok == [] then 0 else Misses(ok[..|ok| - 1]) + (if ok[|ok| - 1] then 0 else 1)
  }

  /** Each item not found adds its own copy of the line to the narrative. */
  lemma {:induction false} LinesCount(line: string, ok: seq<bool>)
    ensures Lines(line, ok) == Repeat(line, Misses(ok))
    decreases |ok|
  {
    if ok != [] {
      LinesCount(line, ok[..|ok| - 1]);
      if !ok[|ok| - 1] {
        assert Lines(line, ok) == Repeat(line, Misses(ok[..|ok| - 1])) + line;
      } else {
        assert Lines(line, ok) == Repeat(line, Misses(ok[..|ok| - 1])) + "";
      }
    }
  }

  // ---------------------------------------------------------------------
  // Loops that run one unrecorded command per item and read its output

  /** The command run for each item, in order. */
  function ItemCmds<T>(items: seq<T>, cmd: T -> string): (r: seq<string>)
    ensures |r| == |items|
  {
    seq(|items|, i requires 0 <= i < |items| => cmd(items[i]))
  }

  /** What `run_cli` returns for each of `cmds`, run one after the other after the processes `h`. */
  function RawOuts(e: Env, h: seq<string>, cmds: seq<string>): (r: seq<Output>)
    ensures |r| == |cmds|
  {
    seq(|cmds|, i requires 0 <= i < |cmds| => Answer(e.world(h + cmds[..i], cmds[i]), e.policy.strip))
  }

  /** Every command printed something. */
  predicate AllAnswered(outs: seq<Output>) {
    forall i :: 0 <= i < |outs| ==> outs[i].Some?
  }

  /** What each item adds to the narrative, given its output. */
  function ItemReports<T>(items: seq<T>, outs: seq<Output>, report: (T, string) -> string): (r: seq<string>)
    requires |outs| == |items|
    ensures |r| == |items|
  {
    seq(|items|, i requires 0 <= i < |items| => report(items[i], Show(outs[i])))
  }

  /**
   * The narrative of the loop over `items` after the processes `h`, or
   * `None` where Python raises because a command printed nothing.
   */
  function Probed<T>(e: Env, h: seq<string>, items: seq<T>, cmd: T -> string, report: (T, string) -> string): Option<string> {
    var outs := RawOuts(e, h, ItemCmds(items, cmd));
    if AllAnswered(outs) then Some(Concat(ItemReports(items, outs, report))) else None
  }

  lemma ItemReportsPrefix<T>(items: seq<T>, outs: seq<Output>, report: (T, string) -> string, i: nat)
    requires |outs| == |items| && i < |items|
    ensures Concat(ItemReports(items, outs, report)[..i + 1])
            == Concat(ItemReports(items, outs, report)[..i]) + report(items[i], Show(outs[i]))
  {
    var parts := ItemReports(items, outs, report);
    assert parts[..i + 1] == parts[..i] + [parts[i]];
    ConcatAppend(parts[..i], parts[i]);
  }

  /** The narrative is empty exactly when every item adds nothing. */
  lemma ProbedEmpty<T>(e: Env, h: seq<string>, items: seq<T>, cmd: T -> string, report: (T, string) -> string)
    requires Probed(e, h, items, cmd, report).Some?
    ensures var outs := RawOuts(e, h, ItemCmds(items, cmd));
            Probed(e, h, items, cmd, report).value == ""
            <==> forall i :: 0 <= i < |items| ==> report(items[i], outs[i].value) == ""
  {
    var outs := RawOuts(e, h, ItemCmds(items, cmd));
    var parts := ItemReports(items, outs, report);
    ConcatEmpty(parts);
    assert AllAnswered(outs);
    forall i | 0 <= i < |items|
      ensures parts[i] == report(items[i], outs[i].value)
    {
      assert outs[i].Some? && Show(outs[i]) == outs[i].value;
      assert parts[i] == report(items[i], Show(outs[i]));
    }
  }

  /** A step whose test can neither fail nor add a line. */
  ghost predicate Silent(op: Op) {
    (op.Rec? || op.Raw?) ==> forall o :: op.judge(o) == Pass
  }

  /** A script of silent steps leaves the status and the narrative as they were. */
  lemma {:induction false} StepsSilent(e: Env, a: Acc, ops: seq<Op>)
    requires forall i :: 0 <= i < |ops| ==> Silent(ops[i])
    ensures Steps(e, a, ops).log == a.log && Steps(e, a, ops).m.status == a.m.status
    decreases |ops|
  {
    if ops != [] {
      StepSpec(e, a, ops[0]);
      assert Silent(ops[0]);
      StepsSilent(e, Step(e, a, ops[0]), ops[1..]);
    }
  }

  /** Every step of `ops` is silent. */
  ghost predicate AllSilent(ops: seq<Op>) {
    forall i :: 0 <= i < |ops| ==> Silent(ops[i])
  }

  /**
   * A script with a single check among silent steps keeps its verdict
   * exactly when that check does not fail on what its command returns, and
   * its narrative is that check's line.
   */
  lemma OneCheck(e: Env, a: Acc, head: seq<Op>, cmd: string, judge: Output -> Verdict, tail: seq<Op>)
    requires AllSilent(head) && AllSilent(tail)
    ensures var v := judge(ExecOut(e, Steps(e, a, head).m, cmd));
            var r := Steps(e, a, head + [Rec(cmd, judge)] + tail);
            r.m.status == (a.m.status && !v.Fail?) && r.log == a.log + VerdictLine(v)
  {
    var op := Rec(cmd, judge);
    var b := Steps(e, a, head);
    StepsAppend(e, a, head, [op] + tail);
    assert head + [op] + tail == head + ([op] + tail);
    StepsSilent(e, a, head);
    StepsCons(e, b, op, tail);
    StepSpec(e, b, op);
    StepsSilent(e, Step(e, b, op), tail);
  }

  lemma AllSilentAppend(a: seq<Op>, b: seq<Op>)
    requires AllSilent(a) && AllSilent(b)
    ensures AllSilent(a + b)
  {
    assert forall i :: 0 <= i < |a + b| ==> (a + b)[i] == if i < |a| then a[i] else b[i - |a|];
  }

  /** A script made of records only. */
  predicate AllRec(ops: seq<Op>) {
    forall i :: 0 <= i < |ops| ==> ops[i].Rec?
  }

  lemma AllRecAppend(a: seq<Op>, b: seq<Op>)
    requires AllRec(a) && AllRec(b)
    ensures AllRec(a + b)
  {
    assert forall i :: 0 <= i < |a + b| ==> (a + b)[i] == if i < |a| then a[i] else b[i - |a|];
  }

  /** Not a record. */
  predicate Unrecorded(op: Op) {
    !op.Rec?
  }

  /** The narrative text a verdict adds. */
  function VerdictLine(v: Verdict): string {
    if v.Pass? then "" else v.line
  }

  /** `'Passed' if RESULT_STATUS else 'Failed'` */
  function StatusText(status: bool): string {
    if status then "Passed" else "Failed"
  }

  /** The lines of the log: key, `str(value)` and a blank line per entry, in dictionary order. */
  function LogLines(d: Dict<Output>): seq<string>
    decreases |d|
  {
    if d == [] then [] else [d[0].0, Show(d[0].1), ""] + LogLines(d[1..])
  }

  /** The text written to the log file. */
  function LogText(d: Dict<Output>): string {
    Concat(Terminated(LogLines(d)))
  }

  function Terminated(lines: seq<string>): seq<string>
    decreases |lines|
  {
    if lines == [] then [] else [lines[0] + "\n"] + Terminated(lines[1..])
  }

  /** Reading the log back three lines at a time. */
  function Entries(lines: seq<string>): seq<(string, string)>
    decreases |lines|
  {
    if |lines| < 3 then [] else [(lines[0], lines[1])] + Entries(lines[3..])
  }

  /** Every entry, with its value as `str` renders it. */
  function Shown(d: Dict<Output>): seq<(string, string)>
    decreases |d|
  {
    if d == [] then [] else [(d[0].0, Show(d[0].1))] + Shown(d[1..])
  }

  /** The log has three lines per entry and gives back every key and rendered value in order. */
  lemma {:induction false} LogRoundTrip(d: Dict<Output>)
    ensures |LogLines(d)| == 3 * |d|
    ensures Entries(LogLines(d)) == Shown(d)
    decreases |d|
  {
    if d != [] {
      LogRoundTrip(d[1..]);
      var rest := LogLines(d[1..]);
      assert ([d[0].0, Show(d[0].1), ""] + rest)[3..] == rest;
    }
  }

  lemma {:induction false} TerminatedAppend(a: seq<string>, b: seq<string>)
    ensures Terminated(a + b) == Terminated(a) + Terminated(b)
    decreases |a|
  {
    if a == [] {
      assert a + b == b;
    } else {
      assert (a + b)[1..] == a[1..] + b;
      TerminatedAppend(a[1..], b);
    }
  }

  lemma {:induction false} LogLinesAppend(d: Dict<Output>, k: string, v: Output)
    ensures LogLines(d + [(k, v)]) == LogLines(d) + [k, Show(v), ""]
    decreases |d|
  {
    if d != [] {
      assert (d + [(k, v)])[1..] == d[1..] + [(k, v)];
      LogLinesAppend(d[1..], k, v);
    }
  }

  /** A new last entry adds its key, value and blank line to the end of the log text. */
  lemma LogTextAppend(d: Dict<Output>, k: string, v: Output)
    ensures LogText(d + [(k, v)]) == LogText(d) + (k + "\n" + (Show(v) + "\n") + "\n")
  {
    LogLinesAppend(d, k, v);
    TerminatedAppend(LogLines(d), [k, Show(v), ""]);
    ConcatSplit(Terminated(LogLines(d)), Terminated([k, Show(v), ""]));
    EntryText(k, Show(v));
  }

  lemma EntryText(k: string, v: string)
    ensures Concat(Terminated([k, v, ""])) == k + "\n" + (v + "\n") + "\n"
  {
    var t := [k + "\n", v + "\n", "\n"];
    assert Terminated([k, v, ""]) == t by {
      assert [k, v, ""][1..] == [v, ""];
      assert [v, ""][1..] == [""];
      assert [""][1..] == [];
      assert "" + "\n" == "\n";
      assert Terminated([""]) == ["" + "\n"] + Terminated([]);
      assert Terminated([v, ""]) == [v + "\n", "\n"];
    }
    assert t[1..] == [v + "\n", "\n"];
    assert t[1..][1..] == ["\n"];
    assert Concat(["\n"]) == "\n" + Concat([]);
  }

  /** The log-writing loop at the end of a module's `main`. */
  method WriteLog(d: Dict<Output>) returns (text: string)
    ensures text == LogText(d)
  {
    text := "";
    var i := 0;
    while i < |d|
      invariant 0 <= i <= |d|
      invariant text == LogText(d[..i])
    {
      LogTextAppend(d[..i], d[i].0, d[i].1);
      assert d[..i + 1] == d[..i] + [(d[i].0, d[i].1)];
      text := text + (d[i].0 + "\n" + (Show(d[i].1) + "\n") + "\n");
      i := i + 1;
    }
    assert d[..|d|] == d;
  }

  /**
   * One Ansible module run: its fixed environment and the globals it updates.
   */
  class Session {
    const world: World
    const policy: Policy
    const switchName: string
    var dict: Dict<Output>
    var status: bool
    var history: seq<string>

    function E(): Env {
      Env(world, policy, switchName)
    }

    function St(): Sim
      reads this
    {
      Sim(dict, status, history)
    }

    constructor (w: World, p: Policy, sw: string)
      ensures world == w && policy == p && switchName == sw
      ensures St() == Fresh
    {
      world, policy, switchName := w, p, sw;
      dict, status, history := [], true, [];
    }

    /** `run_cli(module, cmd)` */
    method RunCli(cmd: string) returns (out: Output)
      modifies this
      ensures (St(), out) == RunF(E(), old(St()), cmd)
    {
      var st := world(history, cmd);
      history := history + [cmd];
      if st.out != "" {
        out := Some(if policy.strip then RStrip(st.out) else st.out);
      } else if st.err != "" {
        out := Some(if policy.strip then RStrip(st.err) else st.err);
      } else {
        out := None;
      }
    }

    /** `execute_commands(module, cmd)` */
    method Execute(cmd: string) returns (out: Output)
      modifies this
      ensures (St(), out) == ExecF(E(), old(St()), cmd)
      ensures out == ExecOut(E(), old(St()), cmd)
      ensures Answers(E(), cmd) ==> out.Some?
    {
      if policy.suppress(cmd) {
        out := None;
      } else {
        out := RunCli(cmd);
      }
      var time := RunCli(DateCmd);
      var key := switchName + " " + Show(time) + " " + cmd;
      var value := out;
      if policy.truncate && out.Some? && out.value != "" && UTF8Len(out.value) > StoreLimit {
        value := Some(Take(out.value, StoreLimit));
      }
      dict := Put(dict, key, value);
    }

    /**
     * `out = execute_commands(module, cmd)` followed by the module's test of
     * `out`: a failing test clears `RESULT_STATUS`, and its line (or a note's)
     * is appended to the narrative.
     */
    method Check(cmd: string, judge: Output -> Verdict, summary0: string) returns (summary: string, out: Output)
      modifies this
      ensures Acc(St(), summary) == Step(E(), Acc(old(St()), summary0), Rec(cmd, judge))
      ensures out == ExecOut(E(), old(St()), cmd)
    {
      out := Execute(cmd);
      summary := summary0;
      match judge(out) {
        case Pass =>
        case Fail(line) =>
          Fail();
          summary := summary + line;
        case Note(line) =>
          summary := summary + line;
      }
    }

    /** The same for a command run with `run_cli` alone, which is not recorded. */
    method CheckRaw(cmd: string, judge: Output -> Verdict, summary0: string) returns (summary: string, out: Output)
      modifies this
      ensures Acc(St(), summary) == Step(E(), Acc(old(St()), summary0), Raw(cmd, judge))
      ensures out == RunF(E(), old(St()), cmd).1
    {
      out := RunCli(cmd);
      summary := summary0;
      match judge(out) {
        case Pass =>
        case Fail(line) =>
          Fail();
          summary := summary + line;
        case Note(line) =>
          summary := summary + line;
      }
    }

    /**
     * A straight run of module steps, each one a call of `execute_commands`
     * or `run_cli` with its test, or an assignment to `HASH_DICT`.
     */
    method Run(ops: seq<Op>, summary0: string) returns (summary: string)
      modifies this
      ensures Acc(St(), summary) == Steps(E(), Acc(old(St()), summary0), ops)
    {
      summary := summary0;
      ghost var a0 := Acc(St(), summary0);
      var i := 0;
      while i < |ops|
        invariant 0 <= i <= |ops|
        invariant Acc(St(), summary) == Steps(E(), a0, ops[..i])
      {
        match ops[i] {
          case Rec(cmd, judge) =>
            var out;
            summary, out := Check(cmd, judge, summary);
          case Raw(cmd, judge) =>
            var out;
            summary, out := CheckRaw(cmd, judge, summary);
          case Set(key, value) =>
            Store(key, value);
          case SetLog(key) =>
            Store(key, Some(summary));
        }
        StepsSnoc(E(), a0, ops[..i], ops[i]);
        assert ops[..i + 1] == ops[..i] + [ops[i]];
        i := i + 1;
      }
      assert ops[..|ops|] == ops;
    }

    /**
     * A loop that runs the command of each item with `run_cli` and extends
     * the narrative by what the item's output calls for; Python raises at
     * the first command that prints nothing.
     */
    method Probe<T>(items: seq<T>, cmd: T -> string, report: (T, string) -> string) returns (r: Option<string>)
      modifies this
      ensures r == Probed(E(), old(history), items, cmd, report)
      ensures r.Some? ==> history == old(history) + ItemCmds(items, cmd)
      ensures dict == old(dict) && status == old(status)
    {
      ghost var h0 := history;
      ghost var cmds := ItemCmds(items, cmd);
      ghost var outs := RawOuts(E(), h0, cmds);
      var text := "";
      var i := 0;
      while i < |items|
        invariant 0 <= i <= |items|
        invariant history == h0 + cmds[..i]
        invariant forall k :: 0 <= k < i ==> outs[k].Some?
        invariant text == Concat(ItemReports(items, outs, report)[..i])
        invariant dict == old(dict) && status == old(status)
      {
        var out := RunCli(cmd(items[i]));
        assert outs[i] == out;
        if out.None? {
          return None;
        }
        ItemReportsPrefix(items, outs, report, i);
        text := text + report(items[i], out.value);
        assert cmds[..i + 1] == cmds[..i] + [cmds[i]];
        i := i + 1;
      }
      assert cmds[..|items|] == cmds;
      assert ItemReports(items, outs, report)[..|items|] == ItemReports(items, outs, report);
      r := Some(text);
    }

    /** `HASH_DICT[key] = value` */
    method Store(key: string, value: Output)
      modifies this
      ensures St() == old(St()).(dict := Put(old(dict), key, value))
    {
      dict := Put(dict, key, value);
    }

    /** `RESULT_STATUS = False` */
    method Fail()
      modifies this
      ensures St() == old(St()).(status := false)
    {
      status := false;
    }

    /** `HASH_DICT['result.status'] = 'Passed' if RESULT_STATUS else 'Failed'` */
    method StoreStatus()
      modifies this
      ensures St() == WithStatus(old(St()))
    {
      dict := Put(dict, "result.status", Some(if status then "Passed" else "Failed"));
    }
  }
}
