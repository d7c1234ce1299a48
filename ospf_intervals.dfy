/**
 * `ospf/test_ospf_intervals.py`: restart Quagga, check that an OSPF
 * neighbour shows up on every listed interface and, on the switch under
 * test, that each interface has the configured hello and dead intervals
 * and that its neighbour disappears when it goes down and comes back when
 * it comes up.
 */
module OspfIntervals {
  import opened Wrappers
  import opened PyStr
  import opened PyList
  import opened Recorder

  datatype Params = Params(
    intervalSwitch: string, ethList: string, helloTimer: string, deadTimer: string, packageName: string)

  /** `'service' in cmd and 'restart' in cmd`: recorded as `None` without being run. */
  predicate Held(cmd: string) {
    Contains(cmd, "service") && Contains(cmd, "restart")
  }

  const RunningConfig: string := "vtysh -c 'sh running-config'"
  const NeighborCmd: string := "vtysh -c 'sh ip ospf neighbor'"

  function Restart(p: Params): string { "service " + p.packageName + " restart" }

  function Status(p: Params): string { "service " + p.packageName + " status" }

  function Eths(p: Params): seq<string> {
    Split(p.ethList, ",")
  }

  function Iface(eth: string): string {
    "eth-" + eth + "-1"
  }

  function UpCmd(eth: string): string { "ifconfig " + Iface(eth) + " up" }

  function DownCmd(eth: string): string { "ifconfig " + Iface(eth) + " down" }

  function IfaceCmd(eth: string): string {
    "vtysh -c 'sh ip ospf interface " + Iface(eth) + "'"
  }

  // ---------------------------------------------------------------------
  // Narrative lines

  function NotShowingLine(sw: string, eth: string): string {
    "On switch " + sw + " " + "ospf neighbor is not showing up " + "for " + Iface(eth) + " interface\n"
  }

  function NoneLine(sw: string, cmd: string): string {
    "On switch " + sw + " " + "ospf neighbors cannot be verified since " + "output of command " + cmd + " is None\n"
  }

  function HelloLine(sw: string, eth: string): string {
    "On switch " + sw + " " + "hello timer interval is not configured " + "for " + Iface(eth) + " interface\n"
  }

  function DeadLine(sw: string, eth: string): string {
    "On switch " + sw + " " + "dead timer interval is not configured " + "for " + Iface(eth) + " interface\n"
  }

  function NoTimersLine(sw: string, cmd: string): string {
    "On switch " + sw + " " + "hello and deadtime intervals cannot be verified "
    + "since output of command " + cmd + " is None\n"
  }

  function StillUpLine(sw: string, eth: string): string {
    "On switch " + sw + " " + "ospf neighbor is showing up " + "for " + Iface(eth) + " interface "
    + "even after bringing down this interface\n"
  }

  function StillDownLine(sw: string, eth: string): string {
    "On switch " + sw + " " + "ospf neighbor is not showing up " + "for " + Iface(eth) + " interface "
    + "even after bringing up this interface\n"
  }

  /** `if out:` */
  predicate Truthy(o: Output) {
    o.Some? && o.value != ""
  }

  // ---------------------------------------------------------------------
  // Checks

  /** The lines for the interfaces the neighbour table lacks, in list order. */
  function Absent(sw: string, eths: seq<string>, out: string): string {
    if eths == [] then ""
    else (if Contains(out, Iface(eths[0])) then "" else NotShowingLine(sw, eths[0])) + Absent(sw, eths[1..], out)
  }

  /** The first neighbour check: a missing interface is only noted, a `None` output fails. */
  function InitialJudge(sw: string, eths: seq<string>): Output -> Verdict {
    (o: Output) =>
      if !Truthy(o) then Fail(NoneLine(sw, NeighborCmd))
      else if Absent(sw, eths, o.value) == "" then Pass
      else Note(Absent(sw, eths, o.value))
  }

  /** The two interval tests of one interface, each adding its own line. */
  function TimerText(sw: string, p: Params, eth: string, out: string): string {
    (if Contains(out, "Hello " + p.helloTimer) then "" else HelloLine(sw, eth))
    + (if Contains(out, "Dead " + p.deadTimer) then "" else DeadLine(sw, eth))
  }

  function TimerJudge(sw: string, p: Params, eth: string): Output -> Verdict {
    (o: Output) =>
      if !Truthy(o) then Fail(NoTimersLine(sw, IfaceCmd(eth)))
      else if TimerText(sw, p, eth, o.value) == "" then Pass
      else Fail(TimerText(sw, p, eth, o.value))
  }

  /** After the interface goes down its neighbour must be gone. */
  function DownJudge(sw: string, eth: string): Output -> Verdict {
    (o: Output) =>
      if !Truthy(o) then Fail(NoneLine(sw, NeighborCmd))
      else if Contains(o.value, Iface(eth)) then Fail(StillUpLine(sw, eth))
      else Pass
  }

  /** After the interface comes up its neighbour must be back. */
  function UpJudge(sw: string, eth: string): Output -> Verdict {
    (o: Output) =>
      if !Truthy(o) then Fail(NoneLine(sw, NeighborCmd))
      else if Contains(o.value, Iface(eth)) then Pass
      else Fail(StillDownLine(sw, eth))
  }

  /** One interface on the switch under test: intervals, down, neighbours, up, neighbours. */
  function Cycle(sw: string, p: Params, eth: string): seq<Op> {
    [Rec(IfaceCmd(eth), TimerJudge(sw, p, eth)),
     Rec(DownCmd(eth), Ignore),
     Rec(NeighborCmd, DownJudge(sw, eth)),
     Rec(UpCmd(eth), Ignore),
     Rec(NeighborCmd, UpJudge(sw, eth))]
  }

  function CycleAll(sw: string, p: Params): string -> seq<Op> {
    (eth: string) => Cycle(sw, p, eth)
  }

  function UpAll(): string -> seq<Op> {
    (eth: string) => [Rec(UpCmd(eth), Ignore)]
  }

  function Opening(p: Params): seq<Op> {
    [Rec(RunningConfig, Ignore), Rec(Restart(p), Ignore), Rec(Status(p), Ignore)]
  }

  /** Everything `verify_ospf_intervals` does, in order. */
  function Script(sw: string, p: Params): seq<Op> {
    Opening(p)
    + FlatMap(Eths(p), UpAll())
    + [Rec(NeighborCmd, InitialJudge(sw, Eths(p)))]
    + (if sw == p.intervalSwitch then FlatMap(Eths(p), CycleAll(sw, p)) else [])
    + [SetLog("result.detail"), Rec("goes status", Ignore)]
  }

  /** `time.sleep(int(dead_timer))` and `int(hello_timer)` need decimal timers on the switch under test. */
  predicate Valid(sw: string, p: Params) {
    sw == p.intervalSwitch ==> IsDecimal(p.helloTimer) && IsDecimal(p.deadTimer)
  }

  method VerifyOspfIntervals(s: Session, p: Params)
    modifies s
    requires Holding(s.policy, Held)
    requires Valid(s.switchName, p)
    ensures s.St() == Steps(s.E(), Acc(old(s.St()), ""), Script(s.switchName, p)).m
  {
    var summary := s.Run(Script(s.switchName, p), "");
  }

  /** `main` */
  method RunModule(s: Session, p: Params) returns (text: string)
    modifies s
    requires Holding(s.policy, Held)
    requires Valid(s.switchName, p)
    ensures s.St() == WithStatus(Steps(s.E(), Acc(old(s.St()), ""), Script(s.switchName, p)).m)
    ensures text == LogText(s.dict)
  {
    VerifyOspfIntervals(s, p);
    s.StoreStatus();
    text := WriteLog(s.dict);
  }

  // ---------------------------------------------------------------------
  // Properties

  /** The restart is held back; whether the status query is depends only on 'restart' occurring in it. */
  lemma RestartHeld(p: Params)
    ensures Held(Restart(p))
    ensures Held(Status(p)) <==> Contains(Status(p), "restart")
  {
    ContainsAt(" restart", "restart", 1);
    ContainsConcat("service " + p.packageName, " restart", "restart");
    ContainsAt("service ", "service", 0);
    ContainsConcat("service ", p.packageName, "service");
    ContainsConcat("service " + p.packageName, " restart", "service");
    ContainsConcat("service " + p.packageName, " status", "service");
  }

  /** No interface missing from the table exactly when every one occurs in it. */
  lemma {:induction false} AbsentNone(sw: string, eths: seq<string>, out: string)
    ensures Absent(sw, eths, out) == "" <==> forall k :: 0 <= k < |eths| ==> Contains(out, Iface(eths[k]))
    decreases |eths|
  {
    if eths != [] {
      AbsentNone(sw, eths[1..], out);
      assert forall k :: 0 < k < |eths| ==> eths[1..][k - 1] == eths[k];
      assert |NotShowingLine(sw, eths[0])| > 0;
    }
  }

  /**
   * The first check never fails on a missing interface, only notes it; it
   * fails exactly when the output is `None` or empty.
   */
  lemma InitialSpec(sw: string, eths: seq<string>, o: Output)
    ensures InitialJudge(sw, eths)(o).Fail? <==> !Truthy(o)
    ensures Truthy(o) ==> (InitialJudge(sw, eths)(o).Pass?
                           <==> forall k :: 0 <= k < |eths| ==> Contains(o.value, Iface(eths[k])))
  {
    if Truthy(o) {
      AbsentNone(sw, eths, o.value);
    }
  }

  /** The hello and the dead interval are checked independently, each adding its own line. */
  lemma TimerSpec(sw: string, p: Params, eth: string, out: string)
    requires out != ""
    ensures var hello, dead := Contains(out, "Hello " + p.helloTimer), Contains(out, "Dead " + p.deadTimer);
            TimerJudge(sw, p, eth)(Some(out))
            == if hello && dead then Pass
               else Fail((if hello then "" else HelloLine(sw, eth)) + (if dead then "" else DeadLine(sw, eth)))
    ensures TimerJudge(sw, p, eth)(None) == Fail(NoTimersLine(sw, IfaceCmd(eth)))
  {
    assert |HelloLine(sw, eth)| > 0 && |DeadLine(sw, eth)| > 0;
  }

  /** After going down the check fails iff the interface is still listed; after coming up, iff it is not. */
  lemma DownUpSpec(sw: string, eth: string, out: string)
    requires out != ""
    ensures DownJudge(sw, eth)(Some(out)).Fail? <==> Contains(out, Iface(eth))
    ensures UpJudge(sw, eth)(Some(out)).Fail? <==> !Contains(out, Iface(eth))
    ensures DownJudge(sw, eth)(None).Fail? && UpJudge(sw, eth)(None).Fail?
  {
  }

  /** Another switch records only the set-up, the initial check and goes status. */
  lemma OthersOnlyInitial(sw: string, p: Params)
    requires sw != p.intervalSwitch
    ensures Recorded(Script(sw, p))
            == [RunningConfig, Restart(p), Status(p)]
               + seq(|Eths(p)|, i requires 0 <= i < |Eths(p)| => UpCmd(Eths(p)[i]))
               + [NeighborCmd] + ["goes status"]
  {
    var ups := FlatMap(Eths(p), UpAll());
    var check := [Rec(NeighborCmd, InitialJudge(sw, Eths(p)))];
    var closing := [SetLog("result.detail"), Rec("goes status", Ignore)];
    assert Script(sw, p) == Opening(p) + ups + check + [] + closing;
    assert Opening(p) + ups + check + [] == Opening(p) + ups + check;
    RecordedAppend(Opening(p) + ups + check, closing);
    RecordedAppend(Opening(p) + ups, check);
    RecordedAppend(Opening(p), ups);
    RecordedAll(Opening(p));
    RecordedAll(check);
    UpsRecorded(Eths(p));
    RecordedClosing("result.detail", "goes status", Ignore);
  }

  lemma {:induction false} UpsRecorded(eths: seq<string>)
    ensures Recorded(FlatMap(eths, UpAll())) == seq(|eths|, i requires 0 <= i < |eths| => UpCmd(eths[i]))
    decreases |eths|
  {
    if eths != [] {
      UpsRecorded(eths[1..]);
      RecordedAppend(UpAll()(eths[0]), FlatMap(eths[1..], UpAll()));
      RecordedAll(UpAll()(eths[0]));
    }
  }

  /**
   * On the switch under test, interface i gets five records in a row: its
   * interval query, down, the neighbour table, up, the neighbour table.
   */
  lemma CycleAt(sw: string, p: Params, i: nat)
    requires i < |Eths(p)|
    ensures var cs, e := FlatMap(Eths(p), CycleAll(sw, p)), Eths(p)[i];
            |cs| == 5 * |Eths(p)| && 5 * i + 4 < |cs|
            && cs[5 * i] == Rec(IfaceCmd(e), TimerJudge(sw, p, e))
            && cs[5 * i + 1] == Rec(DownCmd(e), Ignore)
            && cs[5 * i + 2] == Rec(NeighborCmd, DownJudge(sw, e))
            && cs[5 * i + 3] == Rec(UpCmd(e), Ignore)
            && cs[5 * i + 4] == Rec(NeighborCmd, UpJudge(sw, e))
  {
    var f := CycleAll(sw, p);
    FlatMapAt(Eths(p), f, 5, i, 0);
    FlatMapAt(Eths(p), f, 5, i, 1);
    FlatMapAt(Eths(p), f, 5, i, 2);
    FlatMapAt(Eths(p), f, 5, i, 3);
    FlatMapAt(Eths(p), f, 5, i, 4);
  }
}
