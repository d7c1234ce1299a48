/**
 * `bgp/test_bgp_peering_if_down.py`: add a dummy interface, restart
 * Quagga, then check the BGP neighbours three times — first with every
 * interface up, then with the listed leaf interfaces down, then with them
 * up again — pinging the first other leaf after each check when asked.
 */
module BgpPeeringIfDown {
  import opened Wrappers
  import opened PyStr
  import opened PyList
  import opened OrderedDict
  import opened Recorder

  datatype Params = Params(
    configFile: string, leafList: seq<string>, ethList: string, checkPing: bool, packageName: string)

  /** `'dummy' in cmd or 'restart' in cmd`: recorded as `None` without being run. */
  predicate Held(cmd: string) {
    Contains(cmd, "dummy") || Contains(cmd, "restart")
  }

  const NeighborsCmd: string := "vtysh -c 'sh ip bgp neighbors'"
  const Established: string := "BGP state = Established"

  predicate IsLeaf(sw: string, p: Params) {
    sw in p.leafList
  }

  /** `leaf_list` once a leaf has removed itself from it. */
  function OtherLeaves(sw: string, p: Params): seq<string> {
    if IsLeaf(sw, p) then RemoveFirst(p.leafList, sw) else p.leafList
  }

  function SelfIp(sw: string): string {
    "192.168." + LastTwo(sw) + ".1"
  }

  /** `'192.168.{}.1'.format(leaf_list[0][-2::])` */
  function NeighborIp(sw: string, p: Params): string
    requires OtherLeaves(sw, p) != []
  {
    "192.168." + LastTwo(OtherLeaves(sw, p)[0]) + ".1"
  }

  // ---------------------------------------------------------------------
  // check_bgp_neighbors

  /** A stripped config line naming a neighbour and its remote AS. */
  predicate IsNeighbor(line: string) {
    Contains(Strip(line), "neighbor") && Contains(Strip(line), "remote-as")
  }

  /** `line.split()[3]` needs four tokens on every neighbour line. */
  predicate WellFormed(lines: seq<string>) {
    forall i :: 0 <= i < |lines| && IsNeighbor(lines[i]) ==> |Words(Strip(lines[i]))| >= 4
  }

  /** Tokens 1 and 3 of a stripped neighbour line: the neighbour's IP and its remote AS. */
  function Neighbor(line: string): (string, string) {
    (Word(Strip(line), 1), Word(Strip(line), 3))
  }

  /** The (IP, AS) pairs of the neighbour lines, in order. */
  function Neighbors(lines: seq<string>): (r: seq<(string, string)>)
    ensures |r| <= |lines|
  {
    if lines == [] then []
    else (if IsNeighbor(lines[0]) then [Neighbor(lines[0])] else []) + Neighbors(lines[1..])
  }

  /** Both the IP and the AS occur in the output. */
  predicate Present(out: string, n: (string, string)) {
    Contains(out, n.0) && Contains(out, n.1)
  }

  /** The neighbours whose IP or AS the output lacks. */
  function Missing(ns: seq<(string, string)>, out: string): (r: seq<(string, string)>)
    ensures |r| <= |ns|
  {
    if ns == [] then []
    else (if Present(out, ns[0]) then [] else [ns[0]]) + Missing(ns[1..], out)
  }

  function MissingLine(sw: string, ip: string): string {
    "On switch " + sw + " " + "bgp neighbor " + ip + " " + "is not present in the output of "
    + "command " + NeighborsCmd + "\n"
  }

  function MissingLines(sw: string, ns: seq<(string, string)>): string {
    if ns == [] then "" else MissingLine(sw, ns[0].0) + MissingLines(sw, ns[1..])
  }

  function EstablishedLine(sw: string): string {
    "On switch " + sw + " " + "bgp state of all/some neighbors "
    + "are not Established in the output of " + "command " + NeighborsCmd + "\n"
  }

  function NoneLine(sw: string): string {
    "On switch " + sw + " " + "bgp neighbor relationship cannot be verified "
    + "because output of command " + NeighborsCmd + " " + "is None"
  }

  /** What the loop over the config lines keeps: the neighbour count and the failure lines. */
  datatype Tally = Tally(count: nat, text: string)

  /** The loop over the config lines. */
  function Scan(sw: string, lines: seq<string>, out: string): Tally
  {
    if lines == [] then Tally(0, "")
    else
      var rest := Scan(sw, lines[1..], out);
      if !IsNeighbor(lines[0]) then rest
      else if Present(out, Neighbor(lines[0])) then Tally(rest.count + 1, rest.text)
      else Tally(rest.count + 1, MissingLine(sw, Neighbor(lines[0]).0) + rest.text)
  }

  /** The narrative `check_bgp_neighbors` adds for an output. */
  function NeighborText(sw: string, lines: seq<string>, o: Output): string {
    if o.None? || o.value == "" then NoneLine(sw)
    else
      var t := Scan(sw, lines, o.value);
      t.text + (if Count(o.value, Established) != t.count then EstablishedLine(sw) else "")
  }

  function NeighborJudge(sw: string, lines: seq<string>): Output -> Verdict {
    (o: Output) => if NeighborText(sw, lines, o) == "" then Pass else Fail(NeighborText(sw, lines, o))
  }

  /** `check_bgp_neighbors`: the narrative goes back into `result.detail`. */
  function CheckNeighbors(sw: string, p: Params): seq<Op> {
    [Rec(NeighborsCmd, NeighborJudge(sw, SplitLines(p.configFile))), SetLog("result.detail")]
  }

  // ---------------------------------------------------------------------
  // verify_ping

  function PingCmd(sw: string, p: Params): string
    requires OtherLeaves(sw, p) != []
  {
    "ping -w 3 -c " + "3" + " -I " + SelfIp(sw) + " " + NeighborIp(sw, p)
  }

  function PingLine(sw: string, ip: string): string {
    "From switch " + sw + " " + "neighbor ip " + ip + " " + "is not getting pinged\n"
  }

  function PingJudge(sw: string, ip: string): Output -> Verdict {
    (o: Output) => if Contains(o.GetOr(""), "3" + " received") then Pass else Fail(PingLine(sw, ip))
  }

  /** `verify_ping`, on a leaf when `check_ping` is set. */
  function Ping(sw: string, p: Params): seq<Op>
    requires OtherLeaves(sw, p) != []
  {
    if p.checkPing && IsLeaf(sw, p) then
      [Rec(PingCmd(sw, p), PingJudge(sw, NeighborIp(sw, p))), SetLog("result.detail")]
    else []
  }

  // ---------------------------------------------------------------------
  // verify_bgp_peering_interface_down

  function DummyAdd(): string { "ip link add dummy0 type dummy" }

  function DummyAddress(sw: string): string {
    "ifconfig " + ("dummy0 192.168." + LastTwo(sw) + ".1 netmask 255.255.255.255")
  }

  /** The dummy interface gets the address 192.168.<switch id>.1 with a full netmask. */
  lemma DummyAddressText(sw: string)
    ensures DummyAddress(sw) == "ifconfig dummy0 192.168." + LastTwo(sw) + ".1 netmask 255.255.255.255"
  {
    var x := LastTwo(sw);
    assert "ifconfig " + ("dummy0 192.168." + x + ".1 netmask 255.255.255.255")
        == ("ifconfig " + "dummy0 192.168.") + x + ".1 netmask 255.255.255.255";
  }

  function Restart(p: Params): string { "service " + p.packageName + " restart" }

  function Status(p: Params): string { "service " + p.packageName + " status" }

  const RunningConfig: string := "vtysh -c 'sh running-config'"

  /** Add `dummy0` and address it. */
  function DummySetup(sw: string): seq<Op> {
    [Rec(DummyAdd(), Ignore), Rec(DummyAddress(sw), Ignore)]
  }

  /** Read the running configuration, restart the routing package and query it. */
  function ServiceSetup(p: Params): seq<Op> {
    [Rec(RunningConfig, Ignore), Rec(Restart(p), Ignore), Rec(Status(p), Ignore)]
  }

  function Setup(sw: string, p: Params): seq<Op> {
    DummySetup(sw) + ServiceSetup(p)
  }

  function Eths(p: Params): seq<string> {
    Split(p.ethList, ",")
  }

  function IfCmd(eth: string, state: string): string {
    "ifconfig eth-" + Strip(eth) + "-1 " + state
  }

  /** On a leaf, every listed interface is set `state`; elsewhere nothing is. */
  function Toggle(sw: string, p: Params, state: string): (r: seq<Op>)
    ensures |r| == if IsLeaf(sw, p) then |Eths(p)| else 0
  {
    var eths := Eths(p);
    if IsLeaf(sw, p) then seq(|eths|, i requires 0 <= i < |eths| => Rec(IfCmd(eths[i], state), Ignore)) else []
  }

  function Round(sw: string, p: Params): seq<Op>
    requires OtherLeaves(sw, p) != []
  {
    CheckNeighbors(sw, p) + Ping(sw, p)
  }

  /** What follows the first round: the interfaces go down, round two, up again, round three, goes status. */
  function Later(sw: string, p: Params): seq<Op>
    requires OtherLeaves(sw, p) != []
  {
    Toggle(sw, p, "down") + Round(sw, p) + Toggle(sw, p, "up") + Round(sw, p) + [Rec("goes status", Ignore)]
  }

  /** Everything `verify_bgp_peering_interface_down` does, in order. */
  function Script(sw: string, p: Params): seq<Op>
    requires OtherLeaves(sw, p) != []
  {
    Setup(sw, p) + Round(sw, p) + Later(sw, p)
  }

  /** `leaf_list[0]` and `config[3]` do not raise. */
  predicate Valid(sw: string, p: Params) {
    OtherLeaves(sw, p) != [] && WellFormed(SplitLines(p.configFile))
  }

  /** `'3 received' not in ping_out` raises on `None`. */
  ghost predicate Answered(e: Env, p: Params)
    requires OtherLeaves(e.switchName, p) != []
  {
    p.checkPing && IsLeaf(e.switchName, p) ==> Answers(e, PingCmd(e.switchName, p))
  }

  method VerifyBgpPeeringInterfaceDown(s: Session, p: Params)
    modifies s
    requires Holding(s.policy, Held)
    requires Valid(s.switchName, p) && Answered(s.E(), p)
    ensures s.St() == Steps(s.E(), Acc(old(s.St()), ""), Script(s.switchName, p)).m
  {
    var summary := s.Run(Script(s.switchName, p), "");
  }

  /** `main` */
  method RunModule(s: Session, p: Params) returns (text: string)
    modifies s
    requires Holding(s.policy, Held)
    requires Valid(s.switchName, p) && Answered(s.E(), p)
    ensures s.St() == WithStatus(Steps(s.E(), Acc(old(s.St()), ""), Script(s.switchName, p)).m)
    ensures text == LogText(s.dict)
  {
    VerifyBgpPeeringInterfaceDown(s, p);
    s.StoreStatus();
    text := WriteLog(s.dict);
  }

  // ---------------------------------------------------------------------
  // Properties

  /** The dummy interface set-up and the service restart are held back. */
  lemma SetupHeld(sw: string, p: Params)
    ensures Held(DummyAdd()) && Held(DummyAddress(sw)) && Held(Restart(p))
  {
    ContainsAt(DummyAdd(), "dummy", 12);
    DummyAddressHeld(sw);
    RestartHeld(p);
  }

  lemma DummyAddressHeld(sw: string)
    ensures Contains(DummyAddress(sw), "dummy")
  {
    var tail := "dummy0 192.168." + LastTwo(sw) + ".1 netmask 255.255.255.255";
    ContainsAt(tail, "dummy", 0);
    ContainsConcat("ifconfig ", tail, "dummy");
  }

  lemma RestartHeld(p: Params)
    ensures Contains(Restart(p), "restart")
  {
    ContainsAt(" restart", "restart", 1);
    ContainsConcat("service " + p.packageName, " restart", "restart");
  }

  /** What a recorded command starts: itself unless it is held, then `date`. */
  function Started(cmd: string): seq<string> {
    (if Held(cmd) then [] else [cmd]) + [DateCmd]
  }

  /** So the set-up starts only time stamps, the running configuration and the status query. */
  lemma SetupTrace(pol: Policy, sw: string, p: Params)
    requires Holding(pol, Held)
    ensures Trace(pol, Setup(sw, p))
            == [DateCmd, DateCmd] + (Started(RunningConfig) + [DateCmd] + Started(Status(p)))
  {
    TraceAppend(pol, DummySetup(sw), ServiceSetup(p));
    DummyTrace(pol, sw);
    ServiceTrace(pol, p);
  }

  lemma DummyTrace(pol: Policy, sw: string)
    requires Holding(pol, Held)
    ensures Trace(pol, DummySetup(sw)) == [DateCmd, DateCmd]
  {
    ContainsAt(DummyAdd(), "dummy", 12);
    DummyAddressHeld(sw);
    var ops := DummySetup(sw);
    TraceCons(pol, ops);
    TraceCons(pol, ops[1..]);
    assert ops[2..] == [];
  }

  lemma ServiceTrace(pol: Policy, p: Params)
    requires Holding(pol, Held)
    ensures Trace(pol, ServiceSetup(p))
            == Started(RunningConfig) + [DateCmd] + Started(Status(p))
  {
    RestartHeld(p);
    var ops := ServiceSetup(p);
    TraceCons(pol, ops);
    TraceCons(pol, ops[1..]);
    TraceCons(pol, ops[2..]);
    assert ops[3..] == [];
  }

  /** The count is the number of neighbour lines, and the failure lines are one per missing neighbour. */
  lemma {:induction false} ScanSpec(sw: string, lines: seq<string>, out: string)
    ensures Scan(sw, lines, out).count == |Neighbors(lines)|
    ensures Scan(sw, lines, out).text == MissingLines(sw, Missing(Neighbors(lines), out))
    decreases |lines|
  {
    if lines == [] {
      assert Neighbors(lines) == [];
    } else {
      ScanSpec(sw, lines[1..], out);
      var r := Scan(sw, lines[1..], out);
      var rest := Neighbors(lines[1..]);
      if IsNeighbor(lines[0]) {
        var n := Neighbor(lines[0]);
        assert Neighbors(lines) == [n] + rest;
        MissingCons(n, rest, out);
        if Present(out, n) {
          assert Missing([n] + rest, out) == Missing(rest, out);
        } else {
          assert Missing([n] + rest, out) == [n] + Missing(rest, out);
          MissingLinesCons(sw, n, Missing(rest, out));
        }
      } else {
        assert Neighbors(lines) == rest;
      }
    }
  }

  lemma MissingCons(n: (string, string), rest: seq<(string, string)>, out: string)
    ensures Missing([n] + rest, out) == (if Present(out, n) then [] else [n]) + Missing(rest, out)
  {
    assert ([n] + rest)[0] == n;
    assert ([n] + rest)[1..] == rest;
  }

  lemma MissingLinesCons(sw: string, n: (string, string), rest: seq<(string, string)>)
    ensures MissingLines(sw, [n] + rest) == MissingLine(sw, n.0) + MissingLines(sw, rest)
  {
    assert ([n] + rest)[1..] == rest;
  }

  /** No neighbour is missing exactly when every IP and AS occurs in the output. */
  lemma {:induction false} MissingNone(ns: seq<(string, string)>, out: string)
    ensures Missing(ns, out) == [] <==> forall k :: 0 <= k < |ns| ==> Contains(out, ns[k].0) && Contains(out, ns[k].1)
    decreases |ns|
  {
    if ns != [] {
      MissingNone(ns[1..], out);
      assert forall k :: 0 < k < |ns| ==> ns[1..][k - 1] == ns[k];
    }
  }

  /**
   * The neighbour check fails exactly when the output is `None` or empty,
   * a neighbour's IP or AS is missing from it, or the number of
   * 'BGP state = Established' differs from the number of neighbours; its
   * narrative is one line per missing neighbour, then the Established line.
   */
  lemma NeighborJudgeSpec(sw: string, lines: seq<string>, out: string)
    requires out != ""
    ensures var ns := Neighbors(lines);
            var text := MissingLines(sw, Missing(ns, out))
                        + (if Count(out, Established) != |ns| then EstablishedLine(sw) else "");
            NeighborJudge(sw, lines)(Some(out)) == if text == "" then Pass else Fail(text)
    ensures NeighborJudge(sw, lines)(Some(out)).Pass?
            <==> Count(out, Established) == |Neighbors(lines)|
                 && forall k :: 0 <= k < |Neighbors(lines)| ==>
                      Contains(out, Neighbors(lines)[k].0) && Contains(out, Neighbors(lines)[k].1)
  {
    ScanSpec(sw, lines, out);
    MissingNone(Neighbors(lines), out);
    var ns := Neighbors(lines);
    var m := Missing(ns, out);
    if m != [] {
      assert MissingLines(sw, m) != "" by {
        assert |MissingLine(sw, m[0].0)| > 0;
      }
    }
    assert |EstablishedLine(sw)| > 0;
  }

  /** With a `None` or empty output the check fails with one line that does not end the line. */
  lemma NeighborJudgeNone(sw: string, lines: seq<string>)
    ensures NeighborJudge(sw, lines)(None) == Fail(NoneLine(sw))
    ensures NeighborJudge(sw, lines)(Some("")) == Fail(NoneLine(sw))
    ensures NoneLine(sw)[|NoneLine(sw)| - 1] != '\n'
  {
    assert |NoneLine(sw)| > 0;
  }

  /** A leaf pings the first other leaf; the ping passes exactly when '3 received' is in its output. */
  lemma PingTarget(sw: string, p: Params, out: Output)
    requires IsLeaf(sw, p) && OtherLeaves(sw, p) != []
    ensures sw == p.leafList[0] ==> NeighborIp(sw, p) == "192.168." + LastTwo(p.leafList[1]) + ".1"
    ensures sw != p.leafList[0] ==> NeighborIp(sw, p) == "192.168." + LastTwo(p.leafList[0]) + ".1"
    ensures PingJudge(sw, NeighborIp(sw, p))(out).Pass? <==> Contains(out.GetOr(""), "3 received")
  {
    assert "3" + " received" == "3 received";
    if sw != p.leafList[0] {
      assert IndexOf(p.leafList, sw) > 0;
    }
  }

  /** Only a leaf toggles its interfaces, each listed one in order, down and then up. */
  lemma ToggleCmds(sw: string, p: Params, state: string)
    ensures Recorded(Toggle(sw, p, state))
            == if IsLeaf(sw, p) then seq(|Eths(p)|, i requires 0 <= i < |Eths(p)| => IfCmd(Eths(p)[i], state)) else []
  {
    RecordedAll(Toggle(sw, p, state));
  }

  /**
   * The narrative is carried in `result.detail`: it is first assigned after
   * the first neighbour check, and however often it is re-assigned it stays
   * at that position of the log, ahead of everything recorded after it.
   */
  lemma DetailPosition(e: Env, sw: string, p: Params)
    requires Valid(sw, p)
    ensures var pre := Setup(sw, p) + [CheckNeighbors(sw, p)[0]];
            var n := |Keys(Steps(e, Acc(Fresh, ""), pre).m.dict)|;
            var ks := Keys(WithStatus(Steps(e, Acc(Fresh, ""), Script(sw, p)).m).dict);
            n < |ks| && ks[n] == "result.detail"
  {
    var c := CheckNeighbors(sw, p);
    var pre := Setup(sw, p) + [c[0]];
    var post := Ping(sw, p) + Later(sw, p);
    Regroup(Setup(sw, p), c[0], c[1], Ping(sw, p), Later(sw, p));
    FirstWriteStays(e, Acc(Fresh, ""), pre, "result.detail", post);
    var m := Steps(e, Acc(Fresh, ""), Script(sw, p)).m;
    PutKeys(m.dict, "result.status", Some(StatusText(m.status)));
  }

  lemma Regroup<T>(a: seq<T>, x: T, y: T, q: seq<T>, b: seq<T>)
    ensures a + ([x, y] + q) + b == a + [x] + [y] + (q + b)
  {
    assert [x, y] == [x] + [y];
  }
}
