/**
 * `port_provision/verify_iperf_traffic_master.py`: run a short iperf client
 * against every (eth, subport) pair, then read each pair's counters with an
 * unrecorded `run_cli` call and look for receive CRC errors.
 */
module IperfTraffic {
  import opened Wrappers
  import opened PyStr
  import opened PyList
  import opened OrderedDict
  import opened Recorder
  import opened PortChecks

  datatype Params = Params(ethOctets: string, ethList: string, isSubports: bool, lane2: bool)

  function Eths(p: Params): seq<string> {
    Split(p.ethList, ",")
  }

  function Octets(p: Params): seq<string> {
    Split(p.ethOctets, ",")
  }

  function Ports(p: Params): seq<string> {
    Subports(p.isSubports, p.lane2)
  }

  function PairsOf(p: Params): seq<(string, string)> {
    Pairs(Eths(p), Ports(p))
  }

  /** `eth_ips_last_octet[eth_list.index(eth)]` succeeds for every listed eth. */
  predicate Valid(p: Params) {
    forall i :: 0 <= i < |Eths(p)| ==> IndexOf(Eths(p), Eths(p)[i]) < |Octets(p)|
  }

  /** The last octet of an eth's peer: the octet at the eth's first position in the list. */
  function Octet(p: Params, eth: string): string {
    if eth in Eths(p) && IndexOf(Eths(p), eth) < |Octets(p)| then Octets(p)[IndexOf(Eths(p), eth)] else ""
  }

  function IperfCmd(p: Params, pr: (string, string)): string {
    "iperf -c 10." + pr.0 + "." + pr.1 + "." + Octet(p, pr.0) + " -t 2 -P 1"
  }

  /** An iperf report names at least one of these. */
  predicate Reported(out: string) {
    Contains(out, "Transfer") || Contains(out, "Bandwidth") || Contains(out, "Bytes") || Contains(out, "bits/sec")
  }

  function IperfLine(sw: string, pr: (string, string), cmd: string): string {
    "On switch " + sw + " " + "iperf traffic cannot be verified for " + Port(pr) + " using command " + cmd + "\n"
  }

  /** The traffic check: Python raises on a `None` output, which the callers rule out. */
  function IperfJudge(sw: string, pr: (string, string), cmd: string): Output -> Verdict {
    (o: Output) => if o.Some? && !Reported(o.value) then Fail(IperfLine(sw, pr, cmd)) else Pass
  }

  function Traffic(sw: string, p: Params): (((string, string)) -> seq<Op>) {
    (pr: (string, string)) => [Rec(IperfCmd(p, pr), IperfJudge(sw, pr, IperfCmd(p, pr)))]
  }

  // ---------------------------------------------------------------------
  // The CRC counters

  function CrcCmd(pr: (string, string)): string {
    "goes hget platina-mk1 " + Port(pr)
  }

  function Counter(pr: (string, string)): string {
    "vnet." + Port(pr) + ".port-rx-crc-error-packet"
  }

  /** A counter line that the check reports: it names the counter and has no '0' anywhere. */
  predicate Bad(pr: (string, string), line: string) {
    Contains(line, Counter(pr)) && '0' !in line
  }

  function CrcLine(sw: string, pr: (string, string)): string {
    "On switch " + sw + " " + "crc error count is not 0 for interface " + Port(pr) + " \n"
  }

  /** For each line, whether it passes. */
  function Clean(pr: (string, string), lines: seq<string>): (r: seq<bool>)
    ensures |r| == |lines| && forall k :: 0 <= k < |lines| ==> r[k] == !Bad(pr, lines[k])
  {
    seq(|lines|, k requires 0 <= k < |lines| => !Bad(pr, lines[k]))
  }

  /** One failure line per reported counter line; Python raises on a `None` output, which the callers rule out. */
  function CrcJudge(sw: string, pr: (string, string)): Output -> Verdict {
    (o: Output) =>
      var text := Lines(CrcLine(sw, pr), Clean(pr, SplitLines(o.GetOr(""))));
      if text == "" then Pass else Fail(text)
  }

  function Crc(sw: string): (((string, string)) -> seq<Op>) {
    (pr: (string, string)) => [Raw(CrcCmd(pr), CrcJudge(sw, pr))]
  }

  /** Everything `verify_traffic` does, in order. */
  function Script(sw: string, p: Params): seq<Op> {
    FlatMap(PairsOf(p), Traffic(sw, p)) + FlatMap(PairsOf(p), Crc(sw))
    + [SetLog("result.detail"), Rec("goes status", Ignore)]
  }

  /** The outputs the checks read: `None` makes Python raise. */
  ghost predicate Answered(e: Env, p: Params) {
    forall pr :: pr in PairsOf(p) ==> Answers(e, IperfCmd(p, pr)) && Answers(e, CrcCmd(pr))
  }

  // ---------------------------------------------------------------------
  // The module

  /** `verify_traffic` */
  method VerifyTraffic(s: Session, p: Params)
    modifies s
    requires Plain(s.policy) && Valid(p) && Answered(s.E(), p)
    ensures s.St() == Steps(s.E(), Acc(old(s.St()), ""), Script(s.switchName, p)).m
  {
    var summary := s.Run(Script(s.switchName, p), "");
  }

  /** `main`: the log file is opened for appending; `text` is what it gains. */
  method RunModule(s: Session, p: Params) returns (text: string)
    modifies s
    requires Plain(s.policy) && Valid(p) && Answered(s.E(), p)
    ensures s.St() == WithStatus(Steps(s.E(), Acc(old(s.St()), ""), Script(s.switchName, p)).m)
    ensures text == LogText(s.dict)
  {
    VerifyTraffic(s, p);
    s.StoreStatus();
    text := WriteLog(s.dict);
  }

  // ---------------------------------------------------------------------
  // Properties

  /**
   * The i-th eth's j-th subport sends to 10.<eth>.<subport>.<octet>, the
   * octet taken at the eth's first position in the list, so a repeated
   * eth reuses its first octet.
   */
  lemma TargetAt(sw: string, p: Params, i: nat, j: nat)
    requires Valid(p) && i < |Eths(p)| && j < |Ports(p)|
    ensures var t := FlatMap(PairsOf(p), Traffic(sw, p));
            var n := |Ports(p)| * i + j;
            n < |t| && t[n].Rec? && t[n].cmd == "iperf -c 10." + Eths(p)[i] + "." + Ports(p)[j] + "."
                                   + Octets(p)[IndexOf(Eths(p), Eths(p)[i])] + " -t 2 -P 1"
    ensures forall k :: 0 <= k < |Eths(p)| && Eths(p)[k] == Eths(p)[i] ==> Octet(p, Eths(p)[k]) == Octet(p, Eths(p)[i])
  {
    var pairs := PairsOf(p);
    var f := Traffic(sw, p);
    PairsAt(Eths(p), Ports(p), i, j);
    FlatMapAt(pairs, f, 1, |Ports(p)| * i + j, 0);
  }

  /** The traffic check fails exactly when the report names none of 'Transfer', 'Bandwidth', 'Bytes' and 'bits/sec'. */
  lemma IperfSpec(sw: string, pr: (string, string), cmd: string, out: string)
    ensures IperfJudge(sw, pr, cmd)(Some(out)).Fail?
            <==> !Contains(out, "Transfer") && !Contains(out, "Bandwidth") && !Contains(out, "Bytes") && !Contains(out, "bits/sec")
    ensures !IperfJudge(sw, pr, cmd)(Some(out)).Note?
  {
  }

  /**
   * The counter check adds one line per output line that names the
   * counter and has no '0', and passes exactly when there is none.
   */
  lemma CrcSpec(sw: string, pr: (string, string), out: string)
    ensures var lines := SplitLines(out);
            var ok := Clean(pr, lines);
            && (CrcJudge(sw, pr)(Some(out)).Pass? <==> forall k :: 0 <= k < |lines| ==> !Bad(pr, lines[k]))
            && (CrcJudge(sw, pr)(Some(out)).Fail? ==> CrcJudge(sw, pr)(Some(out)).line == Repeat(CrcLine(sw, pr), Misses(ok)))
  {
    var ok := Clean(pr, SplitLines(out));
    LinesEmpty(CrcLine(sw, pr), ok);
    LinesCount(CrcLine(sw, pr), ok);
  }

  /**
   * The check looks for a '0' character, not a zero count: on an eth whose
   * name has a '0' (eth-10, eth-20, ...) every line naming the counter has
   * one, so no count is ever reported.
   */
  lemma ZeroInName(sw: string, pr: (string, string), out: string)
    requires '0' in pr.0
    ensures CrcJudge(sw, pr)(Some(out)) == Pass
  {
    var lines := SplitLines(out);
    ZeroInCounter(pr);
    forall k | 0 <= k < |lines|
      ensures !Bad(pr, lines[k])
    {
      if Contains(lines[k], Counter(pr)) {
        ContainsTrans(lines[k], Counter(pr), "0");
        ContainsChar(lines[k], '0');
      }
    }
    CrcSpec(sw, pr, out);
  }

  lemma ZeroInCounter(pr: (string, string))
    requires '0' in pr.0
    ensures Contains(Counter(pr), "0")
  {
    var head := "vnet.eth-";
    var tail := "-" + pr.1 + ".port-rx-crc-error-packet";
    assert Counter(pr) == head + pr.0 + tail;
    ContainsChar(pr.0, '0');
    ContainsConcat(head, pr.0, "0");
    ContainsConcat(head + pr.0, tail, "0");
  }

  /** The counter queries are `run_cli` calls only: they leave no entry in the dictionary. */
  lemma CrcUnrecorded(sw: string, p: Params)
    ensures var c := FlatMap(PairsOf(p), Crc(sw));
            |c| == |PairsOf(p)| && Recorded(c) == []
  {
    var f := Crc(sw);
    FlatMapLength(PairsOf(p), f, 1);
    FlatMapForall(PairsOf(p), f, Unrecorded);
    RecordedNone(FlatMap(PairsOf(p), f));
  }

  /** `result.detail` holds the narrative of all checks, even after the closing status query. */
  lemma Detail(e: Env, a: Acc, p: Params)
    ensures var r := Steps(e, a, Script(e.switchName, p));
            Get(r.m.dict, "result.detail") == Some(Some(r.log))
  {
    var sw := e.switchName;
    var body := FlatMap(PairsOf(p), Traffic(sw, p)) + FlatMap(PairsOf(p), Crc(sw));
    var closing := [SetLog("result.detail"), Rec("goes status", Ignore)];
    ClosingDetail(e, a, body, "result.detail", "goes status", Ignore);
    var b := Steps(e, a, body);
    assert Ignore(ExecOut(e, b.m, "goes status")) == Pass;
    var r := Steps(e, a, body + closing);
    assert r.log == b.log;
    assert Script(sw, p) == body + closing;
  }
}
