/**
 * `test_port_links.py`: check media, speed and fec of every subport of the
 * listed front-panel ports, give the subports addresses, bring them up and
 * check that their links come up.
 */
module PortLinks {
  import opened Wrappers
  import opened PyStr
  import opened OrderedDict
  import opened Recorder

  datatype Params = Params(
    speed: string, media: string, fec: string, twoLanes: bool,
    leafServer: string, channel: string, ethList: string)

  /** `eth_list.split(',')` */
  function Eths(p: Params): seq<string> {
    Split(p.ethList, ",")
  }

  /** Speeds whose ports are checked on subport 1 (and 3 in two-lane mode). */
  predicate WideSpeed(speed: string) {
    speed == "100g" || speed == "auto" || speed == "40g" || speed == "50g"
  }

  /** Speeds whose ports are broken out into four subports. */
  predicate QuadSpeed(speed: string) {
    speed == "10g" || speed == "auto10g" || speed == "25g"
  }

  function Subports(p: Params): seq<nat> {
    if WideSpeed(p.speed) then (if p.twoLanes then [1, 3] else [1])
    else if QuadSpeed(p.speed) then [1, 2, 3, 4]
    else []
  }

  /** The speed text a port must report: auto-negotiating speeds report 'autoneg'. */
  function CheckSpeed(speed: string): string {
    if speed == "auto" || speed == "auto10g" then "autoneg" else speed
  }

  function Port(eth: string, port: nat): string {
    "eth-" + eth + "-" + NatToStr(port)
  }

  function HGet(p: Params, eth: string, port: nat, field: string): string {
    "goes hget " + p.channel + " vnet." + Port(eth, port) + "." + field
  }

  function LastOctet(sw: string, p: Params): string {
    if sw == p.leafServer then "1" else "2"
  }

  function AddrCmd(eth: string, port: nat, third: nat, last: string): string {
    "ifconfig " + Port(eth, port) + " 192.168." + NatToStr(third) + "." + last + " " + "netmask 255.255.255.0"
  }

  function UpCmd(eth: string, port: nat): string {
    "ifconfig " + Port(eth, port) + " up"
  }

  function MediaLine(sw: string, eth: string, port: nat): string {
    "On switch " + sw + " " + ("interface media is not set to copper " + "for the interface " + Port(eth, port) + "\n")
  }

  function SpeedLine(sw: string, speed: string, eth: string, port: nat): string {
    "On switch " + sw + " "
    + ("speed of the interface " + "is not set to " + CheckSpeed(speed) + " for " + "the interface " + Port(eth, port) + "\n")
  }

  function FecLine(sw: string, fec: string, eth: string, port: nat): string {
    "On switch " + sw + " " + ("fec is not set to " + fec + " for " + "the interface " + Port(eth, port) + "\n")
  }

  function LinkLine(sw: string, eth: string, port: nat): string {
    "On switch " + sw + " " + ("port link is not up " + "for the interface " + Port(eth, port) + "\n")
  }

  /** `media not in out` fails. */
  function MediaTest(sw: string, p: Params, eth: string, port: nat): Output -> Verdict {
    (o: Output) => if Contains(o.GetOr(""), p.media) then Pass else Fail(MediaLine(sw, eth, port))
  }

  /** `out not in check_speed` fails: the output must be a piece of the expected speed. */
  function SpeedTest(sw: string, p: Params, eth: string, port: nat): Output -> Verdict {
    (o: Output) => if Contains(CheckSpeed(p.speed), o.GetOr("")) then Pass else Fail(SpeedLine(sw, p.speed, eth, port))
  }

  /** `fec not in out` fails. */
  function FecTest(sw: string, p: Params, eth: string, port: nat): Output -> Verdict {
    (o: Output) => if Contains(o.GetOr(""), p.fec) then Pass else Fail(FecLine(sw, p.fec, eth, port))
  }

  /** `'true' not in out` fails. */
  function LinkTest(sw: string, eth: string, port: nat): Output -> Verdict {
    (o: Output) => if Contains(o.GetOr(""), "true") then Pass else Fail(LinkLine(sw, eth, port))
  }

  /** The four loops over every (eth, subport) pair. */
  datatype Pass = Checks | Addresses | Ups | Links

  /** One loop body; `third` is `third_octet` after its increment. */
  function Cell(sw: string, p: Params, pass: Pass, eth: string, port: nat, third: nat): seq<Op> {
    match pass
    case Checks =>
      [Rec(HGet(p, eth, port, "media"), MediaTest(sw, p, eth, port)),
       Rec(HGet(p, eth, port, "speed"), SpeedTest(sw, p, eth, port)),
       Rec(HGet(p, eth, port, "fec"), FecTest(sw, p, eth, port))]
    case Addresses => [Rec(AddrCmd(eth, port, third, LastOctet(sw, p)), Ignore)]
    case Ups => [Rec(UpCmd(eth, port), Ignore)]
    case Links => [Rec(HGet(p, eth, port, "link"), LinkTest(sw, eth, port))]
  }

  function Size(pass: Pass): nat {
    if pass == Checks then 3 else 1
  }

  /** The inner loop over the subports of one eth; `third` counts the pairs before it. */
  function Row(sw: string, p: Params, pass: Pass, eth: string, ports: seq<nat>, third: nat): seq<Op>
    decreases |ports|
  {
    if ports == [] then []
    else Cell(sw, p, pass, eth, ports[0], third + 1) + Row(sw, p, pass, eth, ports[1..], third + 1)
  }

  /** The outer loop over the eths. */
  function Grid(sw: string, p: Params, pass: Pass, eths: seq<string>, ports: seq<nat>, third: nat): seq<Op>
    decreases |eths|
  {
    if eths == [] then []
    else Row(sw, p, pass, eths[0], ports, third) + Grid(sw, p, pass, eths[1..], ports, third + |ports|)
  }

  /** The four passes of one speed branch; the address pass only when `addresses` holds. */
  function Passes(sw: string, p: Params, eths: seq<string>, ports: seq<nat>, addresses: bool): seq<Op> {
    Grid(sw, p, Checks, eths, ports, 0)
    + (if addresses then Grid(sw, p, Addresses, eths, ports, 0) else [])
    + Grid(sw, p, Ups, eths, ports, 0)
    + Grid(sw, p, Links, eths, ports, 0)
  }

  /** Everything `verify_port_links` runs and records before its summary, in order. */
  function Body(sw: string, p: Params): seq<Op> {
    if WideSpeed(p.speed) || QuadSpeed(p.speed) then
      Passes(sw, p, Eths(p), Subports(p), QuadSpeed(p.speed) || p.twoLanes)
    else []
  }

  function Script(sw: string, p: Params): seq<Op> {
    Body(sw, p) + [SetLog("result.detail"), Rec("goes status", Ignore)]
  }

  /** The checked commands of a pair give output (the module fails on `None`). */
  ghost predicate CellAnswered(e: Env, p: Params, eth: string, port: nat) {
    Answers(e, HGet(p, eth, port, "media")) && Answers(e, HGet(p, eth, port, "speed"))
    && Answers(e, HGet(p, eth, port, "fec")) && Answers(e, HGet(p, eth, port, "link"))
  }

  ghost predicate Answered(e: Env, p: Params) {
    forall i, j :: 0 <= i < |Eths(p)| && 0 <= j < |Subports(p)| ==> CellAnswered(e, p, Eths(p)[i], Subports(p)[j])
  }

  // ---------------------------------------------------------------------
  // Layout of the loops

  /** The (eth, subport) pairs in the order the nested loops visit them. */
  function Pairs(eths: seq<string>, ports: seq<nat>): seq<(string, nat)>
    decreases |eths|
  {
    if eths == [] then [] else RowPairs(eths[0], ports) + Pairs(eths[1..], ports)
  }

  function RowPairs(eth: string, ports: seq<nat>): (r: seq<(string, nat)>)
    ensures |r| == |ports|
  {
    seq(|ports|, j requires 0 <= j < |ports| => (eth, ports[j]))
  }

  /** A single loop over the pairs; the n-th body sees the counter at `third + n + 1`. */
  function Flat(sw: string, p: Params, pass: Pass, xs: seq<(string, nat)>, third: nat): seq<Op>
    decreases |xs|
  {
    if xs == [] then []
    else Cell(sw, p, pass, xs[0].0, xs[0].1, third + 1) + Flat(sw, p, pass, xs[1..], third + 1)
  }

  lemma {:induction false} FlatAppend(sw: string, p: Params, pass: Pass, xs: seq<(string, nat)>, ys: seq<(string, nat)>, third: nat)
    ensures Flat(sw, p, pass, xs + ys, third) == Flat(sw, p, pass, xs, third) + Flat(sw, p, pass, ys, third + |xs|)
    decreases |xs|
  {
    if xs == [] {
      assert xs + ys == ys;
    } else {
      SplitHead(xs, ys);
      FlatAppend(sw, p, pass, xs[1..], ys, third + 1);
    }
  }

  lemma {:induction false} RowFlat(sw: string, p: Params, pass: Pass, eth: string, ports: seq<nat>, third: nat)
    ensures Row(sw, p, pass, eth, ports, third) == Flat(sw, p, pass, RowPairs(eth, ports), third)
    decreases |ports|
  {
    if ports != [] {
      assert RowPairs(eth, ports)[1..] == RowPairs(eth, ports[1..]);
      RowFlat(sw, p, pass, eth, ports[1..], third + 1);
    }
  }

  /** The nested loops over eths and subports are one loop over their pairs, with one counter. */
  lemma {:induction false} GridFlat(sw: string, p: Params, pass: Pass, eths: seq<string>, ports: seq<nat>, third: nat)
    ensures Grid(sw, p, pass, eths, ports, third) == Flat(sw, p, pass, Pairs(eths, ports), third)
    decreases |eths|
  {
    if eths != [] {
      RowFlat(sw, p, pass, eths[0], ports, third);
      GridFlat(sw, p, pass, eths[1..], ports, third + |ports|);
      FlatAppend(sw, p, pass, RowPairs(eths[0], ports), Pairs(eths[1..], ports), third);
    }
  }

  /**
   * The n-th address command of the loop configures the n-th (eth, subport)
   * pair with 192.168.<third + n + 1>.<last octet>.
   */
  lemma {:induction false} AddressesAt(sw: string, p: Params, xs: seq<(string, nat)>, third: nat, n: nat)
    requires n < |xs|
    ensures |Flat(sw, p, Addresses, xs, third)| == |xs|
    ensures Flat(sw, p, Addresses, xs, third)[n]
            == Rec(AddrCmd(xs[n].0, xs[n].1, third + n + 1, LastOctet(sw, p)), Ignore)
    decreases n
  {
    FlatLength(sw, p, xs, third);
    if n > 0 {
      AddressesAt(sw, p, xs[1..], third + 1, n - 1);
    }
  }

  lemma {:induction false} FlatLength(sw: string, p: Params, xs: seq<(string, nat)>, third: nat)
    ensures |Flat(sw, p, Addresses, xs, third)| == |xs|
    decreases |xs|
  {
    if xs != [] {
      FlatLength(sw, p, xs[1..], third + 1);
    }
  }

  lemma SplitHead<T>(xs: seq<T>, ys: seq<T>)
    requires xs != []
    ensures (xs + ys)[0] == xs[0] && (xs + ys)[1..] == xs[1..] + ys
  {
  }

  // ---------------------------------------------------------------------
  // What the checks conclude

  /** A narrative line that names the switch at its start and the subport, and ends the line. */
  predicate Names(line: string, sw: string, eth: string, port: nat) {
    StartsWith(line, "On switch " + sw + " ") && Contains(line, Port(eth, port))
    && |line| > 0 && line[|line| - 1] == '\n'
  }

  lemma Shape(head: string, mid: string, pt: string)
    ensures StartsWith(head + (mid + pt + "\n"), head)
    ensures Contains(head + (mid + pt + "\n"), pt)
    ensures (head + (mid + pt + "\n"))[|head + (mid + pt + "\n")| - 1] == '\n'
  {
    var line := head + (mid + pt + "\n");
    assert line[..|head|] == head;
    assert line[|head| + |mid|..|head| + |mid| + |pt|] == pt;
    ContainsAt(line, pt, |head| + |mid|);
  }

  lemma MediaLineNames(sw: string, eth: string, port: nat)
    ensures Names(MediaLine(sw, eth, port), sw, eth, port)
    ensures Contains(MediaLine(sw, eth, port), "copper")
  {
    var head, mid := "On switch " + sw + " ", "interface media is not set to copper " + "for the interface ";
    assert MediaLine(sw, eth, port) == head + (mid + Port(eth, port) + "\n");
    Shape(head, mid, Port(eth, port));
    var line := MediaLine(sw, eth, port);
    assert line[|head| + 30..|head| + 36] == "copper";
    ContainsAt(line, "copper", |head| + 30);
  }

  lemma SpeedLineNames(sw: string, speed: string, eth: string, port: nat)
    ensures Names(SpeedLine(sw, speed, eth, port), sw, eth, port)
  {
    var head := "On switch " + sw + " ";
    var mid := "speed of the interface " + "is not set to " + CheckSpeed(speed) + " for " + "the interface ";
    assert SpeedLine(sw, speed, eth, port) == head + (mid + Port(eth, port) + "\n");
    Shape(head, mid, Port(eth, port));
  }

  lemma FecLineNames(sw: string, fec: string, eth: string, port: nat)
    ensures Names(FecLine(sw, fec, eth, port), sw, eth, port)
  {
    var head, mid := "On switch " + sw + " ", "fec is not set to " + fec + " for " + "the interface ";
    assert FecLine(sw, fec, eth, port) == head + (mid + Port(eth, port) + "\n");
    Shape(head, mid, Port(eth, port));
  }

  lemma LinkLineNames(sw: string, eth: string, port: nat)
    ensures Names(LinkLine(sw, eth, port), sw, eth, port)
  {
    var head, mid := "On switch " + sw + " ", "port link is not up " + "for the interface ";
    assert LinkLine(sw, eth, port) == head + (mid + Port(eth, port) + "\n");
    Shape(head, mid, Port(eth, port));
  }

  /**
   * Every check either passes or fails with one newline-terminated line that
   * names the switch and the subport; it never only notes something.  The
   * media line says 'copper' whatever media was asked for.
   */
  lemma CellVerdicts(sw: string, p: Params, pass: Pass, eth: string, port: nat, third: nat, n: nat, o: Output)
    requires n < |Cell(sw, p, pass, eth, port, third)|
    ensures Cell(sw, p, pass, eth, port, third)[n].Rec?
    ensures var v := Cell(sw, p, pass, eth, port, third)[n].judge(o);
            !v.Note? && (v.Fail? ==> Names(v.line, sw, eth, port))
    ensures pass == Checks && n == 0 && Cell(sw, p, pass, eth, port, third)[n].judge(o).Fail? ==>
            Contains(Cell(sw, p, pass, eth, port, third)[n].judge(o).line, "copper")
  {
    MediaLineNames(sw, eth, port);
    SpeedLineNames(sw, p.speed, eth, port);
    FecLineNames(sw, p.fec, eth, port);
    LinkLineNames(sw, eth, port);
  }

  /** The speed test is inverted: any piece of the expected text passes, including the empty output. */
  lemma SpeedAcceptsPieces(sw: string, p: Params, eth: string, port: nat)
    requires p.speed == "100g"
    ensures SpeedTest(sw, p, eth, port)(Some("")) == Pass
    ensures SpeedTest(sw, p, eth, port)(Some("10")) == Pass
    ensures SpeedTest(sw, p, eth, port)(Some("100g")) == Pass
  {
    assert CheckSpeed(p.speed) == "100g" by { assert p.speed[0] == '1'; }
    ContainsAt("100g", "", 0);
    ContainsAt("100g", "10", 0);
    ContainsAt("100g", "100g", 0);
  }

  /** ... while the full line a port reports for its speed fails. */
  lemma SpeedRejectsReport(sw: string, p: Params, eth: string, port: nat)
    requires p.speed == "100g"
    ensures SpeedTest(sw, p, eth, port)(Some("100g full")).Fail?
  {
    assert CheckSpeed(p.speed) == "100g" by { assert p.speed[0] == '1'; }
    NotContainsShort("100g", "100g full");
  }

  /** Auto-negotiated ports must report a piece of 'autoneg', so 'auto' passes and 'auto10g' fails. */
  lemma AutoSpeed(sw: string, p: Params, eth: string, port: nat)
    requires p.speed == "auto" || p.speed == "auto10g"
    ensures CheckSpeed(p.speed) == "autoneg"
    ensures SpeedTest(sw, p, eth, port)(Some("auto")) == Pass
    ensures SpeedTest(sw, p, eth, port)(Some("auto10g")).Fail?
  {
    ContainsAt("autoneg", "auto", 0);
    ContainsSameLength("autoneg", "auto10g");
    assert "autoneg"[4] != "auto10g"[4];
  }

  // ---------------------------------------------------------------------
  // Which commands are recorded

  lemma CellAvoids(sw: string, p: Params, pass: Pass, eth: string, port: nat, third: nat)
    ensures Avoids(Cell(sw, p, pass, eth, port, third), "goes status")
  {
    var g := "goes status";
    assert g[5] == 's';
    forall n | 0 <= n < |Cell(sw, p, pass, eth, port, third)|
      ensures Cell(sw, p, pass, eth, port, third)[n].cmd != g
    {
      var c := Cell(sw, p, pass, eth, port, third)[n].cmd;
      if pass == Checks || pass == Links {
        assert c[5] == 'h';
      } else {
        assert c[0] == 'i';
      }
    }
  }

  lemma {:induction false} FlatAvoids(sw: string, p: Params, pass: Pass, xs: seq<(string, nat)>, third: nat)
    ensures Avoids(Flat(sw, p, pass, xs, third), "goes status")
    decreases |xs|
  {
    if xs != [] {
      CellAvoids(sw, p, pass, xs[0].0, xs[0].1, third + 1);
      FlatAvoids(sw, p, pass, xs[1..], third + 1);
      AvoidsAppend(Cell(sw, p, pass, xs[0].0, xs[0].1, third + 1), Flat(sw, p, pass, xs[1..], third + 1), "goes status");
    }
  }

  lemma GridAvoids(sw: string, p: Params, pass: Pass, eths: seq<string>, ports: seq<nat>)
    ensures Avoids(Grid(sw, p, pass, eths, ports, 0), "goes status")
  {
    GridFlat(sw, p, pass, eths, ports, 0);
    FlatAvoids(sw, p, pass, Pairs(eths, ports), 0);
  }

  /** Before the closing 'goes status', only per-port commands are recorded. */
  lemma BodyAvoids(sw: string, p: Params)
    ensures Avoids(Body(sw, p), "goes status")
  {
    var eths, ports := Eths(p), Subports(p);
    if WideSpeed(p.speed) || QuadSpeed(p.speed) {
      GridAvoids(sw, p, Checks, eths, ports);
      GridAvoids(sw, p, Addresses, eths, ports);
      GridAvoids(sw, p, Ups, eths, ports);
      GridAvoids(sw, p, Links, eths, ports);
      var a := if QuadSpeed(p.speed) || p.twoLanes then Grid(sw, p, Addresses, eths, ports, 0) else [];
      AvoidsAppend(Grid(sw, p, Checks, eths, ports, 0), a, "goes status");
      AvoidsAppend(Grid(sw, p, Checks, eths, ports, 0) + a, Grid(sw, p, Ups, eths, ports, 0), "goes status");
      AvoidsAppend(Grid(sw, p, Checks, eths, ports, 0) + a + Grid(sw, p, Ups, eths, ports, 0),
                   Grid(sw, p, Links, eths, ports, 0), "goes status");
    }
  }

  /**
   * The log ends with result.detail, the 'goes status' record and
   * result.status, in that order, when `date` prints no spaces.
   */
  lemma EntryOrder(e: Env, p: Params)
    requires SpaceFreeClock(e)
    ensures var ks := Keys(WithStatus(Steps(e, Acc(Fresh, ""), Script(e.switchName, p)).m).dict);
            var stamp := StampAfter(e, Trace(e.policy, Body(e.switchName, p)), "goes status");
            |ks| >= 3 && ks[|ks| - 3..] == ["result.detail", Key(e.switchName, stamp, "goes status"), "result.status"]
  {
    var body := Body(e.switchName, p);
    BodyAvoids(e.switchName, p);
    AvoidsRecorded(body, "goes status");
    assert [] + Trace(e.policy, body) == Trace(e.policy, body);
    ClosingOrder(e, Acc(Fresh, ""), body, "result.detail", "goes status", Ignore);
  }

  /** For any other speed only 'goes status' is recorded ... */
  lemma OtherSpeedRecorded(sw: string, p: Params)
    requires !WideSpeed(p.speed) && !QuadSpeed(p.speed)
    ensures Recorded(Script(sw, p)) == ["goes status"]
  {
    var t := [Rec("goes status", Ignore)];
    var ops := [SetLog("result.detail")] + t;
    assert Script(sw, p) == ops;
    assert t[1..] == [] && ops[1..] == t;
    assert Recorded(t) == ["goes status"] + Recorded([]);
    assert Recorded(ops) == [] + Recorded(t);
  }

  /** ... and result.detail holds the empty summary. */
  lemma OtherSpeedDetail(e: Env, p: Params, m: Sim)
    requires !WideSpeed(p.speed) && !QuadSpeed(p.speed)
    ensures Get(Steps(e, Acc(m, ""), Script(e.switchName, p)).m.dict, "result.detail") == Some(Some(""))
  {
    var ops := [SetLog("result.detail"), Rec("goes status", Ignore)];
    assert Script(e.switchName, p) == ops;
    var a := Acc(m, "");
    var b := Step(e, a, SetLog("result.detail"));
    StepsCons(e, a, SetLog("result.detail"), [Rec("goes status", Ignore)]);
    StepsOne(e, b, Rec("goes status", Ignore));
    PutGet(m.dict, "result.detail", Some(""), "result.detail");
    var k := Key(e.switchName, ExecTime(e, b.m, "goes status"), "goes status");
    KeyHasSpace(e.switchName, ExecTime(e, b.m, "goes status"), "goes status", "result.detail");
    PutGet(b.m.dict, k, Stored(e.policy.truncate, ExecOut(e, b.m, "goes status")), "result.detail");
  }

  // ---------------------------------------------------------------------
  // The module

  /** One body of the four loops for pair (eth, port), with `third_octet` at `third`. */
  method RunCell(s: Session, p: Params, pass: Pass, eth: string, port: nat, third: nat, summary0: string)
    returns (summary: string)
    modifies s
    requires pass == Checks || pass == Links ==> CellAnswered(s.E(), p, eth, port)
    ensures Acc(s.St(), summary) == Steps(s.E(), Acc(old(s.St()), summary0), Cell(s.switchName, p, pass, eth, port, third))
  {
    var sw := s.switchName;
    ghost var a0 := Acc(s.St(), summary0);
    summary := summary0;
    match pass {
      case Checks =>
        var media := Rec(HGet(p, eth, port, "media"), MediaTest(sw, p, eth, port));
        var speed := Rec(HGet(p, eth, port, "speed"), SpeedTest(sw, p, eth, port));
        var fec := Rec(HGet(p, eth, port, "fec"), FecTest(sw, p, eth, port));
        var out;
        summary, out := s.Check(media.cmd, media.judge, summary);
        summary, out := s.Check(speed.cmd, speed.judge, summary);
        summary, out := s.Check(fec.cmd, fec.judge, summary);
        StepsThree(s.E(), a0, media, speed, fec);
      case Addresses =>
        var cmd := AddrCmd(eth, port, third, LastOctet(sw, p));
        var _ := s.Execute(cmd);
        StepsOne(s.E(), a0, Rec(cmd, Ignore));
      case Ups =>
        var _ := s.Execute(UpCmd(eth, port));
        StepsOne(s.E(), a0, Rec(UpCmd(eth, port), Ignore));
      case Links =>
        var out := s.Execute(HGet(p, eth, port, "link"));
        if !Contains(out.value, "true") {
          s.Fail();
          summary := summary + LinkLine(sw, eth, port);
        }
        StepsOne(s.E(), a0, Rec(HGet(p, eth, port, "link"), LinkTest(sw, eth, port)));
    }
  }

  /** The nested loops over eths and subports for one pass; `third_octet` starts at 0. */
  method RunGrid(s: Session, p: Params, pass: Pass, eths: seq<string>, ports: seq<nat>, summary0: string)
    returns (summary: string)
    modifies s
    requires pass == Checks || pass == Links ==>
               forall i, j :: 0 <= i < |eths| && 0 <= j < |ports| ==> CellAnswered(s.E(), p, eths[i], ports[j])
    ensures Acc(s.St(), summary) == Steps(s.E(), Acc(old(s.St()), summary0), Grid(s.switchName, p, pass, eths, ports, 0))
  {
    ghost var e := s.E();
    var sw := s.switchName;
    ghost var goal := Steps(e, Acc(s.St(), summary0), Grid(sw, p, pass, eths, ports, 0));
    summary := summary0;
    var third: nat := 0;
    assert eths[0..] == eths;
    var i := 0;
    while i < |eths|
      invariant 0 <= i <= |eths|
      invariant Steps(e, Acc(s.St(), summary), Grid(sw, p, pass, eths[i..], ports, third)) == goal
    {
      GridStep(e, Acc(s.St(), summary), p, pass, eths, i, ports, third);
      summary := RunRow(s, p, pass, eths[i], ports, third, summary);
      third := third + |ports|;
      i := i + 1;
    }
  }

  lemma GridStep(e: Env, a: Acc, p: Params, pass: Pass, eths: seq<string>, i: nat, ports: seq<nat>, third: nat)
    requires i < |eths|
    ensures Steps(e, a, Grid(e.switchName, p, pass, eths[i..], ports, third))
            == Steps(e, Steps(e, a, Row(e.switchName, p, pass, eths[i], ports, third)),
                     Grid(e.switchName, p, pass, eths[i + 1..], ports, third + |ports|))
  {
    GridCons(e.switchName, p, pass, eths, i, ports, third);
    StepsAppend(e, a, Row(e.switchName, p, pass, eths[i], ports, third),
                Grid(e.switchName, p, pass, eths[i + 1..], ports, third + |ports|));
  }

  /** The inner loop over the subports of `eth`, with `third_octet` at `third0` before it. */
  method RunRow(s: Session, p: Params, pass: Pass, eth: string, ports: seq<nat>, third0: nat, summary0: string)
    returns (summary: string)
    modifies s
    requires pass == Checks || pass == Links ==> forall j :: 0 <= j < |ports| ==> CellAnswered(s.E(), p, eth, ports[j])
    ensures Acc(s.St(), summary) == Steps(s.E(), Acc(old(s.St()), summary0), Row(s.switchName, p, pass, eth, ports, third0))
  {
    ghost var e := s.E();
    ghost var a0 := Acc(s.St(), summary0);
    summary := summary0;
    var third := third0;
    var j := 0;
    while j < |ports|
      invariant j <= |ports| && third == third0 + j
      invariant Acc(s.St(), summary) == RowDone(e, a0, p, pass, eth, ports, third0, j)
    {
      third := third + 1;
      summary := RunCell(s, p, pass, eth, ports[j], third, summary);
      j := j + 1;
    }
    RowDoneSteps(e, a0, p, pass, eth, ports, third0, j);
    assert ports[..j] == ports;
  }

  /** The state after the first `j` pairs of a row, one pair's body at a time. */
  ghost function RowDone(e: Env, a: Acc, p: Params, pass: Pass, eth: string, ports: seq<nat>, third0: nat, j: nat): Acc
    requires j <= |ports|
    decreases j
  {
    if j == 0 then a
    else Steps(e, RowDone(e, a, p, pass, eth, ports, third0, j - 1), Cell(e.switchName, p, pass, eth, ports[j - 1], third0 + j))
  }

  lemma {:induction false} RowDoneSteps(e: Env, a: Acc, p: Params, pass: Pass, eth: string, ports: seq<nat>, third0: nat, j: nat)
    requires j <= |ports|
    ensures RowDone(e, a, p, pass, eth, ports, third0, j) == Steps(e, a, Row(e.switchName, p, pass, eth, ports[..j], third0))
    decreases j
  {
    if j == 0 {
      assert ports[..0] == [];
    } else {
      RowDoneSteps(e, a, p, pass, eth, ports, third0, j - 1);
      RowSnocStep(e, a, p, pass, eth, ports, j - 1, third0);
    }
  }

  /** The rows done so far grow by one pair's body at a time. */
  lemma RowSnocStep(e: Env, a: Acc, p: Params, pass: Pass, eth: string, ports: seq<nat>, j: nat, third0: nat)
    requires j < |ports|
    ensures Steps(e, a, Row(e.switchName, p, pass, eth, ports[..j + 1], third0))
            == Steps(e, Steps(e, a, Row(e.switchName, p, pass, eth, ports[..j], third0)),
                     Cell(e.switchName, p, pass, eth, ports[j], third0 + j + 1))
  {
    assert ports[..j + 1] == ports[..j] + [ports[j]];
    RowSnoc(e.switchName, p, pass, eth, ports[..j], ports[j], third0);
    StepsAppend(e, a, Row(e.switchName, p, pass, eth, ports[..j], third0),
                Cell(e.switchName, p, pass, eth, ports[j], third0 + j + 1));
  }

  lemma {:induction false} RowSnoc(sw: string, p: Params, pass: Pass, eth: string, xs: seq<nat>, x: nat, third: nat)
    ensures Row(sw, p, pass, eth, xs + [x], third) == Row(sw, p, pass, eth, xs, third) + Cell(sw, p, pass, eth, x, third + |xs| + 1)
    decreases |xs|
  {
    if xs == [] {
      assert [x][1..] == [];
      assert xs + [x] == [x];
    } else {
      assert (xs + [x])[0] == xs[0] && (xs + [x])[1..] == xs[1..] + [x];
      RowSnoc(sw, p, pass, eth, xs[1..], x, third + 1);
      OpsAssoc(Cell(sw, p, pass, eth, xs[0], third + 1), Row(sw, p, pass, eth, xs[1..], third + 1),
               Cell(sw, p, pass, eth, x, third + |xs| + 1));
    }
  }

  lemma OpsAssoc(a: seq<Op>, b: seq<Op>, c: seq<Op>)
    ensures a + (b + c) == (a + b) + c
  {
  }



  /** `verify_port_links` */
  method VerifyPortLinks(s: Session, p: Params)
    modifies s
    requires Plain(s.policy)
    requires Answered(s.E(), p)
    ensures s.St() == Steps(s.E(), Acc(old(s.St()), ""), Script(s.switchName, p)).m
  {
    ghost var a0 := Acc(s.St(), "");
    var summary := "";
    var eths := Split(p.ethList, ",");
    if WideSpeed(p.speed) {
      var subports: seq<nat> := if p.twoLanes then [1, 3] else [1];
      BodyIs(s.switchName, p, eths, subports, p.twoLanes);
      summary := RunPasses(s, p, eths, subports, p.twoLanes, summary);
    } else if QuadSpeed(p.speed) {
      var subports: seq<nat> := [1, 2, 3, 4];
      BodyIs(s.switchName, p, eths, subports, true);
      summary := RunPasses(s, p, eths, subports, true, summary);
    }
    ghost var b := Acc(s.St(), summary);
    summary := s.Run([SetLog("result.detail"), Rec("goes status", Ignore)], summary);
    StepsAppend(s.E(), a0, Body(s.switchName, p), [SetLog("result.detail"), Rec("goes status", Ignore)]);
  }

  /** The branch taken for a speed of either family runs its four passes. */
  lemma BodyIs(sw: string, p: Params, eths: seq<string>, ports: seq<nat>, addresses: bool)
    requires WideSpeed(p.speed) || QuadSpeed(p.speed)
    requires eths == Eths(p) && ports == Subports(p) && addresses == (QuadSpeed(p.speed) || p.twoLanes)
    ensures Body(sw, p) == Passes(sw, p, eths, ports, addresses)
  {
  }

  /** One speed branch: checks, optionally addresses, link ups, link checks. */
  method RunPasses(s: Session, p: Params, eths: seq<string>, ports: seq<nat>, addresses: bool, summary0: string)
    returns (summary: string)
    modifies s
    requires forall i, j :: 0 <= i < |eths| && 0 <= j < |ports| ==> CellAnswered(s.E(), p, eths[i], ports[j])
    ensures Acc(s.St(), summary) == Steps(s.E(), Acc(old(s.St()), summary0), Passes(s.switchName, p, eths, ports, addresses))
  {
    ghost var e := s.E();
    ghost var a0 := Acc(s.St(), summary0);
    summary := RunGrid(s, p, Checks, eths, ports, summary0);
    ghost var a1 := Acc(s.St(), summary);
    if addresses {
      summary := RunGrid(s, p, Addresses, eths, ports, summary);
    }
    ghost var a2 := Acc(s.St(), summary);
    summary := RunGrid(s, p, Ups, eths, ports, summary);
    ghost var a3 := Acc(s.St(), summary);
    summary := RunGrid(s, p, Links, eths, ports, summary);
    PassesSteps(e, p, eths, ports, addresses, a0, a1, a2, a3, Acc(s.St(), summary));
  }

  lemma GridCons(sw: string, p: Params, pass: Pass, eths: seq<string>, i: nat, ports: seq<nat>, third: nat)
    requires i < |eths|
    ensures Grid(sw, p, pass, eths[i..], ports, third)
            == Row(sw, p, pass, eths[i], ports, third) + Grid(sw, p, pass, eths[i + 1..], ports, third + |ports|)
  {
    assert eths[i..][0] == eths[i] && eths[i..][1..] == eths[i + 1..];
  }



  /** The four passes in sequence make up the branch. */
  lemma PassesSteps(e: Env, p: Params, eths: seq<string>, ports: seq<nat>, addresses: bool,
                    a0: Acc, a1: Acc, a2: Acc, a3: Acc, a4: Acc)
    requires a1 == Steps(e, a0, Grid(e.switchName, p, Checks, eths, ports, 0))
    requires addresses ==> a2 == Steps(e, a1, Grid(e.switchName, p, Addresses, eths, ports, 0))
    requires !addresses ==> a2 == a1
    requires a3 == Steps(e, a2, Grid(e.switchName, p, Ups, eths, ports, 0))
    requires a4 == Steps(e, a3, Grid(e.switchName, p, Links, eths, ports, 0))
    ensures a4 == Steps(e, a0, Passes(e.switchName, p, eths, ports, addresses))
  {
    var sw := e.switchName;
    var g1 := Grid(sw, p, Checks, eths, ports, 0);
    var g2 := if addresses then Grid(sw, p, Addresses, eths, ports, 0) else [];
    var g3 := Grid(sw, p, Ups, eths, ports, 0);
    var g4 := Grid(sw, p, Links, eths, ports, 0);
    assert Steps(e, a1, []) == a1;
    StepsAppend(e, a0, g1, g2);
    StepsAppend(e, a0, g1 + g2, g3);
    StepsAppend(e, a0, g1 + g2 + g3, g4);
  }

  /** `main`: verify, store the verdict, write the log. */
  method RunModule(s: Session, p: Params) returns (text: string)
    modifies s
    requires Plain(s.policy)
    requires Answered(s.E(), p)
    ensures s.St() == WithStatus(Steps(s.E(), Acc(old(s.St()), ""), Script(s.switchName, p)).m)
    ensures text == LogText(s.dict)
  {
    VerifyPortLinks(s, p);
    s.StoreStatus();
    text := WriteLog(s.dict);
  }
}
