/**
 * `core/verify_links.py`: check that the link of every listed front-panel
 * port is up and, on a leaf whose links are all up, ping the sixteen
 * odd-numbered ports' addresses of the other invader.
 */
module VerifyLinks {
  import opened Wrappers
  import opened PyStr
  import opened PyList
  import opened Recorder

  datatype Params = Params(
    switchName: string,
    leaves: seq<string>,
    ethList: string,    // comma-separated port numbers
    channel: string)    // `platina_redis_channel`

  const UpMsg: string := "Links b/w invaders are UP\n"
  const Loss: string := "100% packet loss"

  /** The redis query of a port's link state. */
  function LinkCmd(channel: string): string -> string {
    (eth: string) => "goes hget " + channel + " vnet.eth-" + eth + "-1.link"
  }

  function LinkLine(sw: string, eth: string): string {
    "On switch " + sw + " " + "port link is not up for " + "eth-" + eth + "-1 interface\n"
  }

  /** A link state without 'true' adds a line naming the port. */
  function LinkReport(sw: string): (string, string) -> string {
    (eth: string, out: string) => if Contains(out, "true") then "" else LinkLine(sw, eth)
  }

  function PingCmd(ip: string): string {
    "ping -c 3 " + ip
  }

  function PingLine(sw: string, ip: string, out: string): string {
    "On switch " + sw + " " + "unable to ping interface ip " + ip + "\n" + "Ping Out:\n" + out + "\n"
  }

  /** A ping that lost every packet adds a line naming the address and the ping's output. */
  function PingReport(sw: string): (string, string) -> string {
    (ip: string, out: string) => if Contains(out, Loss) then PingLine(sw, ip, out) else ""
  }

  /** `'10.0.{}.{}'.format(eth, octet)` for `eth in range(lo, lo + 15, 2)`. */
  function Targets(lo: nat, octet: string): (r: seq<string>)
    ensures |r| == 8
  {
    seq(8, k requires 0 <= k < 8 => "10.0." + NatToStr(lo + 2 * k) + "." + octet)
  }

  /** The last octets pinged on ports 1..15 and 17..31: the first leaf pings .31 then .32, the others the reverse. */
  function Octets(p: Params): (string, string)
    requires p.switchName in p.leaves
  {
    if IndexOf(p.leaves, p.switchName) == 0 then ("31", "32") else ("32", "31")
  }

  /** The ports to check. */
  function Eths(p: Params): seq<string> {
    Split(p.ethList, ",")
  }

  function LinkCmds(p: Params): seq<string> {
    ItemCmds(Eths(p), LinkCmd(p.channel))
  }

  /** The link narrative, or `None` where Python raises. */
  function Links(e: Env, h: seq<string>, p: Params): Option<string> {
    Probed(e, h, Eths(p), LinkCmd(p.channel), LinkReport(p.switchName))
  }

  /** The pings run: only on a leaf, and only when every link is up. */
  predicate Pings(e: Env, h: seq<string>, p: Params) {
    p.switchName in p.leaves && Links(e, h, p) == Some("")
  }

  /** The ping narrative of both loops, or `None` where Python raises. */
  function PingText(e: Env, h: seq<string>, p: Params): Option<string>
    requires p.switchName in p.leaves
  {
    var (o1, o2) := Octets(p);
    var h1 := h + LinkCmds(p);
    match Probed(e, h1, Targets(1, o1), PingCmd, PingReport(p.switchName))
    case None => None
    case Some(m2) =>
      match Probed(e, h1 + ItemCmds(Targets(1, o1), PingCmd), Targets(17, o2), PingCmd, PingReport(p.switchName))
      case None => None
      case Some(m3) => Some(m2 + m3)
  }

  /** The message `main` returns, or `None` where Python raises. */
  function Outcome(e: Env, h: seq<string>, p: Params): Option<string> {
    match Links(e, h, p)
    case None => None
    case Some(m1) =>
      if !(p.switchName in p.leaves && m1 == "") then Some(if m1 == "" then UpMsg else m1)
      else
        match PingText(e, h, p)
        case None => None
        case Some(m) => Some(if m == "" then UpMsg else m)
  }

  /** Every command a completed run starts. */
  function Commands(e: Env, h: seq<string>, p: Params): seq<string> {
    LinkCmds(p)
    + if Pings(e, h, p) then
        var (o1, o2) := Octets(p);
        ItemCmds(Targets(1, o1), PingCmd) + ItemCmds(Targets(17, o2), PingCmd)
      else []
  }

  /** `main` */
  method RunModule(s: Session, p: Params) returns (msg: Option<string>)
    modifies s
    ensures msg == Outcome(s.E(), old(s.history), p)
    ensures msg.Some? ==> s.history == old(s.history) + Commands(s.E(), old(s.history), p)
    ensures s.dict == old(s.dict) && s.status == old(s.status)
  {
    ghost var h0 := s.history;
    var isLeaf := p.switchName in p.leaves;
    var links := s.Probe(Split(p.ethList, ","), LinkCmd(p.channel), LinkReport(p.switchName));
    if links.None? {
      return None;
    }
    if !(isLeaf && links.value == "") {
      return Some(if links.value == "" then UpMsg else links.value);
    }
    var o1, o2 := "31", "32";
    if IndexOf(p.leaves, p.switchName) != 0 {
      o1, o2 := "32", "31";
    }
    ghost var h1 := s.history;
    var m2 := s.Probe(Targets(1, o1), PingCmd, PingReport(p.switchName));
    if m2.None? {
      return None;
    }
    var m3 := s.Probe(Targets(17, o2), PingCmd, PingReport(p.switchName));
    if m3.None? {
      return None;
    }
    var text := m2.value + m3.value;
    msg := Some(if text == "" then UpMsg else text);
    AppendAssoc(h0, LinkCmds(p), ItemCmds(Targets(1, o1), PingCmd), ItemCmds(Targets(17, o2), PingCmd));
  }

  lemma AppendAssoc(a: seq<string>, b: seq<string>, c: seq<string>, d: seq<string>)
    ensures a + b + c + d == a + (b + (c + d))
  {
  }

  // ---------------------------------------------------------------------
  // Properties

  /**
   * The links pass exactly when every link state mentions 'true', and a
   * narrative of failed links is a run of lines 'On switch ...'.
   */
  lemma LinksPass(e: Env, h: seq<string>, p: Params)
    requires Links(e, h, p).Some?
    ensures var outs := RawOuts(e, h, LinkCmds(p));
            Links(e, h, p).value == "" <==> forall i :: 0 <= i < |outs| ==> Contains(outs[i].value, "true")
    ensures Links(e, h, p).value == "" || Links(e, h, p).value[0] == 'O'
  {
    var eths := Eths(p);
    var outs := RawOuts(e, h, LinkCmds(p));
    var parts := ItemReports(eths, outs, LinkReport(p.switchName));
    ProbedEmpty(e, h, eths, LinkCmd(p.channel), LinkReport(p.switchName));
    forall i | 0 <= i < |outs|
      ensures LinkReport(p.switchName)(eths[i], outs[i].value) == "" <==> Contains(outs[i].value, "true")
      ensures parts[i] == "" || parts[i][0] == 'O'
    {
      assert outs[i].Some? && Show(outs[i]) == outs[i].value;
      LinkLineHead(p.switchName, eths[i]);
    }
    ConcatHead(parts);
  }

  /** The pings of one loop pass exactly when none lost every packet; failed pings give lines 'On switch ...'. */
  lemma PingsPass(e: Env, h: seq<string>, sw: string, targets: seq<string>)
    requires Probed(e, h, targets, PingCmd, PingReport(sw)).Some?
    ensures var outs := RawOuts(e, h, ItemCmds(targets, PingCmd));
            Probed(e, h, targets, PingCmd, PingReport(sw)).value == ""
            <==> forall i :: 0 <= i < |targets| ==> !Contains(outs[i].value, Loss)
    ensures var m := Probed(e, h, targets, PingCmd, PingReport(sw)).value;
            m == "" || m[0] == 'O'
  {
    var outs := RawOuts(e, h, ItemCmds(targets, PingCmd));
    var parts := ItemReports(targets, outs, PingReport(sw));
    ProbedEmpty(e, h, targets, PingCmd, PingReport(sw));
    forall i | 0 <= i < |targets|
      ensures PingReport(sw)(targets[i], outs[i].value) == "" <==> !Contains(outs[i].value, Loss)
      ensures parts[i] == "" || parts[i][0] == 'O'
    {
      assert outs[i].Some? && Show(outs[i]) == outs[i].value;
      PingLineHead(sw, targets[i], outs[i].value);
    }
    ConcatHead(parts);
  }

  lemma LinkLineHead(sw: string, eth: string)
    ensures LinkLine(sw, eth) != "" && LinkLine(sw, eth)[0] == 'O'
  {
    assert LinkLine(sw, eth)[0] == 'O';
  }

  lemma PingLineHead(sw: string, ip: string, out: string)
    ensures PingLine(sw, ip, out) != "" && PingLine(sw, ip, out)[0] == 'O'
  {
    assert PingLine(sw, ip, out)[0] == 'O';
  }

  /** A concatenation of parts that are empty or start with 'O' is empty or starts with 'O'. */
  lemma {:induction false} ConcatHead(parts: seq<string>)
    requires forall i :: 0 <= i < |parts| ==> parts[i] == "" || parts[i][0] == 'O'
    ensures Concat(parts) == "" || Concat(parts)[0] == 'O'
    decreases |parts|
  {
    if |parts| > 0 && parts[0] == "" {
      ConcatHead(parts[1..]);
    }
  }

  /**
   * A spine, or a leaf with a link down, pings nothing, and reports 'UP'
   * exactly when every link state mentions 'true'; otherwise it reports
   * the failed links.
   */
  lemma NoPingSpec(e: Env, h: seq<string>, p: Params)
    requires Links(e, h, p).Some? && !Pings(e, h, p)
    ensures Commands(e, h, p) == LinkCmds(p)
    ensures var outs := RawOuts(e, h, LinkCmds(p));
            Outcome(e, h, p) == Some(UpMsg) <==> forall i :: 0 <= i < |outs| ==> Contains(outs[i].value, "true")
  {
    LinksPass(e, h, p);
    assert UpMsg[0] == 'L';
  }

  /**
   * On a leaf whose links are all up, the run reports 'UP' exactly when no
   * ping of either loop lost every packet; otherwise it reports the failed pings.
   */
  lemma PingSpec(e: Env, h: seq<string>, p: Params)
    requires Pings(e, h, p) && PingText(e, h, p).Some?
    ensures var (o1, o2) := Octets(p);
            var h1 := h + LinkCmds(p);
            var outs1 := RawOuts(e, h1, ItemCmds(Targets(1, o1), PingCmd));
            var outs2 := RawOuts(e, h1 + ItemCmds(Targets(1, o1), PingCmd), ItemCmds(Targets(17, o2), PingCmd));
            Outcome(e, h, p) == Some(UpMsg)
            <==> (forall i :: 0 <= i < 8 ==> !Contains(outs1[i].value, Loss))
                 && (forall i :: 0 <= i < 8 ==> !Contains(outs2[i].value, Loss))
  {
    var (o1, o2) := Octets(p);
    var h1 := h + LinkCmds(p);
    var h2 := h1 + ItemCmds(Targets(1, o1), PingCmd);
    PingsPass(e, h1, p.switchName, Targets(1, o1));
    PingsPass(e, h2, p.switchName, Targets(17, o2));
    assert UpMsg[0] == 'L';
  }

  /**
   * The pings cover the odd ports 1..31 in ascending order, at last octet
   * .31 on ports 1..15 and .32 on ports 17..31 for the first leaf, and the
   * reverse for any other leaf.
   */
  lemma TargetsSpec(p: Params, j: nat)
    requires p.switchName in p.leaves && j < 16
    ensures var (o1, o2) := Octets(p);
            var first := IndexOf(p.leaves, p.switchName) == 0;
            (Targets(1, o1) + Targets(17, o2))[j]
            == "10.0." + NatToStr(2 * j + 1) + "." + (if (j < 8) == first then "31" else "32")
  {
  }
}
