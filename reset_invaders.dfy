/**
 * `core/reset_invaders.py`: stop goes, reload the platform driver, recreate
 * the 32 front-panel interfaces `eth-<n>-1` with their addresses
 * `10.0.<n>.<last octet>/24`, and start goes again.
 */
module ResetInvaders {
  import opened Wrappers
  import opened PyStr
  import opened PyList
  import opened Recorder

  datatype Params = Params(
    switchName: string,
    spines: seq<string>,
    leaves: seq<string>,
    leafOctets: string,     // comma-separated, one per leaf
    spineOctets: string,    // comma-separated, one per spine
    channel: Output)        // `platina_redis_channel`, `None` when not given

  const Ports: nat := 32

  /**
   * The switch's last address octet: the entry at the switch's position in
   * the spine list if it is a spine, else in the leaf list. `None` where
   * Python raises (the switch is in neither list, or the octet list is too
   * short), before any command is run.
   */
  function LastOctet(p: Params): Option<string> {
    if p.switchName in p.spines then
      var i := IndexOf(p.spines, p.switchName);
      var octets := Split(p.spineOctets, ",");
      if i < |octets| then Some(octets[i]) else None
    else if p.switchName in p.leaves then
      var i := IndexOf(p.leaves, p.switchName);
      var octets := Split(p.leafOctets, ",");
      if i < |octets| then Some(octets[i]) else None
    else None
  }

  function EthName(eth: nat): string {
    "eth-" + NatToStr(eth) + "-1"
  }

  /** The four commands that bring up front-panel port `eth`. */
  function PortCommands(channel: Output, octet: string, eth: nat): seq<string> {
    ["ip link add " + EthName(eth) + " type " + Show(channel),
     "ip link set " + EthName(eth) + " up",
     "ethtool -s " + EthName(eth) + " speed 100000 autoneg off",
     "ifconfig " + EthName(eth) + " 10.0." + NatToStr(eth) + "." + octet + "/24"]
  }

  /** The commands for ports `lo..hi-1`. */
  function PortsFrom(channel: Output, octet: string, lo: nat, hi: nat): seq<string>
    decreases hi - lo
  {
    if hi <= lo then [] else PortCommands(channel, octet, lo) + PortsFrom(channel, octet, lo + 1, hi)
  }

  /** Every command the module runs, in order. */
  function Commands(channel: Output, octet: string): seq<string> {
    ["goes stop", "rmmod " + Show(channel), "modprobe " + Show(channel)]
    + PortsFrom(channel, octet, 1, Ports + 1)
    + ["goes start"]
  }

  /**
   * `main`: when the octet can be found, run the whole reset and report
   * 'Reset all invaders'; otherwise the module stops with no command run.
   */
  method RunModule(s: Session, p: Params) returns (msg: Option<string>)
    modifies s
    ensures LastOctet(p).None? ==> msg == None && s.St() == old(s.St())
    ensures LastOctet(p).Some? ==>
              msg == Some("Reset all invaders")
              && s.St() == old(s.St()).(history := old(s.history) + Commands(p.channel, LastOctet(p).value))
  {
    var octet := LastOctet(p);
    if octet.None? {
      return None;
    }
    ghost var st0 := s.St();
    var ch := Show(p.channel);
    var out := s.RunCli("goes stop");
    out := s.RunCli("rmmod " + ch);
    out := s.RunCli("modprobe " + ch);
    ghost var pre := st0.history + ["goes stop", "rmmod " + ch, "modprobe " + ch];
    var eth := 1;
    while eth <= Ports
      invariant 1 <= eth <= Ports + 1
      invariant s.dict == st0.dict && s.status == st0.status
      invariant s.history == pre + PortsFrom(p.channel, octet.value, 1, eth)
    {
      ResetPort(s, p.channel, octet.value, eth);
      PortsSnoc(p.channel, octet.value, 1, eth);
      AppendAssoc(pre, PortsFrom(p.channel, octet.value, 1, eth), PortCommands(p.channel, octet.value, eth));
      eth := eth + 1;
    }
    out := s.RunCli("goes start");
    CommandsSplit(st0.history, p.channel, octet.value);
    msg := Some("Reset all invaders");
  }

  lemma AppendAssoc(a: seq<string>, b: seq<string>, c: seq<string>)
    ensures a + b + c == a + (b + c)
  {
  }

  lemma CommandsSplit(h: seq<string>, channel: Output, octet: string)
    ensures h + ["goes stop", "rmmod " + Show(channel), "modprobe " + Show(channel)]
              + PortsFrom(channel, octet, 1, Ports + 1) + ["goes start"]
            == h + Commands(channel, octet)
  {
  }

  /** The body of the port loop. */
  method ResetPort(s: Session, channel: Output, octet: string, eth: nat)
    modifies s
    ensures s.St() == old(s.St()).(history := old(s.history) + PortCommands(channel, octet, eth))
  {
    var name := "eth-" + NatToStr(eth) + "-1";
    var out := s.RunCli("ip link add " + name + " type " + Show(channel));
    out := s.RunCli("ip link set " + name + " up");
    out := s.RunCli("ethtool -s " + name + " speed 100000 autoneg off");
    out := s.RunCli("ifconfig " + name + " 10.0." + NatToStr(eth) + "." + octet + "/24");
  }

  /** Ports `lo..hi` are ports `lo..hi-1` followed by port `hi`. */
  lemma {:induction false} PortsSnoc(channel: Output, octet: string, lo: nat, hi: nat)
    requires lo <= hi
    ensures PortsFrom(channel, octet, lo, hi + 1) == PortsFrom(channel, octet, lo, hi) + PortCommands(channel, octet, hi)
    decreases hi - lo
  {
    if lo < hi {
      PortsSnoc(channel, octet, lo + 1, hi);
    }
  }

  // ---------------------------------------------------------------------
  // Properties

  /** Four commands per port. */
  lemma {:induction false} PortsLength(channel: Output, octet: string, lo: nat, hi: nat)
    requires lo <= hi
    ensures |PortsFrom(channel, octet, lo, hi)| == 4 * (hi - lo)
    decreases hi - lo
  {
    if lo < hi {
      PortsLength(channel, octet, lo + 1, hi);
    }
  }

  /** Command `4 * k + j` of the ports from `lo` is command `j` of port `lo + k`. */
  lemma {:induction false} PortsAt(channel: Output, octet: string, lo: nat, hi: nat, k: nat, j: nat)
    requires lo + k < hi && j < 4
    ensures |PortsFrom(channel, octet, lo, hi)| == 4 * (hi - lo)
    ensures PortsFrom(channel, octet, lo, hi)[4 * k + j] == PortCommands(channel, octet, lo + k)[j]
    decreases k
  {
    PortsLength(channel, octet, lo, hi);
    if k > 0 {
      PortsAt(channel, octet, lo + 1, hi, k - 1, j);
    }
  }

  /**
   * The reset runs 132 commands: goes is stopped and the driver reloaded
   * first, goes is started last, and in between every port `n` from 1 to 32
   * is created, raised, forced to 100G without autonegotiation and given
   * the address `10.0.<n>.<octet>/24`, in that order, one port after the
   * other.
   */
  lemma CommandsLayout(channel: Output, octet: string)
    ensures var c := Commands(channel, octet);
            |c| == 3 + 4 * Ports + 1
            && c[..3] == ["goes stop", "rmmod " + Show(channel), "modprobe " + Show(channel)]
            && c[|c| - 1] == "goes start"
            && forall n, j :: 1 <= n <= Ports && 0 <= j < 4 ==>
                 c[3 + 4 * (n - 1) + j] == PortCommands(channel, octet, n)[j]
  {
    var c := Commands(channel, octet);
    var mid := PortsFrom(channel, octet, 1, Ports + 1);
    PortsLength(channel, octet, 1, Ports + 1);
    forall n, j | 1 <= n <= Ports && 0 <= j < 4
      ensures c[3 + 4 * (n - 1) + j] == PortCommands(channel, octet, n)[j]
    {
      PortsAt(channel, octet, 1, Ports + 1, n - 1, j);
    }
  }

  /**
   * The octet is looked up by position: a spine takes the octet at its
   * place in the spine list, even if it is also a leaf, and a leaf the one
   * at its place in the leaf list.
   */
  lemma LastOctetSpec(p: Params)
    ensures p.switchName in p.spines ==>
              (LastOctet(p).Some? <==> IndexOf(p.spines, p.switchName) < |Split(p.spineOctets, ",")|)
    ensures LastOctet(p).Some? && p.switchName in p.spines ==>
              exists i :: 0 <= i < |p.spines| && i < |Split(p.spineOctets, ",")|
                && p.spines[i] == p.switchName && LastOctet(p).value == Split(p.spineOctets, ",")[i]
    ensures LastOctet(p).Some? && p.switchName !in p.spines ==>
              exists i :: 0 <= i < |p.leaves| && i < |Split(p.leafOctets, ",")|
                && p.leaves[i] == p.switchName && LastOctet(p).value == Split(p.leafOctets, ",")[i]
    ensures p.switchName !in p.spines && p.switchName !in p.leaves ==> LastOctet(p).None?
  {
  }

  /** With one octet per listed switch, every listed switch finds its octet. */
  lemma OctetFound(p: Params)
    requires p.switchName in p.spines || p.switchName in p.leaves
    requires |Split(p.spineOctets, ",")| >= |p.spines| && |Split(p.leafOctets, ",")| >= |p.leaves|
    ensures LastOctet(p).Some?
  {
  }
}
