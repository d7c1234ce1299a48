/**
 * `testcases/docker/docker_updown_vlan.py`: like `docker_updown.py`, but
 * each port is moved into the container as a VLAN sub-interface
 * `eth-<port>-1.<vlan id>`, created on the way in and deleted on the way
 * out. Command outputs are ignored.
 */
module DockerUpDownVlan {
  import opened Wrappers
  import opened PyStr
  import opened Recorder

  const Move: string := "~/./docker_move.sh"
  const Done: string := "Module executed successfully"

  /** The settings read from the config file, in the order of their keywords. */
  datatype Config = Config(
    container: Option<string>,
    eths: seq<string>,
    vlans: seq<string>,
    seconds: seq<string>,   // `eth_second_octet`
    third: string,          // `eth_third_octet`, 0 until set
    subport: string)        // 1 until set

  function Initial(): Config {
    Config(None, [], [], [], "0", "1")
  }

  /** The setting a config line holds: the first keyword it contains, in this order. */
  datatype Kind = Container | Interface | VlanId | Second | Third | Subport | Other

  function KindOf(line: string): Kind {
    if Contains(line, "container_name") then Container
    else if Contains(line, "interface") then Interface
    else if Contains(line, "vlan_id") then VlanId
    else if Contains(line, "Second_Octet") then Second
    else if Contains(line, "Third_Octet") then Third
    else if Contains(line, "subport") then Subport
    else Other
  }

  /** `line.split()[1]`, or `None` where Python raises. */
  function Token(line: string): Option<string> {
    var ws := Words(line);
    if |ws| >= 2 then Some(ws[1]) else None
  }

  /** The effect of a line of kind `k` with token 1 `t`. */
  function Set(c: Config, k: Kind, t: string): Config {
    match k
    case Container => c.(container := Some(t))
    case Interface => c.(eths := c.eths + [t])
    case VlanId => c.(vlans := c.vlans + [t])
    case Second => c.(seconds := c.seconds + [t])
    case Third => c.(third := t)
    case Subport => c.(subport := t)
    case Other => c
  }

  /** The settings after the lines `lines`, starting from `c`; `None` where Python raises. */
  function ParseFrom(c: Config, lines: seq<string>): Option<Config>
    decreases |lines|
  {
    if lines == [] then Some(c)
    else if KindOf(lines[0]) == Other then ParseFrom(c, lines[1..])
    else if Token(lines[0]).None? then None
    else ParseFrom(Set(c, KindOf(lines[0]), Token(lines[0]).value), lines[1..])
  }

  function Parse(configFile: string): Option<Config> {
    ParseFrom(Initial(), SplitLines(configFile))
  }

  /** The dummy interface of container `name`: `int(name[1:])`, that divided by 10, and `int(name[-1])`. */
  datatype Dummy = Dummy(name: string, id: int, third: int, fourth: int)

  function DummyOf(c: Config): Option<Dummy> {
    match c.container
    case None => None
    case Some(name) =>
      if |name| >= 1 && PyInt(name[1..]).Some? && PyInt(name[|name| - 1..]).Some? then
        var id := PyInt(name[1..]).value;
        // Python 2 `/` on ints floors; for the divisor 10 so does Dafny's `/`
        Some(Dummy(name, id, id / 10, PyInt(name[|name| - 1..]).value))
      else None
  }

  function AddDummy(d: Dummy): string {
    "ip link add dummy" + IntToStr(d.id) + " type dummy 2> /dev/null"
  }

  function DummyIn(d: Dummy): string {
    Move + " up " + d.name + " dummy" + IntToStr(d.id) + " 192.168." + IntToStr(d.third) + "." + IntToStr(d.fourth) + "/32"
  }

  function DummyOut(d: Dummy): string {
    Move + " down " + d.name + " dummy" + IntToStr(d.id)
  }

  /** The VLAN sub-interface of port `eth` with VLAN id `vlan`. */
  function Iface(eth: string, vlan: string): string {
    "eth-" + eth + "-1." + vlan
  }

  function AddVlan(eth: string, vlan: string): string {
    "ip link add link eth-" + eth + "-1 name " + Iface(eth, vlan) + " type vlan id " + vlan
  }

  function SetUp(eth: string, vlan: string): string {
    "ip link set up " + Iface(eth, vlan)
  }

  /** Move `eth-<port>-<subport>.<vlan>` in, addressed `<port>.<second>.<third>.<last two of switch name>/24`. */
  function VlanIn(d: Dummy, c: Config, sw: string, eth: string, vlan: string, second: string): string {
    Move + " up " + d.name + " eth-" + eth + "-" + c.subport + "." + vlan + " "
    + eth + "." + second + "." + c.third + "." + LastTwo(sw) + "/24"
  }

  function VlanOut(d: Dummy, c: Config, eth: string, vlan: string): string {
    Move + " down " + d.name + " eth-" + eth + "-" + c.subport + "." + vlan
  }

  function SetDown(eth: string, vlan: string): string {
    "ip link set down " + Iface(eth, vlan)
  }

  function DelVlan(eth: string, vlan: string): string {
    "ip link del " + Iface(eth, vlan)
  }

  /** The commands run so far and whether Python is still running. */
  datatype Run = Run(cmds: seq<string>, completes: bool)

  /** Item `i` of the 'up' loop: three commands, fewer where `vlan_id[i]` or `eth_second_octet[i]` raises. */
  function UpItem(d: Dummy, c: Config, sw: string, i: nat): Run
    requires i < |c.eths|
  {
    if i >= |c.vlans| then Run([], false)
    else if i >= |c.seconds| then Run([AddVlan(c.eths[i], c.vlans[i]), SetUp(c.eths[i], c.vlans[i])], false)
    else Run([AddVlan(c.eths[i], c.vlans[i]), SetUp(c.eths[i], c.vlans[i]),
              VlanIn(d, c, sw, c.eths[i], c.vlans[i], c.seconds[i])], true)
  }

  /** Item `i` of the 'down' loop: three commands, none where `vlan_id[i]` raises. */
  function DownItem(d: Dummy, c: Config, i: nat): Run
    requires i < |c.eths|
  {
    if i >= |c.vlans| then Run([], false)
    else Run([VlanOut(d, c, c.eths[i], c.vlans[i]), SetDown(c.eths[i], c.vlans[i]),
              DelVlan(c.eths[i], c.vlans[i])], true)
  }

  /** The first `k` items of a loop whose item `i` is `item(i)`, stopping at the first that raises. */
  function Loop(item: nat -> Run, k: nat): Run
    decreases k
  {
    if k == 0 then Run([], true)
    else
      var r := Loop(item, k - 1);
      if !r.completes then r else Run(r.cmds + item(k - 1).cmds, item(k - 1).completes)
  }

  function UpItems(d: Dummy, c: Config, sw: string): nat -> Run {
    (i: nat) => if i < |c.eths| then UpItem(d, c, sw, i) else Run([], true)
  }

  function DownItems(d: Dummy, c: Config): nat -> Run {
    (i: nat) => if i < |c.eths| then DownItem(d, c, i) else Run([], true)
  }

  /** Every command the module runs, and whether it completes. */
  function Outcome(sw: string, configFile: string, up: bool): Run {
    match Parse(configFile)
    case None => Run([], false)
    case Some(c) =>
      match DummyOf(c)
      case None => Run([], false)
      case Some(d) =>
        if up then
          var r := Loop(UpItems(d, c, sw), |c.eths|);
          Run([AddDummy(d), DummyIn(d)] + r.cmds, r.completes)
        else
          var r := Loop(DownItems(d, c), |c.eths|);
          Run(r.cmds + (if r.completes then [DummyOut(d)] else []), r.completes)
  }

  /** The loop over the config file. */
  method ParseConfig(configFile: string) returns (r: Option<Config>)
    ensures r == Parse(configFile)
  {
    var lines := SplitLines(configFile);
    var c := Initial();
    var i := 0;
    while i < |lines|
      invariant 0 <= i <= |lines|
      invariant ParseFrom(c, lines[i..]) == Parse(configFile)
    {
      ParseStep(c, lines, i);
      var kind := KindOf(lines[i]);
      if kind != Other {
        var t := Token(lines[i]);
        if t.None? {
          return None;
        }
        c := Set(c, kind, t.value);
      }
      i := i + 1;
    }
    r := Some(c);
  }

  lemma ParseStep(c: Config, lines: seq<string>, i: nat)
    requires i < |lines|
    ensures ParseFrom(c, lines[i..])
            == if KindOf(lines[i]) == Other then ParseFrom(c, lines[i + 1..])
               else if Token(lines[i]).None? then None
               else ParseFrom(Set(c, KindOf(lines[i]), Token(lines[i]).value), lines[i + 1..])
  {
    assert lines[i..][1..] == lines[i + 1..];
  }

  /** Run the commands of one loop item, up to where Python would raise; `false` there. */
  method RunItem(s: Session, item: Run) returns (ok: bool)
    modifies s
    ensures ok == item.completes
    ensures s.St() == old(s.St()).(history := old(s.history) + item.cmds)
  {
    var i := 0;
    while i < |item.cmds|
      invariant 0 <= i <= |item.cmds|
      invariant s.St() == old(s.St()).(history := old(s.history) + item.cmds[..i])
    {
      var _ := s.RunCli(item.cmds[i]);
      assert item.cmds[..i + 1] == item.cmds[..i] + [item.cmds[i]];
      i := i + 1;
    }
    assert item.cmds[..|item.cmds|] == item.cmds;
    ok := item.completes;
  }

  /** One of the loops over the ports. */
  method RunLoop(s: Session, item: nat -> Run, n: nat) returns (ok: bool)
    modifies s
    ensures ok == Loop(item, n).completes
    ensures s.St() == old(s.St()).(history := old(s.history) + Loop(item, n).cmds)
  {
    var i := 0;
    while i < n
      invariant 0 <= i <= n && Loop(item, i).completes
      invariant s.St() == old(s.St()).(history := old(s.history) + Loop(item, i).cmds)
    {
      ghost var before := s.history;
      ok := RunItem(s, item(i));
      assert before + item(i).cmds == old(s.history) + Loop(item, i + 1).cmds;
      if !ok {
        LoopStops(item, i + 1, n);
        return;
      }
      i := i + 1;
    }
    ok := true;
  }

  /** `main`: the message, or `None` where Python raises. */
  method RunModule(s: Session, sw: string, configFile: string, up: bool) returns (msg: Option<string>)
    modifies s
    ensures msg.Some? <==> Outcome(sw, configFile, up).completes
    ensures msg.Some? ==> msg.value == Done
    ensures s.St() == old(s.St()).(history := old(s.history) + Outcome(sw, configFile, up).cmds)
  {
    var c := ParseConfig(configFile);
    if c.None? || c.value.container.None? {
      return None;
    }
    var name := c.value.container.value;
    if |name| < 1 || PyInt(name[1..]).None? || PyInt(name[|name| - 1..]).None? {
      return None;
    }
    var id := PyInt(name[1..]).value;
    var d := Dummy(name, id, id / 10, PyInt(name[|name| - 1..]).value);
    var ok;
    if up {
      ok := RunUp(s, sw, d, c.value);
    } else {
      ok := RunDown(s, d, c.value);
    }
    msg := if ok then Some(Done) else None;
  }

  /** The 'up' branch of `main`. */
  method RunUp(s: Session, sw: string, d: Dummy, c: Config) returns (ok: bool)
    modifies s
    ensures ok == Loop(UpItems(d, c, sw), |c.eths|).completes
    ensures s.St() == old(s.St()).(history := old(s.history) + ([AddDummy(d), DummyIn(d)] + Loop(UpItems(d, c, sw), |c.eths|).cmds))
  {
    var _ := s.RunCli(AddDummy(d));
    var _ := s.RunCli(DummyIn(d));
    ok := RunLoop(s, UpItems(d, c, sw), |c.eths|);
    AppendAssoc(old(s.history), [AddDummy(d)], [DummyIn(d)], Loop(UpItems(d, c, sw), |c.eths|).cmds);
  }

  /** The 'down' branch of `main`. */
  method RunDown(s: Session, d: Dummy, c: Config) returns (ok: bool)
    modifies s
    ensures ok == Loop(DownItems(d, c), |c.eths|).completes
    ensures s.St() == old(s.St()).(history := old(s.history) + Loop(DownItems(d, c), |c.eths|).cmds
                                                 + (if ok then [DummyOut(d)] else []))
  {
    ok := RunLoop(s, DownItems(d, c), |c.eths|);
    if ok {
      var _ := s.RunCli(DummyOut(d));
    }
  }

  lemma AppendAssoc(h: seq<string>, a: seq<string>, b: seq<string>, c: seq<string>)
    ensures h + a + b + c == h + (a + b + c)
  {
  }

  /** Once an item raises, the later items run nothing. */
  lemma {:induction false} LoopStops(item: nat -> Run, k: nat, n: nat)
    requires k <= n && !Loop(item, k).completes
    ensures Loop(item, n) == Loop(item, k)
    decreases n - k
  {
    if k < n {
      LoopStops(item, k, n - 1);
    }
  }

  // ---------------------------------------------------------------------
  // Properties

  /** Every item up to `k` completes with three commands: the loop runs them in order. */
  lemma {:induction false} LoopFull(item: nat -> Run, k: nat)
    requires forall i :: 0 <= i < k ==> item(i).completes && |item(i).cmds| == 3
    ensures Loop(item, k).completes && |Loop(item, k).cmds| == 3 * k
    decreases k
  {
    if k > 0 {
      LoopFull(item, k - 1);
    }
  }

  /** Command `j` of item `i` is command `3i + j` of the loop. */
  lemma {:induction false} LoopAt(item: nat -> Run, k: nat, i: nat, j: nat)
    requires forall i :: 0 <= i < k ==> item(i).completes && |item(i).cmds| == 3
    requires i < k && j < 3
    ensures 3 * i + j < |Loop(item, k).cmds| && Loop(item, k).cmds[3 * i + j] == item(i).cmds[j]
    decreases k
  {
    LoopFull(item, k);
    LoopFull(item, k - 1);
    if i < k - 1 {
      LoopAt(item, k - 1, i, j);
    }
  }

  /** The first item that raises ends the loop, after the commands before it. */
  lemma LoopBreaks(item: nat -> Run, k: nat, n: nat)
    requires k < n && !item(k).completes
    requires forall i :: 0 <= i < k ==> item(i).completes && |item(i).cmds| == 3
    ensures !Loop(item, n).completes && |Loop(item, n).cmds| == 3 * k + |item(k).cmds|
  {
    LoopFull(item, k);
    LoopStops(item, k + 1, n);
  }

  /**
   * 'up' completes exactly when there are VLAN ids and second octets for
   * every port. Otherwise it stops at the first port that lacks one: before
   * the port's commands if the VLAN id is missing, after creating and
   * raising its sub-interface if only the second octet is.
   */
  lemma UpSpec(d: Dummy, c: Config, sw: string)
    ensures var r := Loop(UpItems(d, c, sw), |c.eths|);
            var n := |c.eths|;
            var m := if |c.vlans| < |c.seconds| then |c.vlans| else |c.seconds|;
            (r.completes <==> m >= n)
            && (m >= n ==> |r.cmds| == 3 * n)
            && (m < n && |c.vlans| <= |c.seconds| ==> |r.cmds| == 3 * m)
            && (m < n && |c.seconds| < |c.vlans| ==> |r.cmds| == 3 * m + 2)
  {
    var item := UpItems(d, c, sw);
    var n := |c.eths|;
    var m := if |c.vlans| < |c.seconds| then |c.vlans| else |c.seconds|;
    if m >= n {
      LoopFull(item, n);
    } else {
      LoopBreaks(item, m, n);
    }
  }

  /** 'down' completes exactly when there is a VLAN id for every port, and the dummy goes out last. */
  lemma DownSpec(d: Dummy, c: Config)
    ensures var r := Loop(DownItems(d, c), |c.eths|);
            var n := |c.eths|;
            (r.completes <==> |c.vlans| >= n)
            && (|c.vlans| >= n ==> |r.cmds| == 3 * n)
            && (|c.vlans| < n ==> |r.cmds| == 3 * |c.vlans|)
  {
    var item := DownItems(d, c);
    var n := |c.eths|;
    if |c.vlans| >= n {
      LoopFull(item, n);
    } else {
      LoopBreaks(item, |c.vlans|, n);
    }
  }

  /**
   * 'down' undoes 'up' port by port: the sub-interface that 'up' creates
   * and raises for port `i` is the one 'down' takes down and deletes.
   */
  lemma UpDownPair(d: Dummy, c: Config, sw: string, i: nat)
    requires i < |c.eths| && |c.vlans| >= |c.eths| && |c.seconds| >= |c.eths|
    ensures var up := Loop(UpItems(d, c, sw), |c.eths|).cmds;
            var down := Loop(DownItems(d, c), |c.eths|).cmds;
            var e := c.eths[i];
            var v := c.vlans[i];
            3 * i + 2 < |up| && 3 * i + 2 < |down|
            && up[3 * i] == AddVlan(e, v) && up[3 * i + 1] == SetUp(e, v)
            && down[3 * i + 1] == SetDown(e, v) && down[3 * i + 2] == DelVlan(e, v)
  {
    var up, down := UpItems(d, c, sw), DownItems(d, c);
    ItemsFull(d, c, sw);
    LoopAt(up, |c.eths|, i, 0);
    LoopAt(up, |c.eths|, i, 1);
    LoopAt(down, |c.eths|, i, 1);
    LoopAt(down, |c.eths|, i, 2);
    LoopAt(up, |c.eths|, i, 2);
    assert up(i).cmds[0] == AddVlan(c.eths[i], c.vlans[i]) && up(i).cmds[1] == SetUp(c.eths[i], c.vlans[i]);
    assert down(i).cmds[1] == SetDown(c.eths[i], c.vlans[i]) && down(i).cmds[2] == DelVlan(c.eths[i], c.vlans[i]);
  }

  /** With a VLAN id and a second octet for every port, every item runs its three commands. */
  lemma ItemsFull(d: Dummy, c: Config, sw: string)
    requires |c.vlans| >= |c.eths| && |c.seconds| >= |c.eths|
    ensures forall i :: 0 <= i < |c.eths| ==> UpItems(d, c, sw)(i).completes && |UpItems(d, c, sw)(i).cmds| == 3
    ensures forall i :: 0 <= i < |c.eths| ==> DownItems(d, c)(i).completes && |DownItems(d, c)(i).cmds| == 3
  {
  }

  /**
   * Once `int(name[1:])` succeeds, so does `int(name[-1])`; for a name
   * whose number is plain decimal, the dummy's address is
   * 192.168.<number // 10>.<number % 10>.
   */
  lemma DummySpec(name: string)
    requires |name| >= 1 && PyInt(name[1..]).Some?
    ensures PyInt(name[|name| - 1..]).Some?
    ensures IsDecimal(name[1..]) ==>
              PyInt(name[|name| - 1..]).value == PyInt(name[1..]).value % 10
  {
    var t := name[1..];
    assert name[|name| - 1..] == [t[|t| - 1]];
    if IsDecimal(t) {
      assert IsDecimal([t[|t| - 1]]);
      assert DecValue([t[|t| - 1]]) == 10 * DecValue([]) + DigitValue(t[|t| - 1]);
    } else {
      assert IsDecimal(t[1..]);
      assert t[1..][|t[1..]| - 1] == t[|t| - 1];
      assert IsDigit(t[|t| - 1]);
      assert IsDecimal([t[|t| - 1]]);
    }
  }
}
