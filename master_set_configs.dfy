/**
 * `master_port_provision/set_configs.py`: reload the switch driver, create,
 * raise, set the speed of and address every (eth, subport) pair with
 * unrecorded `run_cli` calls, set fec, then check the ports.
 */
module MasterSetConfigs {
  import opened Wrappers
  import opened PyStr
  import opened PyList
  import opened Recorder
  import opened PortChecks

  datatype Params = Params(
    spineList: seq<string>, leafList: seq<string>, ethList: string,
    speed: string, media: string, fec: string, autoneg: string,
    leafOctets: string, spineOctets: string, channel: string,
    isSubports: bool, lane2: bool)

  function Eths(p: Params): seq<string> {
    Split(p.ethList, ",")
  }

  function Ports(p: Params): seq<string> {
    Subports(p.isSubports, p.lane2)
  }

  function Checked(p: Params): Checks {
    Checks(p.channel, p.media, p.fec, p.speed, p.autoneg)
  }

  /** The list lookups of `set_switch` succeed. */
  predicate Valid(sw: string, p: Params) {
    if sw in p.spineList then IndexOf(p.spineList, sw) < |Split(p.spineOctets, ",")|
    else sw in p.leafList && IndexOf(p.leafList, sw) < |Split(p.leafOctets, ",")|
  }

  /** The last address octet: from the spine octets when the switch is a spine, else from the leaf octets. */
  function LastOctet(sw: string, p: Params): string
    requires Valid(sw, p)
  {
    if sw in p.spineList then Split(p.spineOctets, ",")[IndexOf(p.spineList, sw)]
    else Split(p.leafOctets, ",")[IndexOf(p.leafList, sw)]
  }

  /** `speed[:-1]`: the speed without its unit letter. */
  function SpeedDigits(speed: string): string {
    if speed == "" then "" else speed[..|speed| - 1]
  }

  /** The four unrecorded `run_cli` calls that bring up one pair. */
  function Provision(p: Params, last: string, pr: (string, string)): seq<Op> {
    [Raw("ip link add " + Port(pr) + " type " + p.channel, Ignore),
     Raw("ip link set " + Port(pr) + " up", Ignore),
     Raw("ethtool -s " + Port(pr) + " speed " + SpeedDigits(p.speed) + "000 autoneg " + p.autoneg, Ignore),
     Raw("ifconfig " + Port(pr) + " 10." + pr.0 + "." + pr.1 + "." + last + "/24", Ignore)]
  }

  function FecSet(p: Params, pr: (string, string)): seq<Op> {
    [Raw("goes hset " + p.channel + " vnet." + Port(pr) + ".fec " + p.fec, Ignore)]
  }

  function ProvisionAll(p: Params, last: string): ((string, string)) -> seq<Op> {
    (pr: (string, string)) => Provision(p, last, pr)
  }

  function FecAll(p: Params): ((string, string)) -> seq<Op> {
    (pr: (string, string)) => FecSet(p, pr)
  }

  const Opening: seq<Op> := [Rec("goes stop", Ignore), Rec("rmmod platina-mk1", Ignore), Rec("modprobe platina-mk1", Ignore)]

  /** Everything `set_switch` does, in order. */
  function Script(sw: string, p: Params): seq<Op>
    requires Valid(sw, p)
  {
    var pairs := Pairs(Eths(p), Ports(p));
    Opening
    + FlatMap(pairs, ProvisionAll(p, LastOctet(sw, p)))
    + [Rec("goes start", Ignore)]
    + FlatMap(pairs, FecAll(p))
    + Verify(sw, Checked(p), pairs)
    + [SetLog("result.detail"), Rec("goes status", Ignore)]
  }

  // ---------------------------------------------------------------------
  // The module

  /** `set_switch` with `verify_port_links` */
  method SetSwitch(s: Session, p: Params)
    modifies s
    requires Truncating(s.policy)
    requires Valid(s.switchName, p)
    requires Answered(s.E(), Checked(p), Pairs(Eths(p), Ports(p)))
    ensures s.St() == Steps(s.E(), Acc(old(s.St()), ""), Script(s.switchName, p)).m
  {
    var summary := s.Run(Script(s.switchName, p), "");
  }

  /** `main` */
  method RunModule(s: Session, p: Params) returns (text: string)
    modifies s
    requires Truncating(s.policy)
    requires Valid(s.switchName, p)
    requires Answered(s.E(), Checked(p), Pairs(Eths(p), Ports(p)))
    ensures s.St() == WithStatus(Steps(s.E(), Acc(old(s.St()), ""), Script(s.switchName, p)).m)
    ensures text == LogText(s.dict)
  {
    SetSwitch(s, p);
    s.StoreStatus();
    text := WriteLog(s.dict);
  }

  // ---------------------------------------------------------------------
  // Properties

  /** A switch listed as a spine takes its octet from the spine octets, at its first position there. */
  lemma SpineOctet(sw: string, p: Params, i: nat)
    requires i < |p.spineList| && p.spineList[i] == sw && i < |Split(p.spineOctets, ",")|
    requires forall m :: 0 <= m < i ==> p.spineList[m] != sw
    ensures Valid(sw, p) && LastOctet(sw, p) == Split(p.spineOctets, ",")[i]
  {
    IndexOfAt(p.spineList, i);
  }

  /** Any other switch takes it from the leaf octets. */
  lemma LeafOctet(sw: string, p: Params, i: nat)
    requires sw !in p.spineList
    requires i < |p.leafList| && p.leafList[i] == sw && i < |Split(p.leafOctets, ",")|
    requires forall m :: 0 <= m < i ==> p.leafList[m] != sw
    ensures Valid(sw, p) && LastOctet(sw, p) == Split(p.leafOctets, ",")[i]
  {
    IndexOfAt(p.leafList, i);
  }

  lemma IndexOfAt<T>(xs: seq<T>, i: nat)
    requires i < |xs| && forall m :: 0 <= m < i ==> xs[m] != xs[i]
    ensures IndexOf(xs, xs[i]) == i
  {
  }

  /** The subport lists of the two flags. */
  lemma SubportChoice(p: Params)
    ensures p.isSubports && !p.lane2 ==> |Ports(p)| == 4
    ensures p.isSubports && p.lane2 ==> Ports(p) == ["1", "3"]
    ensures !p.isSubports ==> Ports(p) == ["1"]
    ensures forall k :: 0 <= k < |Ports(p)| ==> Ports(p)[k] == NatToStr(if p.isSubports && p.lane2 then 2 * k + 1 else k + 1)
  {
  }

  /** Bringing a pair up takes four `run_cli` calls, none of them recorded. */
  lemma ProvisionUnrecorded(sw: string, p: Params)
    requires Valid(sw, p)
    ensures var pv := FlatMap(Pairs(Eths(p), Ports(p)), ProvisionAll(p, LastOctet(sw, p)));
            |pv| == 4 * |Pairs(Eths(p), Ports(p))| && Recorded(pv) == []
  {
    var pairs := Pairs(Eths(p), Ports(p));
    var f := ProvisionAll(p, LastOctet(sw, p));
    FlatMapLength(pairs, f, 4);
    FlatMapForall(pairs, f, Unrecorded);
    RecordedNone(FlatMap(pairs, f));
  }

  /** The `ethtool` call drops the unit letter: '100g' becomes speed 100000. */
  lemma SpeedDigitsDrops(speed: string, unit: char)
    ensures SpeedDigits(speed + [unit]) == speed
  {
  }

  /** The fec settings go through `run_cli` and are not recorded either. */
  lemma FecUnrecorded(p: Params)
    ensures Recorded(FlatMap(Pairs(Eths(p), Ports(p)), FecAll(p))) == []
  {
    var pairs := Pairs(Eths(p), Ports(p));
    FlatMapForall(pairs, FecAll(p), Unrecorded);
    RecordedNone(FlatMap(pairs, FecAll(p)));
  }

  /**
   * The recorded commands are goes stop, rmmod, modprobe, goes start, the
   * link, media, fec and speed reads of every pair, then goes status.
   */
  lemma RecordOrder(sw: string, p: Params)
    requires Valid(sw, p)
    ensures var pairs := Pairs(Eths(p), Ports(p));
            Recorded(Script(sw, p))
            == ["goes stop", "rmmod platina-mk1", "modprobe platina-mk1"] + ["goes start"]
               + PassCmds(p.channel, pairs, "link") + PassCmds(p.channel, pairs, "media")
               + PassCmds(p.channel, pairs, "fec") + PassCmds(p.channel, pairs, "speed")
               + ["goes status"]
  {
    var pairs := Pairs(Eths(p), Ports(p));
    var pv := FlatMap(pairs, ProvisionAll(p, LastOctet(sw, p)));
    var fs := FlatMap(pairs, FecAll(p));
    var v := Verify(sw, Checked(p), pairs);
    var start := [Rec("goes start", Ignore)];
    var closing := [SetLog("result.detail"), Rec("goes status", Ignore)];
    var r := Recorded(Script(sw, p));
    assert r == Recorded(Opening + pv + start + fs + v + closing);
    ProvisionUnrecorded(sw, p);
    FecUnrecorded(p);
    VerifyRecords(sw, Checked(p), pairs);
    RecordedOpening();
    RecordedClosing("result.detail", "goes status", Ignore);
    RecordedSix(Opening, pv, start, fs, v, closing);
    var checks := PassCmds(p.channel, pairs, "link") + PassCmds(p.channel, pairs, "media")
                  + PassCmds(p.channel, pairs, "fec") + PassCmds(p.channel, pairs, "speed");
    assert r == ["goes stop", "rmmod platina-mk1", "modprobe platina-mk1"] + [] + ["goes start"] + [] + checks + ["goes status"];
    Assemble(r, ["goes stop", "rmmod platina-mk1", "modprobe platina-mk1"], "goes start",
             PassCmds(p.channel, pairs, "link"), PassCmds(p.channel, pairs, "media"),
             PassCmds(p.channel, pairs, "fec"), PassCmds(p.channel, pairs, "speed"), "goes status");
  }

  lemma RecordedOpening()
    ensures Recorded(Opening) == ["goes stop", "rmmod platina-mk1", "modprobe platina-mk1"]
    ensures Recorded([Rec("goes start", Ignore)]) == ["goes start"]
  {
    RecordedAll(Opening);
    RecordedAll([Rec("goes start", Ignore)]);
  }

  lemma Assemble(r: seq<string>, o: seq<string>, st: string, l: seq<string>, m: seq<string>, f: seq<string>, s: seq<string>, last: string)
    requires r == o + [] + [st] + [] + (l + m + f + s) + [last]
    ensures r == o + [st] + l + m + f + s + [last]
  {
  }
}
