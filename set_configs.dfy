/**
 * `port_provision/set_configs.py`: set fec and media of every (eth, subport)
 * pair named by the config file's lines, then check the ports.
 */
module SetConfigs {
  import opened Wrappers
  import opened PyStr
  import opened PyList
  import opened Recorder
  import opened PortChecks

  datatype Params = Params(
    configFile: string, speed: string, media: string, fec: string, autoneg: string,
    channel: string, isSubports: bool, lane2: bool)

  /** `line.split()[1]` raises on a line of fewer than two words. */
  predicate Valid(p: Params) {
    forall i :: 0 <= i < |SplitLines(p.configFile)| ==> |Words(SplitLines(p.configFile)[i])| >= 2
  }

  /** The second word of every config line, in order. */
  function Eths(p: Params): (r: seq<string>)
    requires Valid(p)
    ensures |r| == |SplitLines(p.configFile)|
  {
    var lines := SplitLines(p.configFile);
    seq(|lines|, i requires 0 <= i < |lines| && |Words(lines[i])| >= 2 => Words(lines[i])[1])
  }

  function Ports(p: Params): seq<string> {
    Subports(p.isSubports, p.lane2)
  }

  function Checked(p: Params): Checks {
    Checks(p.channel, p.media, p.fec, p.speed, p.autoneg)
  }

  function HSet(p: Params, pr: (string, string), field: string, value: string): string {
    "goes hset " + p.channel + " vnet." + Port(pr) + "." + field + " " + value
  }

  /** The fec and then the media setting of one pair, both recorded. */
  function Settings(p: Params, pr: (string, string)): seq<Op> {
    [Rec(HSet(p, pr, "fec", p.fec), Ignore), Rec(HSet(p, pr, "media", p.media), Ignore)]
  }

  function SettingsAll(p: Params): ((string, string)) -> seq<Op> {
    (pr: (string, string)) => Settings(p, pr)
  }

  /** Everything `set_switch` records, in order. */
  function Script(sw: string, p: Params): seq<Op>
    requires Valid(p)
  {
    var pairs := Pairs(Eths(p), Ports(p));
    FlatMap(pairs, SettingsAll(p))
    + Verify(sw, Checked(p), pairs)
    + [SetLog("result.detail"), Rec("goes status", Ignore)]
  }

  /** `set_switch` with `verify_port_links` */
  method SetSwitch(s: Session, p: Params)
    modifies s
    requires Truncating(s.policy)
    requires Valid(p)
    requires Answered(s.E(), Checked(p), Pairs(Eths(p), Ports(p)))
    ensures s.St() == Steps(s.E(), Acc(old(s.St()), ""), Script(s.switchName, p)).m
  {
    var summary := s.Run(Script(s.switchName, p), "");
  }

  /** `main` */
  method RunModule(s: Session, p: Params) returns (text: string)
    modifies s
    requires Truncating(s.policy)
    requires Valid(p)
    requires Answered(s.E(), Checked(p), Pairs(Eths(p), Ports(p)))
    ensures s.St() == WithStatus(Steps(s.E(), Acc(old(s.St()), ""), Script(s.switchName, p)).m)
    ensures text == LogText(s.dict)
  {
    SetSwitch(s, p);
    s.StoreStatus();
    text := WriteLog(s.dict);
  }

  // ---------------------------------------------------------------------
  // Properties

  /** The ports are the second words of the config lines, one per line, in order. */
  lemma EthsOfLines(p: Params, i: nat)
    requires Valid(p) && i < |SplitLines(p.configFile)|
    ensures Eths(p)[i] == Word(SplitLines(p.configFile)[i], 1)
  {
  }

  /** For every pair the fec setting is recorded just before its media setting. */
  lemma SettingsAt(p: Params, pairs: seq<(string, string)>, n: nat)
    requires n < |pairs|
    ensures var st := FlatMap(pairs, SettingsAll(p));
            |st| == 2 * |pairs|
            && st[2 * n] == Rec(HSet(p, pairs[n], "fec", p.fec), Ignore)
            && st[2 * n + 1] == Rec(HSet(p, pairs[n], "media", p.media), Ignore)
  {
    FlatMapAt(pairs, SettingsAll(p), 2, n, 0);
    FlatMapAt(pairs, SettingsAll(p), 2, n, 1);
  }

  /** The records are the settings, then the link, media, fec and speed reads, then goes status. */
  lemma RecordOrder(sw: string, p: Params)
    requires Valid(p)
    ensures var pairs := Pairs(Eths(p), Ports(p));
            Recorded(Script(sw, p))
            == Recorded(FlatMap(pairs, SettingsAll(p)))
               + PassCmds(p.channel, pairs, "link") + PassCmds(p.channel, pairs, "media")
               + PassCmds(p.channel, pairs, "fec") + PassCmds(p.channel, pairs, "speed")
               + ["goes status"]
  {
    var pairs := Pairs(Eths(p), Ports(p));
    var st := FlatMap(pairs, SettingsAll(p));
    var v := Verify(sw, Checked(p), pairs);
    var closing := [SetLog("result.detail"), Rec("goes status", Ignore)];
    var r := Recorded(Script(sw, p));
    assert r == Recorded(st + v + closing);
    RecordedAppend(st + v, closing);
    RecordedClosing("result.detail", "goes status", Ignore);
    assert r == Recorded(st + v) + ["goes status"];
    RecordedAppend(st, v);
    VerifyRecords(sw, Checked(p), pairs);
    Regroup(r, Recorded(st), PassCmds(p.channel, pairs, "link"), PassCmds(p.channel, pairs, "media"),
            PassCmds(p.channel, pairs, "fec"), PassCmds(p.channel, pairs, "speed"), "goes status");
  }

  lemma Regroup(r: seq<string>, o: seq<string>, l: seq<string>, m: seq<string>, f: seq<string>, s: seq<string>, last: string)
    requires r == o + (l + m + f + s) + [last]
    ensures r == o + l + m + f + s + [last]
  {
  }
}
