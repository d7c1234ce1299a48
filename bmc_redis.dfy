/**
 * `redis/test_bmc_redis.py`: derive the BMC's IPv6 link-local address from
 * its base MAC address (read from the switch's redis), then read five
 * hashes from the BMC's redis over that address and check for errors.
 */
module BmcRedis {
  import opened Wrappers
  import opened PyStr
  import opened OrderedDict
  import opened Recorder
  import opened RedisCli

  datatype Params = Params(ip: string, channel: string)

  /** `get_cli` */
  function Prefix(p: Params): string {
    "redis-cli -h " + p.ip + " "
  }

  function MacCmd(p: Params): string {
    Prefix(p) + "hget " + p.channel + " eeprom.BaseEthernetAddress"
  }

  // ---------------------------------------------------------------------
  // get_ipv6_address

  /** `xs.insert(i, x)` for `i >= 0`: past the end it appends. */
  function Insert<T>(xs: seq<T>, i: nat, x: T): (r: seq<T>)
    ensures |r| == |xs| + 1
  {
    if i >= |xs| then xs + [x] else xs[..i] + [x] + xs[i..]
  }

  /** The MAC's colon-separated parts with 'ff' and 'fe' inserted at positions 3 and 4. */
  function Parts(mac: string): (r: seq<string>)
    ensures |r| >= 3
  {
    Insert(Insert(Split(mac, ":"), 3, "ff"), 4, "fe")
  }

  /** `v ^ 2`: toggle bit 1, the universal/local bit of a MAC's first octet. */
  function FlipBit(v: nat): nat {
    if v % 4 >= 2 then v - 2 else v + 2
  }

  /** `''.join(parts[i:i + 2])` for i = 0, 2, ...: the parts joined pairwise, a last odd part alone. */
  function Groups(parts: seq<string>): (r: seq<string>)
    ensures |r| == (|parts| + 1) / 2
    decreases |parts|
  {
    if parts == [] then []
    else if |parts| == 1 then [parts[0]]
    else [parts[0] + parts[1]] + Groups(parts[2..])
  }

  /** The first part after `'%x' % (int(part, 16) ^ 2)`. */
  function Flipped(parts: seq<string>): seq<string>
    requires |parts| > 0 && IsHex(parts[0])
  {
    parts[0 := Hex(FlipBit(HexValue(parts[0])))]
  }

  /**
   * The link-local address of a MAC, or `None` where `int(parts[0], 16)`
   * raises (the first part is not a run of hexadecimal digits).
   */
  function Address(mac: string): Option<string> {
    var parts := Parts(mac);
    if IsHex(parts[0]) then Some("fe80::" + Join(":", Groups(Flipped(parts)))) else None
  }

  // ---------------------------------------------------------------------
  // test_hget_operations

  const Fields: seq<string> := ["temp", "status", "fan_tray", "psu", "vmon"]

  /** `'{} {} {} '.format('hget', channel, '<field> <address>')` */
  function HGet(channel: string, field: string, address: string): string {
    "hget " + channel + " " + field + " " + address + " "
  }

  function Cmds(p: Params, address: string): (r: seq<string>)
    ensures |r| == |Fields| && forall i :: 0 <= i < |Fields| ==> r[i] == HGet(p.channel, Fields[i], address + "%eth0")
  {
    seq(|Fields|, i requires 0 <= i < |Fields| => HGet(p.channel, Fields[i], address + "%eth0"))
  }

  function NoneLine(sw: string, cli: string): string {
    "On switch " + sw + " " + "output of command " + cli + " is None\n"
  }

  function ErrorLine(sw: string, cli: string): string {
    "On switch " + sw + " " + "output of command " + cli + " has errors\n"
  }

  /** A read fails with no output or with 'error' in its lower-cased output. */
  function Judge(sw: string): RedisCli.Judge {
    (cli: string) => (o: Output) =>
      if o.None? then Fail(NoneLine(sw, cli))
      else if Contains(Lower(o.value), "error") then Fail(ErrorLine(sw, cli))
      else Pass
  }

  /** The whole run, or `None` where Python raises: no MAC, or a first part that is not hexadecimal. */
  function Run(e: Env, a: Acc, p: Params): Option<Acc> {
    var (m, mac) := RunF(e, a.m, MacCmd(p));
    if mac.None? then None
    else match Address(mac.value)
      case None => None
      case Some(address) =>
        Some(Step(e, Calls(e, Acc(m, a.log), Prefix(p), Cmds(p, address), Judge(e.switchName)), SetLog("result.detail")))
  }

  // ---------------------------------------------------------------------
  // The module

  /** The loop of `get_ipv6_address` that joins the parts pairwise. */
  method PairUp(parts: seq<string>) returns (groups: seq<string>)
    ensures groups == Groups(parts)
  {
    groups := [];
    var i := 0;
    while i < |parts|
      invariant i <= |parts| && groups + Groups(parts[i..]) == Groups(parts)
    {
      var j := if i + 2 <= |parts| then i + 2 else |parts|;
      GroupsHead(parts[i..]);
      assert parts[i..][..j - i] == parts[i..j] && parts[i..][j - i..] == parts[j..];
      groups := groups + [Concat(parts[i..j])];
      i := j;
    }
  }

  lemma ConcatPair(x: string, y: string)
    ensures Concat([x, y]) == x + y
  {
    assert [x, y][1..] == [y] && [y][1..] == [];
    assert Concat([y]) == y + Concat([]);
    assert y + "" == y;
  }

  /** The first group is the first two parts joined, or the last part alone. */
  lemma GroupsHead(parts: seq<string>)
    requires parts != []
    ensures var k := if |parts| >= 2 then 2 else 1;
            Groups(parts) == [Concat(parts[..k])] + Groups(parts[k..])
  {
    if |parts| >= 2 {
      ConcatPair(parts[0], parts[1]);
      assert parts[..2] == [parts[0], parts[1]];
    } else {
      assert parts[..1] == parts && parts[1..] == [];
      assert Concat(parts) == parts[0] + "";
      assert parts[0] + "" == parts[0];
    }
  }

  /** `get_ipv6_address`; `None` where Python raises. The MAC query is not recorded. */
  method GetIpv6Address(s: Session, p: Params) returns (address: Option<string>)
    modifies s
    ensures var (m, mac) := RunF(s.E(), old(s.St()), MacCmd(p));
            s.St() == m && address == if mac.None? then None else Address(mac.value)
  {
    var mac := s.RunCli(MacCmd(p));
    if mac.None? {
      return None;
    }
    var parts := Split(mac.value, ":");
    parts := Insert(parts, 3, "ff");
    parts := Insert(parts, 4, "fe");
    if !IsHex(parts[0]) {
      return None;
    }
    parts := parts[0 := Hex(FlipBit(HexValue(parts[0])))];
    var groups := PairUp(parts);
    address := Some("fe80::" + Join(":", groups));
  }

  /** `test_hget_operations`; `ok` is false where Python raises. */
  method TestHgetOperations(s: Session, p: Params) returns (ok: bool)
    modifies s
    ensures var r := Run(s.E(), Acc(old(s.St()), ""), p);
            ok == r.Some? && (ok ==> s.St() == r.value.m)
  {
    ghost var a := Acc(s.St(), "");
    var address := GetIpv6Address(s, p);
    if address.None? {
      return false;
    }
    assert Run(s.E(), a, p) == Some(Step(s.E(), Calls(s.E(), Acc(s.St(), ""), Prefix(p), Cmds(p, address.value), Judge(s.switchName)), SetLog("result.detail")));
    var summary := ExecuteAll(s, Prefix(p), Cmds(p, address.value), Judge(s.switchName), "");
    s.Store("result.detail", Some(summary));
    ok := true;
  }

  /**
   * `main`: the text written to the log, or `None` where Python raises.
   * The module calls only `run_cli`, which strips its output; it neither
   * truncates nor suppresses, so only the stripping policy matters.
   */
  method RunModule(s: Session, p: Params) returns (text: Option<string>)
    modifies s
    requires s.policy.strip
    ensures var r := Run(s.E(), Acc(old(s.St()), ""), p);
            text.Some? == r.Some? && (r.Some? ==> s.St() == WithStatus(r.value.m) && text.value == LogText(s.dict))
  {
    var ok := TestHgetOperations(s, p);
    if !ok {
      return None;
    }
    s.StoreStatus();
    var log := WriteLog(s.dict);
    text := Some(log);
  }

  // ---------------------------------------------------------------------
  // Properties

  /** Toggling bit 1 twice gives the value back; no other bit changes. */
  lemma FlipBitSpec(v: nat)
    ensures FlipBit(FlipBit(v)) == v
    ensures FlipBit(v) / 4 == v / 4 && FlipBit(v) % 2 == v % 2 && (FlipBit(v) % 4 >= 2) != (v % 4 >= 2)
  {
    var q, r := v / 4, v % 4;
    var r' := if r >= 2 then r - 2 else r + 2;
    Quarters(q, r);
    Quarters(q, r');
    assert FlipBit(v) == 4 * q + r';
  }

  /** `4 * q + r` for a remainder `r` below 4 has quotient `q`, remainder `r` and parity that of `r`. */
  lemma Quarters(q: nat, r: nat)
    requires r < 4
    ensures (4 * q + r) / 4 == q && (4 * q + r) % 4 == r && (4 * q + r) % 2 == r % 2
  {
  }

  /** On a byte, `FlipBit` is the exclusive or with 2. */
  lemma FlipBitXor(v: bv8)
    ensures FlipBit(v as nat) == (v ^ 2) as nat
  {
  }

  /** The rendered first group parses back, and flipping again restores the MAC's first octet. */
  lemma FirstPartRoundTrip(part: string)
    requires IsHex(part)
    ensures FlipBit(HexValue(Hex(FlipBit(HexValue(part))))) == HexValue(part)
  {
    HexRoundTrip(FlipBit(HexValue(part)));
    FlipBitSpec(HexValue(part));
  }

  /**
   * A six-part MAC a:b:c:d:e:f gives the four groups (a^2)b, c'ff',
   * 'fe'd and ef after 'fe80::'.
   */
  lemma SixParts(mac: string, a: string, b: string, c: string, d: string, e: string, f: string)
    requires Split(mac, ":") == [a, b, c, d, e, f] && IsHex(a)
    ensures Address(mac) == Some("fe80::" + Join(":", [Hex(FlipBit(HexValue(a))) + b, c + "ff", "fe" + d, e + f]))
  {
    var parts := [a, b, c, "ff", "fe", d, e, f];
    assert Insert([a, b, c, d, e, f], 3, "ff") == [a, b, c, "ff", d, e, f];
    assert Parts(mac) == parts;
    var fl := Flipped(parts);
    assert fl[2..][2..][2..][2..] == [];
    assert Groups(fl[6..]) == [e + f];
    assert Groups(fl[4..]) == ["fe" + d, e + f];
    assert Groups(fl[2..]) == [c + "ff", "fe" + d, e + f];
    assert Groups(fl) == [fl[0] + b, c + "ff", "fe" + d, e + f];
  }

  /** A read fails exactly when its output is `None` or has 'error' in it, whatever the case; a failure always has a line. */
  lemma JudgeSpec(sw: string, cli: string, o: Output)
    ensures Judge(sw)(cli)(o).Fail? <==> o.None? || Contains(Lower(o.value), "error")
    ensures Reports(Judge(sw))
  {
    forall cli', o': Output
      ensures !Judge(sw)(cli')(o').Note? && (Judge(sw)(cli')(o').Fail? ==> Judge(sw)(cli')(o').line != "")
    {
      assert |NoneLine(sw, cli')| > 0 && |ErrorLine(sw, cli')| > 0;
    }
  }

  /** The five reads name temp, status, fan_tray, psu and vmon, in that order, at the address with '%eth0'. */
  lemma CmdsSpec(p: Params, address: string)
    ensures |Cmds(p, address)| == 5
    ensures Cmds(p, address)[0] == "hget " + p.channel + " temp " + address + "%eth0 "
    ensures Cmds(p, address)[4] == "hget " + p.channel + " vmon " + address + "%eth0 "
    ensures Cmds(p, address)[1] == HGet(p.channel, "status", address + "%eth0")
    ensures Cmds(p, address)[2] == HGet(p.channel, "fan_tray", address + "%eth0")
    ensures Cmds(p, address)[3] == HGet(p.channel, "psu", address + "%eth0")
  {
  }

  /**
   * When the run finishes, the MAC query has left no entry: the new keys
   * are the five reads' (named without the `redis-cli` prefix) and then
   * `result.detail`, which holds the narrative; the status stays exactly
   * when no read added to the narrative.
   */
  lemma Outcome(e: Env, a: Acc, p: Params)
    requires Run(e, a, p).Some?
    ensures var (m, mac) := RunF(e, a.m, MacCmd(p));
            var address := Address(mac.value).value;
            var r := Run(e, a, p).value;
            && Keys(r.m.dict) == EnterAll(EnterAll(Keys(a.m.dict), CallKeys(e, m.history, Prefix(p), Cmds(p, address))), ["result.detail"])
            && Get(r.m.dict, "result.detail") == Some(Some(r.log))
            && r.m.status == (a.m.status && r.log == a.log)
  {
    var (m, mac) := RunF(e, a.m, MacCmd(p));
    JudgeSpec(e.switchName, "", None);
    CallsDetail(e, Acc(m, a.log), Prefix(p), Cmds(p, Address(mac.value).value), Judge(e.switchName), "result.detail");
  }
}
