/**
 * `verify_port_links` as the two `set_configs.py` modules write it: link,
 * media, fec and speed of every (eth, subport) pair are read back with
 * `goes hget` and compared with the configured values.
 */
module PortChecks {
  import opened Wrappers
  import opened PyStr
  import opened PyList
  import opened Recorder

  /** `['1', '2', '3', '4']`, `['1', '3']` or the string `'1'`, which iterates as `['1']`. */
  function Subports(isSubports: bool, lane2: bool): seq<string> {
    if isSubports then (if !lane2 then ["1", "2", "3", "4"] else ["1", "3"]) else ["1"]
  }

  /** The (eth, subport) pairs of the nested loops, eth-major. */
  function Pairs(eths: seq<string>, ports: seq<string>): seq<(string, string)> {
    FlatMap(eths, (eth: string) => seq(|ports|, j requires 0 <= j < |ports| => (eth, ports[j])))
  }

  function Port(pr: (string, string)): string {
    "eth-" + pr.0 + "-" + pr.1
  }

  function HGet(channel: string, pr: (string, string), field: string): string {
    "goes hget " + channel + " vnet." + Port(pr) + "." + field
  }

  datatype Checks = Checks(channel: string, media: string, fec: string, speed: string, autoneg: string)

  /** The speed text expected back: 'autoneg' when autonegotiation is on. */
  function Expected(c: Checks): string {
    if c.autoneg == "on" then "autoneg" else c.speed
  }

  function LinkLine(sw: string, pr: (string, string)): string {
    "On switch " + sw + " " + "port link is not up " + "for the interface " + Port(pr) + "\n"
  }

  function MediaLine(sw: string, media: string, pr: (string, string)): string {
    "On switch " + sw + " " + "interface media is not set to " + media + " " + "for the interface " + Port(pr) + "\n"
  }

  function FecLine(sw: string, fec: string, pr: (string, string)): string {
    "On switch " + sw + " " + "fec is not set to " + fec + " for " + "the interface " + Port(pr) + "\n"
  }

  function SpeedLine(sw: string, speed: string, pr: (string, string)): string {
    "On switch " + sw + " " + "speed of the interface " + "is not set to " + speed + " for "
    + "the interface " + Port(pr) + "\n"
  }

  /** `if text not in out:` fails with `line`. */
  function Expect(text: string, line: string): Output -> Verdict {
    (o: Output) => if Contains(o.GetOr(""), text) then Pass else Fail(line)
  }

  function LinkCheck(sw: string, c: Checks, pr: (string, string)): seq<Op> {
    [Rec(HGet(c.channel, pr, "link"), Expect("true", LinkLine(sw, pr)))]
  }

  function MediaCheck(sw: string, c: Checks, pr: (string, string)): seq<Op> {
    [Rec(HGet(c.channel, pr, "media"), Expect(c.media, MediaLine(sw, c.media, pr)))]
  }

  function FecCheck(sw: string, c: Checks, pr: (string, string)): seq<Op> {
    [Rec(HGet(c.channel, pr, "fec"), Expect(c.fec, FecLine(sw, c.fec, pr)))]
  }

  function SpeedCheck(sw: string, c: Checks, pr: (string, string)): seq<Op> {
    [Rec(HGet(c.channel, pr, "speed"), Expect(Expected(c), SpeedLine(sw, Expected(c), pr)))]
  }

  /** `verify_port_links`: the link, media, fec and speed passes, in that order. */
  function Verify(sw: string, c: Checks, pairs: seq<(string, string)>): seq<Op> {
    FlatMap(pairs, (pr: (string, string)) => LinkCheck(sw, c, pr))
    + FlatMap(pairs, (pr: (string, string)) => MediaCheck(sw, c, pr))
    + FlatMap(pairs, (pr: (string, string)) => FecCheck(sw, c, pr))
    + FlatMap(pairs, (pr: (string, string)) => SpeedCheck(sw, c, pr))
  }

  /** The module dereferences every answer of the checks (`'true' not in None` raises). */
  ghost predicate Answered(e: Env, c: Checks, pairs: seq<(string, string)>) {
    forall i :: 0 <= i < |pairs| ==>
      Answers(e, HGet(c.channel, pairs[i], "link")) && Answers(e, HGet(c.channel, pairs[i], "media"))
      && Answers(e, HGet(c.channel, pairs[i], "fec")) && Answers(e, HGet(c.channel, pairs[i], "speed"))
  }

  /** The commands of a pass of single records over the pairs. */
  function PassCmds(channel: string, pairs: seq<(string, string)>, field: string): (r: seq<string>)
    ensures |r| == |pairs|
  {
    seq(|pairs|, i requires 0 <= i < |pairs| => HGet(channel, pairs[i], field))
  }

  // ---------------------------------------------------------------------
  // Properties

  /** Pair `k * i + j` is eth `i` with subport `j`. */
  lemma PairsAt(eths: seq<string>, ports: seq<string>, i: nat, j: nat)
    requires i < |eths| && j < |ports|
    ensures |Pairs(eths, ports)| == |ports| * |eths| && |ports| * i + j < |ports| * |eths|
    ensures Pairs(eths, ports)[|ports| * i + j] == (eths[i], ports[j])
  {
    var f := (eth: string) => seq(|ports|, j requires 0 <= j < |ports| => (eth, ports[j]));
    FlatMapAt(eths, f, |ports|, i, j);
  }

  /** A pass records one `goes hget` per pair, in pair order. */
  lemma {:induction false} PassRecords(pairs: seq<(string, string)>, f: ((string, string)) -> seq<Op>, channel: string, field: string)
    requires forall i :: 0 <= i < |pairs| ==>
               |f(pairs[i])| == 1 && f(pairs[i])[0].Rec? && f(pairs[i])[0].cmd == HGet(channel, pairs[i], field)
    ensures Recorded(FlatMap(pairs, f)) == PassCmds(channel, pairs, field)
    decreases |pairs|
  {
    if pairs != [] {
      assert forall i :: 0 <= i < |pairs[1..]| ==> pairs[1..][i] == pairs[i + 1];
      PassRecords(pairs[1..], f, channel, field);
      assert Recorded(f(pairs[0])) == [HGet(channel, pairs[0], field)] by {
        assert f(pairs[0])[1..] == [];
      }
      RecordedAppend(f(pairs[0]), FlatMap(pairs[1..], f));
      assert PassCmds(channel, pairs, field) == [HGet(channel, pairs[0], field)] + PassCmds(channel, pairs[1..], field);
    }
  }

  /** `verify_port_links` records the link, then media, fec and speed reads of every pair. */
  lemma VerifyRecords(sw: string, c: Checks, pairs: seq<(string, string)>)
    ensures Recorded(Verify(sw, c, pairs))
            == PassCmds(c.channel, pairs, "link") + PassCmds(c.channel, pairs, "media")
               + PassCmds(c.channel, pairs, "fec") + PassCmds(c.channel, pairs, "speed")
  {
    var l := FlatMap(pairs, (pr: (string, string)) => LinkCheck(sw, c, pr));
    var m := FlatMap(pairs, (pr: (string, string)) => MediaCheck(sw, c, pr));
    var f := FlatMap(pairs, (pr: (string, string)) => FecCheck(sw, c, pr));
    var s := FlatMap(pairs, (pr: (string, string)) => SpeedCheck(sw, c, pr));
    PassRecords(pairs, (pr: (string, string)) => LinkCheck(sw, c, pr), c.channel, "link");
    PassRecords(pairs, (pr: (string, string)) => MediaCheck(sw, c, pr), c.channel, "media");
    PassRecords(pairs, (pr: (string, string)) => FecCheck(sw, c, pr), c.channel, "fec");
    PassRecords(pairs, (pr: (string, string)) => SpeedCheck(sw, c, pr), c.channel, "speed");
    RecordedAppend(l, m);
    RecordedAppend(l + m, f);
    RecordedAppend(l + m + f, s);
  }

  /**
   * Every check fails exactly when its expected text is missing from the
   * output, naming the pair; the speed check expects 'autoneg' when
   * autonegotiation is on.
   */
  lemma ChecksSpec(sw: string, c: Checks, pr: (string, string), out: string)
    ensures LinkCheck(sw, c, pr)[0].judge(Some(out)).Fail? <==> !Contains(out, "true")
    ensures MediaCheck(sw, c, pr)[0].judge(Some(out)).Fail? <==> !Contains(out, c.media)
    ensures FecCheck(sw, c, pr)[0].judge(Some(out)).Fail? <==> !Contains(out, c.fec)
    ensures SpeedCheck(sw, c, pr)[0].judge(Some(out)).Fail? <==> !Contains(out, Expected(c))
    ensures c.autoneg == "on" ==> Expected(c) == "autoneg"
    ensures c.autoneg != "on" ==> Expected(c) == c.speed
  {
  }

  /** A narrative line that starts with the switch, names the subport and ends the line. */
  predicate Names(line: string, sw: string, pr: (string, string)) {
    StartsWith(line, "On switch " + sw + " ") && Contains(line, Port(pr)) && |line| > 0 && line[|line| - 1] == '\n'
  }

  /** Every failure line names its switch and subport on a line of its own. */
  lemma LinesName(sw: string, c: Checks, pr: (string, string))
    ensures Names(LinkLine(sw, pr), sw, pr)
    ensures Names(MediaLine(sw, c.media, pr), sw, pr)
    ensures Names(FecLine(sw, c.fec, pr), sw, pr)
    ensures Names(SpeedLine(sw, Expected(c), pr), sw, pr)
  {
    LinkNames(sw, pr);
    MediaNames(sw, c.media, pr);
    FecNames(sw, c.fec, pr);
    SpeedNames(sw, Expected(c), pr);
  }

  lemma LinkNames(sw: string, pr: (string, string))
    ensures Names(LinkLine(sw, pr), sw, pr)
  {
    var head, pt := "On switch " + sw + " ", Port(pr);
    NamedLine(head, "port link is not up " + "for the interface ", pt);
    assert LinkLine(sw, pr) == head + ("port link is not up " + "for the interface " + pt + "\n");
  }

  lemma MediaNames(sw: string, media: string, pr: (string, string))
    ensures Names(MediaLine(sw, media, pr), sw, pr)
  {
    var head, pt := "On switch " + sw + " ", Port(pr);
    NamedLine(head, "interface media is not set to " + media + " " + "for the interface ", pt);
    assert MediaLine(sw, media, pr) == head + ("interface media is not set to " + media + " " + "for the interface " + pt + "\n");
  }

  lemma FecNames(sw: string, fec: string, pr: (string, string))
    ensures Names(FecLine(sw, fec, pr), sw, pr)
  {
    var head, pt := "On switch " + sw + " ", Port(pr);
    NamedLine(head, "fec is not set to " + fec + " for " + "the interface ", pt);
    assert FecLine(sw, fec, pr) == head + ("fec is not set to " + fec + " for " + "the interface " + pt + "\n");
  }

  lemma SpeedNames(sw: string, speed: string, pr: (string, string))
    ensures Names(SpeedLine(sw, speed, pr), sw, pr)
  {
    var head, pt := "On switch " + sw + " ", Port(pr);
    NamedLine(head, "speed of the interface " + "is not set to " + speed + " for " + "the interface ", pt);
    assert SpeedLine(sw, speed, pr) == head + ("speed of the interface " + "is not set to " + speed + " for " + "the interface " + pt + "\n");
  }

  lemma NamedLine(head: string, mid: string, pt: string)
    ensures StartsWith(head + (mid + pt + "\n"), head)
    ensures Contains(head + (mid + pt + "\n"), pt)
    ensures (head + (mid + pt + "\n"))[|head + (mid + pt + "\n")| - 1] == '\n'
  {
    var line := head + (mid + pt + "\n");
    assert line[..|head|] == head;
    assert line[|head| + |mid|..][..|pt|] == pt;
    assert StartsWith(line[|head| + |mid|..], pt);
  }
}
