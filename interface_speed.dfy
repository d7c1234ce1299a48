/**
 * `issues/verify_interface_speed.py`: every interface speed set in the
 * start file must show up in redis as `<eth>: <speed>`, with the start
 * file's `auto` shown as `autoneg`.
 */
module InterfaceSpeed {
  import opened Wrappers
  import opened PyStr
  import opened Recorder
  import opened OrderedDict

  /** The redis query of the speeds. */
  function SpeedCmd(channel: string): string {
    "goes hget " + channel + " speed"
  }

  /** A (stripped) start file line that sets a speed. */
  predicate SetsSpeed(line: string) {
    Contains(line, "speed")
  }

  /**
   * What the module needs of a line that sets a speed: text after
   * 'speed ', and a word after '<channel> '. Any other such line makes
   * Python raise.
   */
  predicate Parses(channel: string, line: string) {
    |Split(line, "speed ")| >= 2 && |Split(line, channel + " ")| >= 2 && Words(Split(line, channel + " ")[1]) != []
  }

  /** Every speed line of the start file parses. */
  predicate WellFormed(channel: string, startFile: string) {
    forall i :: 0 <= i < |SplitLines(startFile)| ==>
      SetsSpeed(Strip(SplitLines(startFile)[i])) ==> Parses(channel, Strip(SplitLines(startFile)[i]))
  }

  /** The speed a line sets: the text between the first and any second 'speed ', 'auto' read as 'autoneg'. */
  function Speed(line: string): string {
    var speed := Field(line, "speed ", 1);
    if speed == "auto" then "autoneg" else speed
  }

  /** The interface a line names: the first word after '<channel> '. */
  function Eth(channel: string, line: string): string {
    Word(Field(line, channel + " ", 1), 0)
  }

  /** What redis must contain for a speed line. */
  function Expected(channel: string, line: string): string {
    Eth(channel, line) + ": " + Speed(line)
  }

  function FailLine(sw: string, eth: string, speed: string): string {
    "On switch " + sw + " " + eth + " " + "in redis is not set to " + speed + "\n"
  }

  /** A raw start file line sets a speed that `redis` does not show. */
  predicate Mismatch(channel: string, raw: string, redis: string) {
    SetsSpeed(Strip(raw)) && !Contains(redis, Expected(channel, Strip(raw)))
  }

  /** What the check of one raw start file line adds to the narrative. */
  function LineReport(sw: string, channel: string, raw: string, redis: string): string {
    var line := Strip(raw);
    if Mismatch(channel, raw, redis)
    then FailLine(sw, Eth(channel, line), Speed(line))
    else ""
  }

  /** What each line adds. */
  function Reports(sw: string, channel: string, lines: seq<string>, redis: string): (r: seq<string>)
    ensures |r| == |lines|
  {
    seq(|lines|, i requires 0 <= i < |lines| => LineReport(sw, channel, lines[i], redis))
  }

  /** The narrative of the loop over `lines`. */
  function Report(sw: string, channel: string, lines: seq<string>, redis: string): string {
    Concat(Reports(sw, channel, lines, redis))
  }

  /** The loop over the start file as a test of the redis speeds (which the caller ensures are not `None`). */
  function SpeedJudge(sw: string, channel: string, lines: seq<string>): Output -> Verdict {
    (o: Output) =>
      var t := if o.Some? then Report(sw, channel, lines, o.value) else "";
      if t == "" then Pass else Fail(t)
  }

  /** Everything `main` records. */
  function Script(sw: string, channel: string, startFile: string): seq<Op> {
    [Rec(SpeedCmd(channel), SpeedJudge(sw, channel, SplitLines(startFile)))]
  }

  /** The loop of `main`, once the redis speeds `redis` have been recorded. */
  method CheckSpeeds(s: Session, channel: string, lines: seq<string>, redis: Output, summary0: string)
    returns (summary: string)
    modifies s
    requires redis.Some?
    requires forall i :: 0 <= i < |lines| ==> SetsSpeed(Strip(lines[i])) ==> Parses(channel, Strip(lines[i]))
    ensures Acc(s.St(), summary) == Conclude(Acc(old(s.St()), summary0), SpeedJudge(s.switchName, channel, lines)(redis))
  {
    summary := summary0;
    var sw := s.switchName;
    var i := 0;
    while i < |lines|
      invariant 0 <= i <= |lines|
      invariant summary == summary0 + Report(sw, channel, lines[..i], redis.value)
      invariant s.dict == old(s.dict) && s.history == old(s.history)
      invariant s.status == (old(s.status) && Report(sw, channel, lines[..i], redis.value) == "")
    {
      ReportStep(sw, channel, lines, i, redis.value);
      ghost var before := Report(sw, channel, lines[..i], redis.value);
      summary := CheckLine(s, channel, lines[i], redis.value, summary);
      Assoc(summary0, before, LineReport(sw, channel, lines[i], redis.value));
      i := i + 1;
    }
    assert i == |lines|;
    assert lines[..|lines|] == lines;
    TextVerdict(Acc(old(s.St()), summary0), Report(sw, channel, lines, redis.value));
  }

  /** The body of the loop: check one start file line against the redis speeds. */
  method CheckLine(s: Session, channel: string, raw: string, redis: string, summary0: string) returns (summary: string)
    modifies s
    requires SetsSpeed(Strip(raw)) ==> Parses(channel, Strip(raw))
    ensures summary == summary0 + LineReport(s.switchName, channel, raw, redis)
    ensures s.dict == old(s.dict) && s.history == old(s.history)
    ensures s.status == (old(s.status) && LineReport(s.switchName, channel, raw, redis) == "")
  {
    summary := summary0;
    var line := Strip(raw);
    LineReportCases(s.switchName, channel, raw, redis);
    if Contains(line, "speed") {
      var speed := Split(line, "speed ")[1];
      var eth := Words(Split(line, channel + " ")[1])[0];
      speed := if speed == "auto" then "autoneg" else speed;
      var interfaceSpeed := eth + ": " + speed;
      if !Contains(redis, interfaceSpeed) {
        s.Fail();
        summary := summary + FailLine(s.switchName, eth, speed);
      }
    }
  }

  /** `LineReport` in the terms the loop body computes it in. */
  lemma LineReportCases(sw: string, channel: string, raw: string, redis: string)
    requires SetsSpeed(Strip(raw)) ==> Parses(channel, Strip(raw))
    ensures !Contains(Strip(raw), "speed") ==> LineReport(sw, channel, raw, redis) == ""
    ensures Contains(Strip(raw), "speed") ==>
              var given := Split(Strip(raw), "speed ")[1];
              var speed := if given == "auto" then "autoneg" else given;
              var eth := Words(Split(Strip(raw), channel + " ")[1])[0];
              && FailLine(sw, eth, speed) != ""
              && LineReport(sw, channel, raw, redis) == if Contains(redis, eth + ": " + speed) then "" else FailLine(sw, eth, speed)
  {
    var line := Strip(raw);
    if Contains(line, "speed") {
      ParsedParts(channel, line);
      FailLineNonEmpty(sw, Eth(channel, line), Speed(line));
    }
  }

  lemma Assoc(a: string, b: string, c: string)
    ensures (a + b) + c == a + (b + c) && b + "" == b
  {
  }

  lemma ReportStep(sw: string, channel: string, lines: seq<string>, i: nat, redis: string)
    requires i < |lines|
    ensures Report(sw, channel, lines[..i + 1], redis)
            == Report(sw, channel, lines[..i], redis) + LineReport(sw, channel, lines[i], redis)
  {
    var parts := Reports(sw, channel, lines, redis);
    ReportsPrefix(sw, channel, lines, i + 1, redis);
    ReportsPrefix(sw, channel, lines, i, redis);
    assert parts[..i + 1] == parts[..i] + [parts[i]];
    ConcatAppend(parts[..i], parts[i]);
  }

  lemma ReportsPrefix(sw: string, channel: string, lines: seq<string>, k: nat, redis: string)
    requires k <= |lines|
    ensures Reports(sw, channel, lines[..k], redis) == Reports(sw, channel, lines, redis)[..k]
  {
  }

  lemma FailLineNonEmpty(sw: string, eth: string, speed: string)
    ensures FailLine(sw, eth, speed) != ""
  {
    assert FailLine(sw, eth, speed)[0] == 'O';
  }

  /** `main` */
  method RunModule(s: Session, channel: string, startFile: string) returns (text: string)
    modifies s
    requires Truncating(s.policy)
    requires WellFormed(channel, startFile)
    requires Answers(s.E(), SpeedCmd(channel))
    ensures s.St() == StatusThenDetail(Steps(s.E(), Acc(old(s.St()), ""), Script(s.switchName, channel, startFile)),
                                       "result.detail")
    ensures text == LogText(s.dict)
  {
    ghost var a := Acc(s.St(), "");
    var lines := SplitLines(startFile);
    var summary, redis := s.Check(SpeedCmd(channel), Ignore, "");
    summary := CheckSpeeds(s, channel, lines, redis, summary);
    ExecJudged(s.E(), a, SpeedCmd(channel), SpeedJudge(s.switchName, channel, lines));
    StepsOne(s.E(), a, Script(s.switchName, channel, startFile)[0]);
    s.StoreStatus();
    s.Store("result.detail", Some(summary));
    text := WriteLog(s.dict);
  }

  // ---------------------------------------------------------------------
  // Properties

  /**
   * The redis speeds fail the test exactly when some line of the start file
   * sets a speed that redis does not show for its interface.
   */
  lemma ReportSpec(sw: string, channel: string, lines: seq<string>, redis: string)
    ensures Report(sw, channel, lines, redis) != ""
            <==> exists i :: 0 <= i < |lines| && LineReport(sw, channel, lines[i], redis) != ""
  {
    var parts := Reports(sw, channel, lines, redis);
    ConcatEmpty(parts);
    if Concat(parts) != "" {
      var i :| 0 <= i < |parts| && parts[i] != "";
      assert LineReport(sw, channel, lines[i], redis) != "";
    }
    if exists i :: 0 <= i < |lines| && LineReport(sw, channel, lines[i], redis) != "" {
      var i :| 0 <= i < |lines| && LineReport(sw, channel, lines[i], redis) != "";
      assert parts[i] != "";
    }
  }

  /** A line adds to the narrative exactly when it sets a speed redis does not show. */
  lemma LineReportSpec(sw: string, channel: string, raw: string, redis: string)
    ensures LineReport(sw, channel, raw, redis) != "" <==> Mismatch(channel, raw, redis)
  {
    if Mismatch(channel, raw, redis) {
      FailLineNonEmpty(sw, Eth(channel, Strip(raw)), Speed(Strip(raw)));
    }
  }

  /** The judge follows the narrative: it fails with it, or passes when it is empty. */
  lemma SpeedSpec(sw: string, channel: string, lines: seq<string>, redis: string)
    ensures SpeedJudge(sw, channel, lines)(Some(redis)).Fail?
            <==> exists i :: 0 <= i < |lines| && Mismatch(channel, lines[i], redis)
    ensures !SpeedJudge(sw, channel, lines)(Some(redis)).Note?
  {
    ReportSpec(sw, channel, lines, redis);
    forall i | 0 <= i < |lines|
      ensures LineReport(sw, channel, lines[i], redis) != "" <==> Mismatch(channel, lines[i], redis)
    {
      LineReportSpec(sw, channel, lines[i], redis);
    }
  }

  /** Lines that set no speed never fail the test. */
  lemma QuietLines(sw: string, channel: string, raw: string, redis: string)
    requires !SetsSpeed(Strip(raw))
    ensures LineReport(sw, channel, raw, redis) == ""
  {
  }

  /** The start file's 'auto' is looked up in redis as 'autoneg'; any other speed as written. */
  lemma AutoIsAutoneg(channel: string, line: string)
    ensures Field(line, "speed ", 1) == "auto" ==> Expected(channel, line) == Eth(channel, line) + ": autoneg"
    ensures Field(line, "speed ", 1) != "auto" ==> Expected(channel, line) == Eth(channel, line) + ": " + Field(line, "speed ", 1)
  {
  }

  /**
   * The speed is the text after 'speed ' up to any further 'speed ', and
   * the interface is a single word found after '<channel> '.
   */
  lemma ParsedParts(channel: string, line: string)
    requires Parses(channel, line)
    ensures Field(line, "speed ", 1) == Split(line, "speed ")[1]
    ensures IsWord(Eth(channel, line)) && Eth(channel, line) == Words(Split(line, channel + " ")[1])[0]
  {
  }

  /**
   * Run from an empty dictionary, the module lists `result.status` and
   * then `result.detail` last, and `result.detail` holds the narrative.
   */
  lemma ClosingKeys(e: Env, m: Sim, channel: string, startFile: string)
    requires Keys(m.dict) == []
    ensures var a := Steps(e, Acc(m, ""), Script(e.switchName, channel, startFile));
            var d := StatusThenDetail(a, "result.detail").dict;
            |Keys(d)| >= 2 && Keys(d)[|Keys(d)| - 2..] == ["result.status", "result.detail"]
            && Get(d, "result.detail") == Some(Some(a.log))
  {
    var r := Script(e.switchName, channel, startFile);
    assert r[0].Rec?;
    StatusBeforeDetail(e, Acc(m, ""), r, "result.detail");
  }
}
