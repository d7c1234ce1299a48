/**
 * `issues/verify_fib_routes.py`: the switch must hold at least 1550 routes,
 * both in the kernel routing table and in the goes forwarding table.
 */
module VerifyFibRoutes {
  import opened Wrappers
  import opened PyStr
  import opened Recorder
  import opened OrderedDict

  const IpRoutes: string := "ip route show"
  const FibRoutes: string := "goes vnet show ip fib"

  /** The least number of routes each table must list. */
  const MinRoutes: nat := 1550

  /** The narrative, which has no line break of its own. */
  function FailLine(sw: string): string {
    "On switch " + sw + " " + "there are less than 1550 routes available"
  }

  /** Both listings have at least 1550 lines. */
  predicate Enough(ip: string, fib: string) {
    |SplitLines(ip)| >= MinRoutes && |SplitLines(fib)| >= MinRoutes
  }

  /**
   * The route count test, made once the forwarding table has been listed,
   * on the routing table `ip` and the forwarding table (both of which the
   * caller ensures are not `None`).
   */
  function CountJudge(sw: string, ip: Output): Output -> Verdict {
    (o: Output) =>
      if ip.Some? && o.Some? && !Enough(ip.value, o.value) then Fail(FailLine(sw)) else Pass
  }

  /** Everything `main` records, once the routing table has been listed as `ip`. */
  function Script(sw: string, ip: Output): seq<Op> {
    [Rec(IpRoutes, Ignore), Rec(FibRoutes, CountJudge(sw, ip))]
  }

  /** `main`, with the outputs kept in full for the test and cut to 512 characters in the records. */
  method RunModule(s: Session) returns (text: string)
    modifies s
    requires Truncating(s.policy)
    requires Answers(s.E(), IpRoutes) && Answers(s.E(), FibRoutes)
    ensures s.St() == StatusThenDetail(Steps(s.E(), Acc(old(s.St()), ""),
                                             Script(s.switchName, ExecOut(s.E(), old(s.St()), IpRoutes))),
                                       "result.detail")
    ensures text == LogText(s.dict)
  {
    ghost var a := Acc(s.St(), "");
    var summary, ip := s.Check(IpRoutes, Ignore, "");
    var fib;
    summary, fib := s.Check(FibRoutes, CountJudge(s.switchName, ip), summary);
    StepsTwo(s.E(), a, Script(s.switchName, ip));
    s.StoreStatus();
    s.Store("result.detail", Some(summary));
    text := WriteLog(s.dict);
  }

  // ---------------------------------------------------------------------
  // Properties

  /** The test fails exactly when either table lists fewer than 1550 lines; it never adds a note. */
  lemma CountSpec(sw: string, ip: string, fib: string)
    ensures CountJudge(sw, Some(ip))(Some(fib)).Fail?
            <==> |SplitLines(ip)| < MinRoutes || |SplitLines(fib)| < MinRoutes
    ensures !CountJudge(sw, Some(ip))(Some(fib)).Note?
  {
  }

  /** A listing shorter than 1550 characters cannot hold 1550 lines, so it always fails the test. */
  lemma ShortListingFails(sw: string, ip: string, fib: string)
    requires |ip| < MinRoutes || |fib| < MinRoutes
    ensures CountJudge(sw, Some(ip))(Some(fib)) == Fail(FailLine(sw))
  {
    SplitLinesBound(ip);
    SplitLinesBound(fib);
  }

  /**
   * The test is made on the whole output, not on what is recorded: when it
   * passes, both outputs are recorded cut to their first 512 characters,
   * so the log can never show the routes counted.
   */
  lemma PassRecordsCutOutputs(sw: string, ip: string, fib: string)
    requires CountJudge(sw, Some(ip))(Some(fib)) == Pass
    ensures |ip| > StoreLimit && Stored(true, Some(ip)) == Some(ip[..StoreLimit])
    ensures |fib| > StoreLimit && Stored(true, Some(fib)) == Some(fib[..StoreLimit])
  {
    SplitLinesBound(ip);
    SplitLinesBound(fib);
  }

  /**
   * Run from an empty dictionary, the module lists `result.status` and
   * then `result.detail` last, and `result.detail` holds the narrative.
   */
  lemma ClosingKeys(e: Env, m: Sim, ip: Output)
    requires Keys(m.dict) == []
    ensures var a := Steps(e, Acc(m, ""), Script(e.switchName, ip));
            var d := StatusThenDetail(a, "result.detail").dict;
            |Keys(d)| >= 2 && Keys(d)[|Keys(d)| - 2..] == ["result.status", "result.detail"]
            && Get(d, "result.detail") == Some(Some(a.log))
  {
    var r := Script(e.switchName, ip);
    assert r[0].Rec? && r[1].Rec?;
    StatusBeforeDetail(e, Acc(m, ""), r, "result.detail");
  }
}
