/**
 * `core/get_failure_summary.py`: for every failed test case named in a
 * regression summary report, fetch the stored `result.detail` from redis and
 * assemble the failure narratives into output lines, a `"\n"` element
 * separating one failed test case from the next.
 */
module FailureSummary {
  import opened Wrappers
  import opened PyStr
  import opened PyList
  import opened Recorder

  /** A report line of a failed test case. */
  predicate Failing(line: string) {
    Contains(line, "Failed")
  }

  /** `line.split()[0][:-1]`: the first word of a report line without its last character. */
  function HashName(line: string): string {
    var w := Word(line, 0);
    if |w| == 0 then "" else w[..|w| - 1]
  }

  /** The redis query of a test case's narrative. */
  function HgetCmd(line: string): string {
    "redis-cli -p 9090 " + "--raw hget " + HashName(line) + " " + "result.detail"
  }

  /**
   * The narrative of a failed test case as the module shows it: 'None' for
   * whitespace-only output; `None` where Python raises (the query printed
   * nothing at all).
   */
  function Detail(out: Output): Option<string> {
    match out
    case None => None
    case Some(s) => Some(if IsSpaceOnly(s) then "None" else s)
  }

  /** The queries the report lines `lines` make, in order: one per failed line. */
  function Cmds(lines: seq<string>): seq<string>
    decreases |lines|
  {
    if lines == [] then []
    else
      var last := lines[|lines| - 1];
      Cmds(lines[..|lines| - 1]) + CmdOf(last)
  }

  /** The query a report line makes: one for a failed line, none otherwise. */
  function CmdOf(line: string): seq<string> {
    if Failing(line) then [HgetCmd(line)] else []
  }

  /**
   * The `summary` the first loop builds from `sum` over `lines`, with the
   * queries answered by `w` after the processes `h`: every failed line
   * followed by its narrative. `None` where Python raises.
   */
  function Gather(w: World, h: seq<string>, sum: string, lines: seq<string>): Option<string>
    decreases |lines|
  {
    if lines == [] then Some(sum)
    else
      match Add(w, h, sum, lines[0])
      case None => None
      case Some(next) => Gather(w, h + CmdOf(lines[0]), next, lines[1..])
  }

  /** One turn of the first loop: a failed line adds itself and its narrative, queried after the processes `h`. */
  function Add(w: World, h: seq<string>, sum: string, line: string): Option<string> {
    if !Failing(line) then Some(sum)
    else
      match Detail(Answer(w(h, HgetCmd(line)), false))
      case None => None
      case Some(d) => Some(sum + line + d)
  }

  /** `filter(bool, lines)`: the non-empty lines. */
  function NonEmpty(lines: seq<string>): (r: seq<string>)
    decreases |lines|
  {
    if lines == [] then []
    else NonEmpty(lines[..|lines| - 1]) + (if lines[|lines| - 1] == "" then [] else [lines[|lines| - 1]])
  }

  /** What line `k` of `ls` contributes: itself, after a `"\n"` when it is a failed line not first found at index 0. */
  function Piece(ls: seq<string>, k: nat): seq<string>
    requires k < |ls|
  {
    if Failing(ls[k]) && IndexOf(ls, ls[k]) != 0 then ["\n", ls[k]] else [ls[k]]
  }

  /** The output lines for the first `n` summary lines. */
  function Separated(ls: seq<string>, n: nat): seq<string>
    requires n <= |ls|
  {
    if n == 0 then [] else Separated(ls, n - 1) + Piece(ls, n - 1)
  }

  /** The `stdout_lines` the module returns, or `None` where Python raises. */
  function Summary(w: World, h: seq<string>, report: string): Option<seq<string>> {
    match Gather(w, h, "", SplitLines(report))
    case None => None
    case Some(sum) =>
      if sum == "" then Some([])
      else
        var ls := NonEmpty(SplitLines(sum));
        Some(Separated(ls, |ls|))
  }

  /** The second loop of `main`: insert the separators. */
  method Separate(ls: seq<string>) returns (r: seq<string>)
    ensures r == Separated(ls, |ls|)
  {
    r := [];
    var i := 0;
    while i < |ls|
      invariant 0 <= i <= |ls|
      invariant r == Separated(ls, i)
    {
      if Failing(ls[i]) && IndexOf(ls, ls[i]) != 0 {
        r := r + ["\n"];
        r := r + [ls[i]];
      } else {
        r := r + [ls[i]];
      }
      i := i + 1;
    }
  }

  /** `filter(bool, lines)`, as a loop. */
  method KeepNonEmpty(lines: seq<string>) returns (r: seq<string>)
    ensures r == NonEmpty(lines)
  {
    r := [];
    var i := 0;
    while i < |lines|
      invariant 0 <= i <= |lines|
      invariant r == NonEmpty(lines[..i])
    {
      assert lines[..i + 1][..i] == lines[..i];
      if lines[i] != "" {
        r := r + [lines[i]];
      }
      i := i + 1;
    }
    assert lines[..|lines|] == lines;
  }

  /**
   * `main`, given the report: query redis for every failed test case, then
   * assemble the lines. Only `run_cli` is used, so nothing is recorded.
   */
  method RunModule(s: Session, report: string) returns (r: Option<seq<string>>)
    modifies s
    requires !s.policy.strip
    ensures r == Summary(s.world, old(s.history), report)
    ensures r.Some? ==> s.history == old(s.history) + Cmds(SplitLines(report))
    ensures s.dict == old(s.dict) && s.status == old(s.status)
  {
    var summary := Collect(s, SplitLines(report));
    if summary.None? {
      return None;
    }
    if summary.value == "" {
      return Some([]);
    }
    var kept := KeepNonEmpty(SplitLines(summary.value));
    var failureSummary := Separate(kept);
    r := Some(failureSummary);
  }

  /** The first loop of `main`: one query per failed line. */
  method Collect(s: Session, lines: seq<string>) returns (r: Option<string>)
    modifies s
    requires !s.policy.strip
    ensures r == Gather(s.world, old(s.history), "", lines)
    ensures r.Some? ==> s.history == old(s.history) + Cmds(lines)
    ensures s.dict == old(s.dict) && s.status == old(s.status)
  {
    ghost var h0 := s.history;
    var summary := "";
    var i := 0;
    while i < |lines|
      invariant 0 <= i <= |lines|
      invariant s.history == h0 + Cmds(lines[..i])
      invariant Gather(s.world, s.history, summary, lines[i..]) == Gather(s.world, h0, "", lines)
      invariant s.dict == old(s.dict) && s.status == old(s.status)
    {
      ghost var h := s.history;
      var next := AddLine(s, lines[i], summary);
      GatherCons(s.world, h, summary, lines, i);
      if next.None? {
        return None;
      }
      CmdsSnoc(h0, lines, i);
      summary := next.value;
      i := i + 1;
    }
    assert lines[..|lines|] == lines;
    r := Some(summary);
  }

  /** The body of the first loop. */
  method AddLine(s: Session, line: string, summary0: string) returns (r: Option<string>)
    modifies s
    requires !s.policy.strip
    ensures r == Add(s.world, old(s.history), summary0, line)
    ensures s.history == old(s.history) + CmdOf(line)
    ensures s.dict == old(s.dict) && s.status == old(s.status)
  {
    r := Some(summary0);
    if Failing(line) {
      var out := s.RunCli(HgetCmd(line));
      if out.None? {
        return None;
      }
      var detail := if IsSpaceOnly(out.value) then "None" else out.value;
      r := Some(summary0 + line + detail);
    }
  }

  lemma GatherCons(w: World, h: seq<string>, sum: string, lines: seq<string>, i: nat)
    requires i < |lines|
    ensures Gather(w, h, sum, lines[i..])
            == match Add(w, h, sum, lines[i])
               case None => None
               case Some(next) => Gather(w, h + CmdOf(lines[i]), next, lines[i + 1..])
  {
    assert lines[i..][1..] == lines[i + 1..];
  }

  lemma CmdsSnoc(h: seq<string>, lines: seq<string>, i: nat)
    requires i < |lines|
    ensures h + Cmds(lines[..i]) + CmdOf(lines[i]) == h + Cmds(lines[..i + 1])
  {
    assert lines[..i + 1][..i] == lines[..i];
  }

  // ---------------------------------------------------------------------
  // Properties

  /** A report without failed test cases makes no query and gives no lines. */
  lemma {:induction false} NoFailures(w: World, h: seq<string>, sum: string, lines: seq<string>)
    requires forall k :: 0 <= k < |lines| ==> !Failing(lines[k])
    ensures Gather(w, h, sum, lines) == Some(sum) && Cmds(lines) == []
    decreases |lines|
  {
    if lines != [] {
      assert !Failing(lines[0]);
      assert h + CmdOf(lines[0]) == h;
      NoFailures(w, h, sum, lines[1..]);
      NoFailuresCmds(lines);
    }
  }

  lemma {:induction false} NoFailuresCmds(lines: seq<string>)
    requires forall k :: 0 <= k < |lines| ==> !Failing(lines[k])
    ensures Cmds(lines) == []
    decreases |lines|
  {
    if lines != [] {
      NoFailuresCmds(lines[..|lines| - 1]);
    }
  }

  /** The report of a run without failures gives `[]`. */
  lemma NoFailuresNoLines(w: World, h: seq<string>, report: string)
    requires forall k :: 0 <= k < |SplitLines(report)| ==> !Failing(SplitLines(report)[k])
    ensures Summary(w, h, report) == Some([])
  {
    NoFailures(w, h, "", SplitLines(report));
  }

  /** The queries are one per failed line, in the order of the report. */
  lemma {:induction false} CmdsSpec(lines: seq<string>)
    ensures |Cmds(lines)| == |FailedLines(lines)|
    ensures forall k :: 0 <= k < |Cmds(lines)| ==> Cmds(lines)[k] == HgetCmd(FailedLines(lines)[k])
    decreases |lines|
  {
    if lines != [] {
      CmdsSpec(lines[..|lines| - 1]);
    }
  }

  /** The failed lines of a report, in order. */
  function FailedLines(lines: seq<string>): seq<string>
    decreases |lines|
  {
    if lines == [] then []
    else
      var last := lines[|lines| - 1];
      FailedLines(lines[..|lines| - 1]) + (if Failing(last) then [last] else [])
  }

  /**
   * A failed line adds itself and its narrative to the summary, 'None' in
   * place of whitespace-only output; other lines add nothing.
   */
  lemma AddSpec(w: World, h: seq<string>, sum: string, line: string)
    ensures var out := Answer(w(h, HgetCmd(line)), false);
            (!Failing(line) ==> Add(w, h, sum, line) == Some(sum))
            && (Failing(line) && out.Some? ==>
                  Add(w, h, sum, line) == Some(sum + line + (if IsSpaceOnly(out.value) then "None" else out.value)))
            && (Failing(line) && out.None? ==> Add(w, h, sum, line) == None)
  {
  }

  /** The summary only grows: what the earlier lines added stays its prefix. */
  lemma {:induction false} GatherGrows(w: World, h: seq<string>, sum: string, lines: seq<string>)
    requires Gather(w, h, sum, lines).Some?
    ensures sum <= Gather(w, h, sum, lines).value
    decreases |lines|
  {
    if lines != [] {
      var next := Add(w, h, sum, lines[0]).value;
      GatherGrows(w, h + CmdOf(lines[0]), next, lines[1..]);
    }
  }

  /** Separators are never output lines: no summary line is `"\n"`. */
  lemma {:induction false} NonEmptyNoBreak(lines: seq<string>)
    requires forall k :: 0 <= k < |lines| ==> forall m :: 0 <= m < |lines[k]| ==> !IsBreak(lines[k][m])
    ensures forall k :: 0 <= k < |NonEmpty(lines)| ==> NonEmpty(lines)[k] != "" && NonEmpty(lines)[k] != "\n"
    decreases |lines|
  {
    if lines != [] {
      var last := lines[|lines| - 1];
      NonEmptyNoBreak(lines[..|lines| - 1]);
      if last != "" {
        assert !IsBreak(last[0]);
      }
    }
  }

  /** The output lines without the separators. */
  function Unseparate(r: seq<string>): seq<string>
    decreases |r|
  {
    if r == [] then []
    else Unseparate(r[..|r| - 1]) + (if r[|r| - 1] == "\n" then [] else [r[|r| - 1]])
  }

  lemma {:induction false} UnseparateAppend(a: seq<string>, b: seq<string>)
    ensures Unseparate(a + b) == Unseparate(a) + Unseparate(b)
    decreases |b|
  {
    if b == [] {
      assert a + b == a;
    } else {
      var b0 := b[..|b| - 1];
      assert (a + b)[..|a + b| - 1] == a + b0;
      UnseparateAppend(a, b0);
    }
  }

  /** Removing the separators gives back the summary lines, in order. */
  lemma {:induction false} SeparatedRoundTrip(ls: seq<string>, n: nat)
    requires n <= |ls|
    requires forall k :: 0 <= k < |ls| ==> ls[k] != "\n"
    ensures Unseparate(Separated(ls, n)) == ls[..n]
  {
    if n > 0 {
      SeparatedRoundTrip(ls, n - 1);
      RoundTripNext(ls, n - 1);
    }
  }

  /** One more summary line: its piece gives back exactly that line. */
  lemma RoundTripNext(ls: seq<string>, i: nat)
    requires i < |ls| && ls[i] != "\n" && Unseparate(Separated(ls, i)) == ls[..i]
    ensures Unseparate(Separated(ls, i + 1)) == ls[..i + 1]
  {
    UnseparatePiece(ls, i);
    RoundTripStep(ls, i, Separated(ls, i), Piece(ls, i), Separated(ls, i + 1));
  }

  lemma RoundTripStep(ls: seq<string>, i: nat, done: seq<string>, piece: seq<string>, whole: seq<string>)
    requires i < |ls| && whole == done + piece
    requires Unseparate(done) == ls[..i] && Unseparate(piece) == [ls[i]]
    ensures Unseparate(whole) == ls[..i + 1]
  {
    UnseparateAppend(done, piece);
    PrefixSnoc(Unseparate(done), Unseparate(piece), Unseparate(done + piece), ls, i);
  }

  lemma PrefixSnoc(x: seq<string>, y: seq<string>, xy: seq<string>, ls: seq<string>, i: nat)
    requires i < |ls| && xy == x + y && x == ls[..i] && y == [ls[i]]
    ensures xy == ls[..i + 1]
  {
    assert ls[..i + 1] == ls[..i] + [ls[i]];
  }

  lemma UnseparatePiece(ls: seq<string>, k: nat)
    requires k < |ls| && ls[k] != "\n"
    ensures Unseparate(Piece(ls, k)) == [ls[k]]
  {
    var x := ls[k];
    assert Unseparate([x]) == [x] by {
      assert [x][..0] == [];
    }
    assert Unseparate(["\n", x]) == [x] by {
      assert ["\n", x][..1] == ["\n"];
      assert ["\n"][..0] == [];
    }
  }

  /**
   * A summary line gets a separator exactly when it is a failed line that
   * differs from the first summary line: copies of line 0 get none.
   */
  lemma SeparatorSpec(ls: seq<string>, k: nat)
    requires k < |ls|
    ensures Piece(ls, k) == (if Failing(ls[k]) && ls[k] != ls[0] then ["\n", ls[k]] else [ls[k]])
  {
  }

  /** The lines of a run that completed: the narrative lines, separated at the failed test cases. */
  lemma SummaryLines(w: World, h: seq<string>, report: string)
    requires Summary(w, h, report).Some?
    ensures var sum := Gather(w, h, "", SplitLines(report)).value;
            Unseparate(Summary(w, h, report).value) == NonEmpty(SplitLines(sum))
  {
    var sum := Gather(w, h, "", SplitLines(report)).value;
    var ls := NonEmpty(SplitLines(sum));
    if sum != "" {
      NonEmptyNoBreak(SplitLines(sum));
      SeparatedRoundTrip(ls, |ls|);
      assert ls[..|ls|] == ls;
    }
  }

  /** The output never starts with a separator. */
  lemma SeparatedHead(ls: seq<string>, n: nat)
    requires 0 < n <= |ls|
    ensures Separated(ls, n)[0] == ls[0]
    decreases n
  {
    if n > 1 {
      SeparatedHead(ls, n - 1);
      assert |Separated(ls, n - 1)| > 0 by { SeparatedLength(ls, n - 1); }
    }
  }

  lemma {:induction false} SeparatedLength(ls: seq<string>, n: nat)
    requires n <= |ls|
    ensures |Separated(ls, n)| >= n
  {
    if n > 0 {
      SeparatedLength(ls, n - 1);
    }
  }
}
