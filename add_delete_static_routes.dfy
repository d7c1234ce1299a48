/**
 * `core/add_delete_static_routes.py`: run every line of a configuration
 * block as a command, rewriting 'add' to 'del' when routes are to be
 * deleted, and report each line run.
 */
module AddDeleteStaticRoutes {
  import opened PyStr
  import opened Recorder

  /** `line.replace('add', 'del')` when deleting, the line itself otherwise. */
  function Rewrite(line: string, delete: bool): string {
    if delete then Replace(line, "add", "del") else line
  }

  /** The commands run, one per configuration line, in order. */
  function Rewritten(lines: seq<string>, delete: bool): seq<string> {
    seq(|lines|, i requires 0 <= i < |lines| => Rewrite(lines[i], delete))
  }

  /** `"On switch {}, executed '{}'".format(switch_name, line)` */
  function Executed(sw: string, line: string): string {
    "On switch " + sw + ", executed '" + line + "'"
  }

  /** The reports of the lines run, concatenated without separator. */
  function Message(sw: string, lines: seq<string>): string {
    Concat(seq(|lines|, i requires 0 <= i < |lines| => Executed(sw, lines[i])))
  }

  /** `main`: run each (rewritten) line once and collect the report. */
  method RunModule(s: Session, sw: string, configFile: string, delete: bool) returns (msg: string)
    modifies s
    ensures s.St() == old(s.St()).(history := old(s.history) + Rewritten(SplitLines(configFile), delete))
    ensures msg == Message(sw, Rewritten(SplitLines(configFile), delete))
  {
    var lines := SplitLines(configFile);
    ghost var st0 := s.St();
    ghost var run := Rewritten(lines, delete);
    msg := "";
    var i := 0;
    while i < |lines|
      invariant 0 <= i <= |lines|
      invariant s.St() == st0.(history := st0.history + run[..i])
      invariant msg == Message(sw, run[..i])
    {
      var line := lines[i];
      if delete {
        line := Replace(line, "add", "del");
      }
      var _ := s.RunCli(line);
      MessageSnoc(sw, run[..i], line);
      assert run[..i + 1] == run[..i] + [line];
      msg := msg + Executed(sw, line);
      i := i + 1;
    }
    assert run[..|lines|] == run;
  }

  lemma MessageSnoc(sw: string, lines: seq<string>, line: string)
    ensures Message(sw, lines + [line]) == Message(sw, lines) + Executed(sw, line)
  {
    var parts := seq(|lines|, i requires 0 <= i < |lines| => Executed(sw, lines[i]));
    assert seq(|lines + [line]|, i requires 0 <= i < |lines + [line]| => Executed(sw, (lines + [line])[i]))
           == parts + [Executed(sw, line)];
    ConcatAppend(parts, Executed(sw, line));
  }

  // ---------------------------------------------------------------------
  // Properties

  /**
   * One command per configuration line, in order: the line itself when
   * not deleting; when deleting, a line of the same length that differs
   * only where 'add' occurred.
   */
  lemma RewrittenSpec(lines: seq<string>, delete: bool)
    ensures |Rewritten(lines, delete)| == |lines|
    ensures !delete ==> Rewritten(lines, delete) == lines
    ensures forall i :: 0 <= i < |lines| ==> |Rewritten(lines, delete)[i]| == |lines[i]|
    ensures forall i :: 0 <= i < |lines| && !Contains(lines[i], "add") ==> Rewritten(lines, delete)[i] == lines[i]
  {
    forall i | 0 <= i < |lines|
      ensures |Rewrite(lines[i], delete)| == |lines[i]|
      ensures !Contains(lines[i], "add") ==> Rewrite(lines[i], delete) == lines[i]
    {
      ReplaceLength(lines[i], "add", "del");
      if !Contains(lines[i], "add") {
        ReplaceAbsent(lines[i], "add", "del");
      }
    }
  }

  /** The report is one piece per line run, glued without separator. */
  lemma MessageAppend(sw: string, xs: seq<string>, ys: seq<string>)
    ensures Message(sw, xs + ys) == Message(sw, xs) + Message(sw, ys)
  {
    var px := seq(|xs|, i requires 0 <= i < |xs| => Executed(sw, xs[i]));
    var py := seq(|ys|, i requires 0 <= i < |ys| => Executed(sw, ys[i]));
    assert seq(|xs + ys|, i requires 0 <= i < |xs + ys| => Executed(sw, (xs + ys)[i])) == px + py;
    ConcatSplit(px, py);
  }

  /**
   * Since the lines come from `splitlines()`, the report holds no line
   * break when the switch name holds none: however many lines are run, it
   * is a single line of text.
   */
  lemma MessageOneLine(sw: string, configFile: string, delete: bool)
    requires forall k :: 0 <= k < |sw| ==> !IsBreak(sw[k])
    ensures var msg := Message(sw, Rewritten(SplitLines(configFile), delete));
            forall k :: 0 <= k < |msg| ==> !IsBreak(msg[k])
  {
    var lines := SplitLines(configFile);
    var run := Rewritten(lines, delete);
    forall i | 0 <= i < |run|
      ensures forall k :: 0 <= k < |run[i]| ==> !IsBreak(run[i][k])
    {
      if delete {
        ReplaceKeepsNoBreak(lines[i], "add", "del");
      }
    }
    NoBreakMessage(sw, run);
  }

  lemma {:induction false} ReplaceKeepsNoBreak(s: string, pat: string, rep: string)
    requires |pat| > 0
    requires forall k :: 0 <= k < |s| ==> !IsBreak(s[k])
    requires forall k :: 0 <= k < |rep| ==> !IsBreak(rep[k])
    ensures forall k :: 0 <= k < |Replace(s, pat, rep)| ==> !IsBreak(Replace(s, pat, rep)[k])
    decreases |s|
  {
    if |s| >= |pat| {
      if s[..|pat|] == pat {
        ReplaceKeepsNoBreak(s[|pat|..], pat, rep);
      } else {
        ReplaceKeepsNoBreak(s[1..], pat, rep);
      }
    }
  }

  lemma {:induction false} NoBreakMessage(sw: string, lines: seq<string>)
    requires forall k :: 0 <= k < |sw| ==> !IsBreak(sw[k])
    requires forall i, k :: 0 <= i < |lines| && 0 <= k < |lines[i]| ==> !IsBreak(lines[i][k])
    ensures forall k :: 0 <= k < |Message(sw, lines)| ==> !IsBreak(Message(sw, lines)[k])
    decreases |lines|
  {
    if lines != [] {
      var rest := lines[1..];
      NoBreakMessage(sw, rest);
      MessageAppend(sw, [lines[0]], rest);
      assert [lines[0]] + rest == lines;
      var one := Executed(sw, lines[0]);
      assert Message(sw, [lines[0]]) == one by {
        assert seq(1, i requires 0 <= i < 1 => Executed(sw, [lines[0]][i])) == [one];
        assert Concat([one]) == one + Concat([]);
      }
      assert forall k :: 0 <= k < |one| ==> !IsBreak(one[k]);
    }
  }
}
