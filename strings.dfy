/**
 * Python 2 string operations used by the Ansible test modules, on
 * `string` = `seq<char>`.  Whitespace, line breaks and case mapping follow
 * Python 2 byte strings: only the ASCII characters are affected.
 */
module PyStr {
  import opened Wrappers

  /** Characters `str.strip()` and `str.split()` treat as whitespace. */
  predicate IsSpace(c: char) {
    c == ' ' || c == '\t' || c == '\n' || c == '\r' || c == '\U{000B}' || c == '\U{000C}'
  }

  predicate IsDigit(c: char) { '0' <= c <= '9' }

  /** `s.startswith(p)` */
  predicate StartsWith(s: string, p: string) {
    |p| <= |s| && s[..|p|] == p
  }

  /** `sub in s`: some suffix of `s` starts with `sub`. */
  predicate Contains(s: string, sub: string) {
    exists i :: 0 <= i <= |s| && StartsWith(s[i..], sub)
  }

  lemma ContainsAt(s: string, sub: string, i: nat)
    requires i + |sub| <= |s| && s[i..i + |sub|] == sub
    ensures Contains(s, sub)
  {
    assert StartsWith(s[i..], sub);
  }

  /** Anything contains the empty string. */
  lemma ContainsEmpty(s: string)
    ensures Contains(s, "")
  {
    assert StartsWith(s[0..], "");
  }

  /** Every string contains itself. */
  lemma ContainsSelf(s: string)
    ensures Contains(s, s)
  {
    assert s[0..] == s;
    assert StartsWith(s[0..], s);
  }

  /** Containment is transitive: a substring of a substring is a substring. */
  lemma ContainsTrans(s: string, t: string, u: string)
    requires Contains(s, t) && Contains(t, u)
    ensures Contains(s, u)
  {
    var i :| 0 <= i <= |s| && StartsWith(s[i..], t);
    var j :| 0 <= j <= |t| && StartsWith(t[j..], u);
    forall k | 0 <= k < |u|
      ensures s[i + j + k] == u[k]
    {
      assert t[j..][k] == u[k];
      assert s[i..][j + k] == t[j + k];
    }
    assert s[i + j..][..|u|] == u;
  }

  /** A string contains whatever a part of it contains. */
  lemma ContainsConcat(a: string, b: string, sub: string)
    requires Contains(a, sub) || Contains(b, sub)
    ensures Contains(a + b, sub)
  {
    if Contains(a, sub) {
      var i :| 0 <= i <= |a| && StartsWith(a[i..], sub);
      assert (a + b)[i..][..|sub|] == a[i..][..|sub|];
      assert StartsWith((a + b)[i..], sub);
    } else {
      var i :| 0 <= i <= |b| && StartsWith(b[i..], sub);
      assert (a + b)[|a| + i..] == b[i..];
      assert StartsWith((a + b)[|a| + i..], sub);
    }
  }

  /** A one-character pattern is contained iff the character occurs. */
  lemma ContainsChar(s: string, c: char)
    ensures Contains(s, [c]) <==> c in s
  {
    if c in s {
      var i :| 0 <= i < |s| && s[i] == c;
      assert s[i..][..1] == [c];
      assert StartsWith(s[i..], [c]);
    }
    if Contains(s, [c]) {
      var i :| 0 <= i <= |s| && StartsWith(s[i..], [c]);
      assert s[i] == c;
    }
  }

  /** `s.rstrip()`: drop trailing whitespace. */
  function RStrip(s: string): (r: string)
    ensures |r| <= |s| && r == s[..|r|]
    ensures r == [] || !IsSpace(r[|r| - 1])
    decreases |s|
  {
    if |s| > 0 && IsSpace(s[|s| - 1]) then RStrip(s[..|s| - 1]) else s
  }

  /** What `rstrip` drops is whitespace. */
  lemma {:induction false} RStripDrops(s: string)
    ensures forall k :: |RStrip(s)| <= k < |s| ==> IsSpace(s[k])
    decreases |s|
  {
    if |s| > 0 && IsSpace(s[|s| - 1]) {
      RStripDrops(s[..|s| - 1]);
    }
  }

  /** `s.lstrip()`: drop leading whitespace. */
  function LStrip(s: string): (r: string)
    ensures |r| <= |s| && r == s[|s| - |r|..]
    ensures r == [] || !IsSpace(r[0])
    decreases |s|
  {
    if |s| > 0 && IsSpace(s[0]) then LStrip(s[1..]) else s
  }

  /** What `lstrip` drops is whitespace. */
  lemma {:induction false} LStripDrops(s: string)
    ensures forall k :: 0 <= k < |s| - |LStrip(s)| ==> IsSpace(s[k])
    decreases |s|
  {
    if |s| > 0 && IsSpace(s[0]) {
      LStripDrops(s[1..]);
    }
  }

  /** `s.strip()` */
  function Strip(s: string): string {
    LStrip(RStrip(s))
  }

  /** `s.isspace()`: non-empty and whitespace only. */
  predicate IsSpaceOnly(s: string) {
    |s| > 0 && forall k :: 0 <= k < |s| ==> IsSpace(s[k])
  }

  /** A string is whitespace-only exactly when it is non-empty and strips to nothing. */
  lemma IsSpaceOnlyStrip(s: string)
    ensures IsSpaceOnly(s) <==> |s| > 0 && RStrip(s) == []
  {
  }

  function LowerChar(c: char): char {
    if 'A' <= c <= 'Z' then (c as int + 32) as char else c
  }

  /** `s.lower()` on the ASCII letters. */
  function Lower(s: string): (r: string)
    ensures |r| == |s|
    ensures forall k :: 0 <= k < |s| ==> r[k] == LowerChar(s[k])
  {
    seq(|s|, k requires 0 <= k < |s| => LowerChar(s[k]))
  }

  /** Lower-casing twice is lower-casing once. */
  lemma LowerIdempotent(s: string)
    ensures Lower(Lower(s)) == Lower(s)
  {
  }

  /** `sep.join(parts)` */
  function Join(sep: string, parts: seq<string>): string
    decreases |parts|
  {
    if |parts| == 0 then ""
    else if |parts| == 1 then parts[0]
    else parts[0] + sep + Join(sep, parts[1..])
  }

  /** Concatenation without separator: `''.join(parts)`. */
  function Concat(parts: seq<string>): string
    decreases |parts|
  {
    if |parts| == 0 then "" else parts[0] + Concat(parts[1..])
  }

  lemma ConcatAppend(parts: seq<string>, p: string)
    ensures Concat(parts + [p]) == Concat(parts) + p
    decreases |parts|
  {
    if |parts| > 0 {
      assert (parts + [p])[1..] == parts[1..] + [p];
      ConcatAppend(parts[1..], p);
    }
  }

  /** `''.join(parts)` is empty exactly when every part is. */
  /** One more part at the end of a prefix. */
  lemma ConcatPrefix(parts: seq<string>, i: nat)
    requires i < |parts|
    ensures Concat(parts[..i + 1]) == Concat(parts[..i]) + parts[i]
  {
    assert parts[..i + 1] == parts[..i] + [parts[i]];
    ConcatAppend(parts[..i], parts[i]);
  }

  lemma {:induction false} ConcatEmpty(parts: seq<string>)
    ensures Concat(parts) == "" <==> forall i :: 0 <= i < |parts| ==> parts[i] == ""
    decreases |parts|
  {
    if |parts| > 0 {
      ConcatEmpty(parts[1..]);
      assert forall i :: 0 < i < |parts| ==> parts[i] == parts[1..][i - 1];
    }
  }

  lemma ConcatSplit(a: seq<string>, b: seq<string>)
    ensures Concat(a + b) == Concat(a) + Concat(b)
    decreases |a|
  {
    if |a| > 0 {
      assert (a + b)[1..] == a[1..] + b;
      ConcatSplit(a[1..], b);
    } else {
      assert a + b == b;
    }
  }

  /** Index of the first occurrence of `sep` in `s`, or `|s|` when there is none. */
  function FindFrom(s: string, sep: string, i: nat): (r: nat)
    requires |sep| > 0 && i <= |s|
    ensures i <= r <= |s|
    ensures r < |s| ==> r + |sep| <= |s| && s[r..r + |sep|] == sep
    decreases |s| - i
  {
    if i + |sep| > |s| then |s|
    else if s[i..i + |sep|] == sep then i
    else FindFrom(s, sep, i + 1)
  }

  /** No occurrence of `sep` starts before the one `FindFrom` reports. */
  lemma {:induction false} FindFromFirst(s: string, sep: string, i: nat)
    requires |sep| > 0 && i <= |s|
    ensures forall k :: i <= k < FindFrom(s, sep, i) ==> !StartsWith(s[k..], sep)
    decreases |s| - i
  {
    if i + |sep| <= |s| && s[i..i + |sep|] != sep {
      FindFromFirst(s, sep, i + 1);
    }
  }

  /** `s.split(sep)` for a non-empty separator. */
  function Split(s: string, sep: string): (r: seq<string>)
    requires |sep| > 0
    ensures |r| >= 1
    decreases |s|
  {
    var j := FindFrom(s, sep, 0);
    if j == |s| then [s] else [s[..j]] + Split(s[j + |sep|..], sep)
  }

  lemma NoSepBefore(s: string, sep: string, j: nat)
    requires |sep| > 0 && j <= |s|
    requires forall k :: 0 <= k < j ==> !StartsWith(s[k..], sep)
    requires j == |s| || (j + |sep| <= |s| && s[j..j + |sep|] == sep)
    ensures !Contains(s[..j], sep)
  {
    forall i | 0 <= i <= j
      ensures !StartsWith(s[..j][i..], sep)
    {
      if i + |sep| <= j {
        assert s[..j][i..][..|sep|] == s[i..][..|sep|];
      }
    }
  }

  /** No field of `s.split(sep)` contains the separator. */
  lemma {:induction false} SplitNoSep(s: string, sep: string)
    requires |sep| > 0
    ensures forall k :: 0 <= k < |Split(s, sep)| ==> !Contains(Split(s, sep)[k], sep)
    decreases |s|
  {
    var j := FindFrom(s, sep, 0);
    FindFromFirst(s, sep, 0);
    NoSepBefore(s, sep, j);
    if j < |s| {
      SplitNoSep(s[j + |sep|..], sep);
    }
  }

  /** Splitting and joining on the same separator gives back the input. */
  lemma {:induction false} SplitJoin(s: string, sep: string)
    requires |sep| > 0
    ensures Join(sep, Split(s, sep)) == s
    decreases |s|
  {
    var j := FindFrom(s, sep, 0);
    if j < |s| {
      var rest := s[j + |sep|..];
      SplitStep(s, sep, j, rest);
      SplitJoin(rest, sep);
      JoinCons(s[..j], sep, Split(rest, sep));
    } else {
      assert Split(s, sep) == [s];
    }
  }

  /** A separator at `j` splits off the field before it. */
  lemma SplitStep(s: string, sep: string, j: nat, rest: string)
    requires |sep| > 0 && j == FindFrom(s, sep, 0) && j < |s| && rest == s[j + |sep|..]
    ensures Split(s, sep) == [s[..j]] + Split(rest, sep)
    ensures s == s[..j] + sep + rest
  {
    SplitAround(s, sep, j);
  }

  lemma JoinCons(a: string, sep: string, tail: seq<string>)
    requires |tail| >= 1
    ensures Join(sep, [a] + tail) == a + sep + Join(sep, tail)
  {
  }

  lemma SplitAround(s: string, sep: string, j: nat)
    requires j + |sep| <= |s| && s[j..j + |sep|] == sep
    ensures s == s[..j] + sep + s[j + |sep|..]
  {
  }

  /** Field `k` of `s.split(sep)`, or "" when there are fewer fields. */
  /** The first occurrence of a one-character separator after a part free of it. */
  lemma FindAfterPart(p: string, c: char, rest: string)
    requires forall k :: 0 <= k < |p| ==> p[k] != c
    ensures FindFrom(p + [c] + rest, [c], 0) == |p|
  {
    var s := p + [c] + rest;
    FindFromFirst(s, [c], 0);
    assert s[|p|..][..1] == [c];
    var r := FindFrom(s, [c], 0);
    assert r <= |p|;
    assert s[r] == s[r..r + 1][0] == c;
    assert forall k :: 0 <= k < |p| ==> s[k] == p[k];
  }

  /** What `FindFrom` reports for a one-character separator is that character. */
  lemma FindCharAt(s: string, c: char, i: nat)
    requires i <= |s|
    ensures FindFrom(s, [c], i) < |s| ==> s[FindFrom(s, [c], i)] == c
  {
    var r := FindFrom(s, [c], i);
    if r < |s| {
      assert s[r] == s[r..r + 1][0];
    }
  }

  /** Splitting on a one-character separator undoes joining parts free of it. */
  lemma {:induction false} SplitOfJoin(parts: seq<string>, c: char)
    requires |parts| >= 1
    requires forall i, k :: 0 <= i < |parts| && 0 <= k < |parts[i]| ==> parts[i][k] != c
    ensures Split(Join([c], parts), [c]) == parts
    decreases |parts|
  {
    if |parts| == 1 {
      FindCharAt(parts[0], c, 0);
    } else {
      var tail := Join([c], parts[1..]);
      assert Join([c], parts) == parts[0] + [c] + tail;
      FindAfterPart(parts[0], c, tail);
      var s := parts[0] + [c] + tail;
      assert s[..|parts[0]|] == parts[0];
      assert s[|parts[0]| + 1..] == tail;
      SplitOfJoin(parts[1..], c);
      assert [parts[0]] + parts[1..] == parts;
    }
  }

  function Field(s: string, sep: string, k: nat): string
    requires |sep| > 0
  {
    var parts := Split(s, sep);
    if k < |parts| then parts[k] else ""
  }

  /** Index of the first whitespace character at or after `i`, or `|s|`. */
  function WordEnd(s: string, i: nat): (r: nat)
    requires i <= |s|
    ensures i <= r <= |s|
    ensures r < |s| ==> IsSpace(s[r])
    ensures forall k :: i <= k < r ==> !IsSpace(s[k])
    decreases |s| - i
  {
    if i == |s| || IsSpace(s[i]) then i else WordEnd(s, i + 1)
  }

  /** A non-empty run of non-whitespace characters. */
  predicate IsWord(w: string) {
    |w| > 0 && forall m :: 0 <= m < |w| ==> !IsSpace(w[m])
  }

  /** `s.split()`: the maximal runs of non-whitespace characters. */
  function Words(s: string): (r: seq<string>)
    ensures forall k :: 0 <= k < |r| ==> IsWord(r[k])
    decreases |s|
  {
    var t := LStrip(s);
    if t == [] then []
    else
      var j := WordEnd(t, 0);
      FirstWord(t, j);
      WordsCons(t[..j], Words(t[j..]));
      [t[..j]] + Words(t[j..])
  }

  lemma FirstWord(t: string, j: nat)
    requires t != [] && !IsSpace(t[0]) && j <= |t|
    requires forall k :: 0 <= k < j ==> !IsSpace(t[k])
    requires j == |t| || IsSpace(t[j])
    ensures 0 < j && IsWord(t[..j])
  {
  }

  lemma WordsCons(w: string, ws: seq<string>)
    requires IsWord(w) && forall k :: 0 <= k < |ws| ==> IsWord(ws[k])
    ensures forall k :: 0 <= k < |[w] + ws| ==> IsWord(([w] + ws)[k])
  {
  }

  /** Token `k` of `s.split()`, or "" when there are fewer tokens. */
  function Word(s: string, k: nat): string {
    var w := Words(s);
    if k < |w| then w[k] else ""
  }

  /** Line boundaries of a Python 2 byte string. */
  predicate IsBreak(c: char) { c == '\n' || c == '\r' }

  /** Index of the first line-break character at or after `i`, or `|s|`. */
  function LineEnd(s: string, i: nat): (r: nat)
    requires i <= |s|
    ensures i <= r <= |s|
    ensures r < |s| ==> IsBreak(s[r])
    ensures forall k :: i <= k < r ==> !IsBreak(s[k])
    decreases |s| - i
  {
    if i == |s| || IsBreak(s[i]) then i else LineEnd(s, i + 1)
  }

  /** `s.splitlines()`: lines split at "\n", "\r" or "\r\n", no trailing empty line. */
  function SplitLines(s: string): (r: seq<string>)
    ensures forall k, m :: 0 <= k < |r| && 0 <= m < |r[k]| ==> !IsBreak(r[k][m])
    ensures s == [] <==> r == []
    decreases |s|
  {
    if s == [] then []
    else
      var j := LineEnd(s, 0);
      var next := if j + 1 < |s| && s[j] == '\r' && s[j + 1] == '\n' then j + 2
                  else if j < |s| then j + 1 else j;
      [s[..j]] + SplitLines(s[next..])
  }

  /** Number of line-break sequences in `s` ("\r\n" counts once). */
  function Breaks(s: string): nat
    decreases |s|
  {
    if s == [] then 0
    else if |s| >= 2 && s[0] == '\r' && s[1] == '\n' then 1 + Breaks(s[2..])
    else if IsBreak(s[0]) then 1 + Breaks(s[1..])
    else Breaks(s[1..])
  }

  lemma BreaksPrefix(s: string, j: nat)
    requires j <= |s|
    requires forall k :: 0 <= k < j ==> !IsBreak(s[k])
    ensures Breaks(s) == Breaks(s[j..])
    decreases j
  {
    if j > 0 {
      assert s[1..][j - 1..] == s[j..];
      BreaksPrefix(s[1..], j - 1);
    }
  }

  /** There is one line per line break, plus one for an unterminated last line. */
  lemma {:induction false} SplitLinesCount(s: string)
    ensures |SplitLines(s)| == Breaks(s) + (if s != [] && !IsBreak(s[|s| - 1]) then 1 else 0)
    decreases |s|
  {
    if s != [] {
      var j := LineEnd(s, 0);
      var next := if j + 1 < |s| && s[j] == '\r' && s[j + 1] == '\n' then j + 2
                  else if j < |s| then j + 1 else j;
      SplitLinesUnfold(s, j, next);
      BreaksPrefix(s, j);
      if j < |s| {
        BreakAt(s, j, next);
        SplitLinesCount(s[next..]);
        if s[next..] != [] {
          assert s[next..][|s[next..]| - 1] == s[|s| - 1];
        }
      } else {
        assert s[j..] == [];
      }
    }
  }

  /** Every line of `s.splitlines()` holds at least one character of `s` or ends at a break. */
  lemma {:induction false} SplitLinesBound(s: string)
    ensures |SplitLines(s)| <= |s|
    decreases |s|
  {
    if s != [] {
      var j := LineEnd(s, 0);
      var next := if j + 1 < |s| && s[j] == '\r' && s[j + 1] == '\n' then j + 2
                  else if j < |s| then j + 1 else j;
      SplitLinesUnfold(s, j, next);
      SplitLinesBound(s[next..]);
    }
  }

  lemma SplitLinesUnfold(s: string, j: nat, next: nat)
    requires s != [] && j == LineEnd(s, 0)
    requires next == if j + 1 < |s| && s[j] == '\r' && s[j + 1] == '\n' then j + 2
                     else if j < |s| then j + 1 else j
    ensures next <= |s| && |SplitLines(s)| == 1 + |SplitLines(s[next..])|
  {
  }

  /** The line break at `j` counts once, "\r\n" included. */
  lemma BreakAt(s: string, j: nat, next: nat)
    requires j < |s| && IsBreak(s[j])
    requires next == if j + 1 < |s| && s[j] == '\r' && s[j + 1] == '\n' then j + 2 else j + 1
    ensures Breaks(s[j..]) == 1 + Breaks(s[next..])
  {
    if j + 1 < |s| && s[j] == '\r' && s[j + 1] == '\n' {
      assert s[j..][2..] == s[next..];
    } else {
      assert s[j..][1..] == s[next..];
    }
  }

  /** Number of non-overlapping occurrences of `sub`, scanning left to right (`s.count(sub)`). */
  function Count(s: string, sub: string): (r: nat)
    requires |sub| > 0
    ensures r == 0 <==> !Contains(s, sub)
    decreases |s|
  {
    if |s| < |sub| then
      NotContainsShort(s, sub);
      0
    else if s[..|sub|] == sub then
      assert StartsWith(s[0..], sub);
      1 + Count(s[|sub|..], sub)
    else
      ContainsTail(s, sub);
      Count(s[1..], sub)
  }

  lemma NotContainsShort(s: string, sub: string)
    requires |s| < |sub|
    ensures !Contains(s, sub)
  {
  }

  /** Between strings of the same length, containment is equality. */
  lemma ContainsSameLength(s: string, sub: string)
    requires |s| == |sub|
    ensures Contains(s, sub) <==> s == sub
  {
    assert s[0..] == s;
    if Contains(s, sub) {
      var i :| 0 <= i <= |s| && StartsWith(s[i..], sub);
      assert i == 0;
    } else {
      assert !StartsWith(s[0..], sub);
    }
  }

  lemma ContainsTail(s: string, sub: string)
    requires |s| > 0 && !StartsWith(s, sub)
    ensures Contains(s, sub) <==> Contains(s[1..], sub)
  {
    if Contains(s, sub) {
      var i :| 0 <= i <= |s| && StartsWith(s[i..], sub);
      assert i > 0;
      assert s[1..][i - 1..] == s[i..];
    }
    if Contains(s[1..], sub) {
      var i :| 0 <= i <= |s[1..]| && StartsWith(s[1..][i..], sub);
      assert s[1..][i..] == s[i + 1..];
    }
  }

  /** `s.replace(pat, rep)`: every non-overlapping occurrence, left to right. */
  function Replace(s: string, pat: string, rep: string): (r: string)
    requires |pat| > 0
    decreases |s|
  {
    if |s| < |pat| then s
    else if s[..|pat|] == pat then rep + Replace(s[|pat|..], pat, rep)
    else [s[0]] + Replace(s[1..], pat, rep)
  }

  /** Each replaced occurrence changes the length by `|rep| - |pat|`. */
  lemma {:induction false} ReplaceLength(s: string, pat: string, rep: string)
    requires |pat| > 0
    ensures |Replace(s, pat, rep)| == |s| + Count(s, pat) * (|rep| - |pat|)
    decreases |s|, 1
  {
    if |s| >= |pat| {
      if s[..|pat|] == pat {
        ReplaceLengthAtMatch(s, pat, rep);
      } else {
        ReplaceLength(s[1..], pat, rep);
      }
    }
  }

  lemma {:induction false} ReplaceLengthAtMatch(s: string, pat: string, rep: string)
    requires |pat| > 0 && |s| >= |pat| && s[..|pat|] == pat
    ensures |Replace(s, pat, rep)| == |s| + Count(s, pat) * (|rep| - |pat|)
    decreases |s|, 0
  {
    var t := s[|pat|..];
    ReplaceLength(t, pat, rep);
    CountAtMatch(s, pat);
    LengthStep(|s|, |pat|, |rep|, |Replace(t, pat, rep)|, Count(t, pat));
  }

  lemma CountAtMatch(s: string, pat: string)
    requires |pat| > 0 && |s| >= |pat| && s[..|pat|] == pat
    ensures Count(s, pat) == 1 + Count(s[|pat|..], pat)
  {
  }

  lemma LengthStep(n: int, p: int, q: int, m: int, c: int)
    requires m == (n - p) + c * (q - p)
    ensures q + m == n + (1 + c) * (q - p)
  {
  }

  lemma Distrib(c: int, d: int)
    ensures (1 + c) * d == d + c * d
  {
  }

  /** Replacing a pattern that does not occur changes nothing. */
  lemma {:induction false} ReplaceAbsent(s: string, pat: string, rep: string)
    requires |pat| > 0 && !Contains(s, pat)
    ensures Replace(s, pat, rep) == s
    decreases |s|
  {
    if |s| >= |pat| {
      assert s[..|pat|] != pat by { assert !StartsWith(s[0..], pat); }
      ContainsTail(s, pat);
      ReplaceAbsent(s[1..], pat, rep);
    }
  }

  /** Decimal rendering of a natural number, as `str(n)`. */
  function NatToStr(n: nat): (r: string)
    ensures |r| > 0
    ensures n > 0 ==> r[0] != '0'
    decreases n
  {
    if n < 10 then [Digit(n)] else NatToStr(n / 10) + [Digit(n % 10)]
  }

  /** `str(n)` is made of decimal digits. */
  lemma {:induction false} NatToStrDigits(n: nat)
    ensures IsDecimal(NatToStr(n))
    decreases n
  {
    if n >= 10 {
      NatToStrDigits(n / 10);
    }
  }

  function Digit(d: nat): (c: char)
    requires d < 10
    ensures IsDigit(c)
  {
    ('0' as int + d) as char
  }

  function DigitValue(c: char): nat
    requires IsDigit(c)
  {
    c as int - '0' as int
  }

  /** Decimal rendering of an integer, as `str(n)`. */
  function IntToStr(n: int): string {
    if n < 0 then "-" + NatToStr(-n) else NatToStr(n)
  }

  predicate IsDecimal(s: string) {
    |s| > 0 && forall k :: 0 <= k < |s| ==> IsDigit(s[k])
  }

  /** Value of a string of decimal digits, as `int(s)`. */
  function DecValue(s: string): nat
    requires forall k :: 0 <= k < |s| ==> IsDigit(s[k])
    decreases |s|
  {
    if s == [] then 0 else 10 * DecValue(s[..|s| - 1]) + DigitValue(s[|s| - 1])
  }

  /** `int(str(n)) == n` */
  lemma {:induction false} NatToStrRoundTrip(n: nat)
    ensures IsDecimal(NatToStr(n)) && DecValue(NatToStr(n)) == n
    decreases n
  {
    NatToStrDigits(n);
    if n >= 10 {
      NatToStrRoundTrip(n / 10);
      var r := NatToStr(n);
      assert r[..|r| - 1] == NatToStr(n / 10);
    }
  }

  /** Rendering is injective: different numbers have different decimal text. */
  lemma NatToStrInjective(m: nat, n: nat)
    requires NatToStr(m) == NatToStr(n)
    ensures m == n
  {
    NatToStrRoundTrip(m);
    NatToStrRoundTrip(n);
  }

  predicate IsHexDigit(c: char) { '0' <= c <= '9' || 'a' <= c <= 'f' || 'A' <= c <= 'F' }

  function HexDigitValue(c: char): nat
    requires IsHexDigit(c)
  {
    if '0' <= c <= '9' then c as int - '0' as int
    else if 'a' <= c <= 'f' then c as int - 'a' as int + 10
    else c as int - 'A' as int + 10
  }

  predicate IsHex(s: string) {
    |s| > 0 && forall k :: 0 <= k < |s| ==> IsHexDigit(s[k])
  }

  /** Value of a string of hexadecimal digits, as `int(s, 16)`. */
  function HexValue(s: string): nat
    requires forall k :: 0 <= k < |s| ==> IsHexDigit(s[k])
    decreases |s|
  {
    if s == [] then 0 else 16 * HexValue(s[..|s| - 1]) + HexDigitValue(s[|s| - 1])
  }

  function HexDigit(d: nat): (c: char)
    requires d < 16
    ensures IsHexDigit(c) && HexDigitValue(c) == d
    ensures '0' <= c <= '9' || 'a' <= c <= 'f'
  {
    if d < 10 then ('0' as int + d) as char else ('a' as int + d - 10) as char
  }

  /** Lower-case hexadecimal rendering without padding, as `'%x' % n`. */
  function Hex(n: nat): (r: string)
    ensures IsHex(r)
    ensures forall k :: 0 <= k < |r| ==> '0' <= r[k] <= '9' || 'a' <= r[k] <= 'f'
    ensures n > 0 ==> r[0] != '0'
    decreases n
  {
    if n < 16 then [HexDigit(n)] else Hex(n / 16) + [HexDigit(n % 16)]
  }

  /** `int('%x' % n, 16) == n` */
  lemma {:induction false} HexRoundTrip(n: nat)
    ensures HexValue(Hex(n)) == n
    decreases n
  {
    if n >= 16 {
      HexRoundTrip(n / 16);
      var r := Hex(n);
      assert r[..|r| - 1] == Hex(n / 16);
    }
  }

  /** Number of bytes of the UTF-8 encoding of `s` (`len(s.encode('utf-8'))`). */
  function UTF8Len(s: string): (r: nat)
    ensures r >= |s|
    decreases |s|
  {
    if s == [] then 0
    else
      var c := s[0];
      (if c < '\U{0080}' then 1 else if c < '\U{0800}' then 2 else if c < '\U{10000}' then 3 else 4)
      + UTF8Len(s[1..])
  }

  /** An ASCII string takes one byte per character. */
  lemma {:induction false} UTF8Ascii(s: string)
    requires forall k :: 0 <= k < |s| ==> s[k] < '\U{0080}'
    ensures UTF8Len(s) == |s|
    decreases |s|
  {
    if s != [] {
      UTF8Ascii(s[1..]);
    }
  }

  /** `s[:n]` with Python's clamping. */
  function Take(s: string, n: nat): string {
    if n <= |s| then s[..n] else s
  }

  /** `s[n:]` with Python's clamping. */
  function Drop(s: string, n: nat): string {
    if n <= |s| then s[n..] else ""
  }

  /**
   * `int(s)` for a token (a string without whitespace): decimal digits after
   * an optional sign; `None` where Python raises.
   */
  function PyInt(s: string): (r: Option<int>)
    ensures r.Some? <==> IsDecimal(s) || (|s| >= 2 && (s[0] == '-' || s[0] == '+') && IsDecimal(s[1..]))
  {
    if IsDecimal(s) then Some(DecValue(s))
    else if |s| >= 2 && s[0] == '-' && IsDecimal(s[1..]) then Some(0 - DecValue(s[1..]) as int)
    else if |s| >= 2 && s[0] == '+' && IsDecimal(s[1..]) then Some(DecValue(s[1..]))
    else None
  }

  /** `int(str(n)) == n`, for negative numbers too. */
  lemma PyIntRoundTrip(n: int)
    ensures PyInt(IntToStr(n)) == Some(n)
  {
    if n >= 0 {
      NatToStrRoundTrip(n);
    } else {
      var t := NatToStr(-n);
      NatToStrRoundTrip(-n);
      assert IntToStr(n)[0] == '-' && IntToStr(n)[1..] == t;
    }
  }

  /** `s[-2:]`: the last two characters, or all of a shorter string. */
  function LastTwo(s: string): (r: string)
    ensures |r| == if |s| < 2 then |s| else 2
    ensures r == s[|s| - |r|..]
  {
    if |s| < 2 then s else s[|s| - 2..]
  }
}

/** Python list operations used by the modules. */
module PyList {

  /** `xs.index(x)`: position of the first occurrence. */
  function IndexOf<T(==)>(xs: seq<T>, x: T): (r: nat)
    requires x in xs
    ensures r < |xs| && xs[r] == x
    ensures forall k :: 0 <= k < r ==> xs[k] != x
  {
    if xs[0] == x then 0 else 1 + IndexOf(xs[1..], x)
  }

  /** `xs.remove(x)`: drop the first occurrence. */
  function RemoveFirst<T(==)>(xs: seq<T>, x: T): (r: seq<T>)
    requires x in xs
    ensures r == xs[..IndexOf(xs, x)] + xs[IndexOf(xs, x) + 1..]
    ensures |r| == |xs| - 1
  {
    if xs[0] == x then xs[1..] else [xs[0]] + RemoveFirst(xs[1..], x)
  }

  /** The range `[lo, lo + step, ...)` below `hi`, as `range(lo, hi, step)`. */
  function Range(lo: int, hi: int, step: nat): (r: seq<int>)
    requires step > 0
    ensures hi <= lo <==> r == []
    ensures r != [] ==> r[0] == lo
    ensures forall k :: 0 <= k < |r| ==> lo <= r[k] < hi
    ensures forall k :: 0 < k < |r| ==> r[k] == r[k - 1] + step
    decreases hi - lo
  {
    if hi <= lo then [] else [lo] + Range(lo + step, hi, step)
  }

  /** The concatenation of `f(x)` over `xs`, as a nested loop appends them. */
  function FlatMap<T, U>(xs: seq<T>, f: T -> seq<U>): (r: seq<U>)
    decreases |xs|
  {
    if xs == [] then [] else f(xs[0]) + FlatMap(xs[1..], f)
  }

  lemma {:induction false} FlatMapAppend<T, U>(xs: seq<T>, ys: seq<T>, f: T -> seq<U>)
    ensures FlatMap(xs + ys, f) == FlatMap(xs, f) + FlatMap(ys, f)
    decreases |xs|
  {
    if xs == [] {
      assert xs + ys == ys;
    } else {
      assert (xs + ys)[1..] == xs[1..] + ys;
      FlatMapAppend(xs[1..], ys, f);
    }
  }

  /** When every `f(x)` has `n` elements, element `j` of block `i` sits at `n * i + j`. */
  lemma {:induction false} FlatMapAt<T, U>(xs: seq<T>, f: T -> seq<U>, n: nat, i: nat, j: nat)
    requires forall k :: 0 <= k < |xs| ==> |f(xs[k])| == n
    requires i < |xs| && j < n
    ensures |FlatMap(xs, f)| == n * |xs|
    ensures n * i + j < n * |xs|
    ensures FlatMap(xs, f)[n * i + j] == f(xs[i])[j]
    decreases |xs|
  {
    FlatMapLength(xs, f, n);
    BlockInRange(n, i, j, |xs|);
    if i > 0 {
      assert forall k :: 0 <= k < |xs[1..]| ==> |f(xs[1..][k])| == n by {
        forall k | 0 <= k < |xs[1..]| ensures |f(xs[1..][k])| == n {
          assert xs[1..][k] == xs[k + 1];
        }
      }
      FlatMapAt(xs[1..], f, n, i - 1, j);
      BlockShift(n, i, j);
      assert xs[1..][i - 1] == xs[i];
    }
  }

  lemma {:induction false} FlatMapLength<T, U>(xs: seq<T>, f: T -> seq<U>, n: nat)
    requires forall k :: 0 <= k < |xs| ==> |f(xs[k])| == n
    ensures |FlatMap(xs, f)| == n * |xs|
    decreases |xs|
  {
    if xs != [] {
      assert forall k :: 0 <= k < |xs[1..]| ==> |f(xs[1..][k])| == n by {
        forall k | 0 <= k < |xs[1..]| ensures |f(xs[1..][k])| == n {
          assert xs[1..][k] == xs[k + 1];
        }
      }
      FlatMapLength(xs[1..], f, n);
      BlockShift(n, |xs|, 0);
    }
  }

  lemma {:induction false} BlockInRange(n: nat, i: nat, j: nat, m: nat)
    requires i < m && j < n
    ensures n * i + j < n * m
    decreases m - i
  {
    BlockShift(n, m, 0);
    if i + 1 < m {
      BlockInRange(n, i, j, m - 1);
    }
  }

  lemma BlockShift(n: nat, i: nat, j: nat)
    requires i > 0
    ensures n * i + j == n + (n * (i - 1) + j)
  {
  }

  /** Every block of `FlatMap` lies inside it: element `j` of `f(xs[i])` is an element of the result. */
  lemma {:induction false} FlatMapMember<T, U>(xs: seq<T>, f: T -> seq<U>, i: nat, j: nat)
    requires i < |xs| && j < |f(xs[i])|
    ensures f(xs[i])[j] in FlatMap(xs, f)
    decreases |xs|
  {
    if i > 0 {
      FlatMapMember(xs[1..], f, i - 1, j);
      assert xs[1..][i - 1] == xs[i];
    }
  }

  /** A property of every element of every block holds of every element of the flat map. */
  lemma {:induction false} FlatMapForall<T, U>(xs: seq<T>, f: T -> seq<U>, P: U -> bool)
    requires forall i, j :: 0 <= i < |xs| && 0 <= j < |f(xs[i])| ==> P(f(xs[i])[j])
    ensures forall k :: 0 <= k < |FlatMap(xs, f)| ==> P(FlatMap(xs, f)[k])
    decreases |xs|
  {
    if xs != [] {
      assert forall i :: 0 <= i < |xs[1..]| ==> xs[1..][i] == xs[i + 1];
      FlatMapForall(xs[1..], f, P);
      var head, tail := f(xs[0]), FlatMap(xs[1..], f);
      assert forall k :: 0 <= k < |head| ==> P(head[k]);
      assert forall k :: 0 <= k < |head + tail| ==> (head + tail)[k] == if k < |head| then head[k] else tail[k - |head|];
    }
  }
}
