/**
 * `core/store_goes_details.py`: read the sha1 and tag of the three goes
 * components (go, fe1, firmware-fe1a) from the version and tag listings
 * and store them in a redis hash on the server emulator.
 */
module GoesDetails {
  import opened Wrappers
  import opened PyStr
  import opened Recorder

  /** The separator between a listing line's label and its value. */
  const Sep: string := ": "

  /** The three components, in the order of the listings. */
  function Components(): seq<string> {
    ["go", "fe1", "firmware-fe1a"]
  }

  /** `line.split(': ')[1]`, or `None` where Python raises (no separator). */
  function Value(line: string): Option<string> {
    var parts := Split(line, Sep);
    if |parts| >= 2 then Some(parts[1]) else None
  }

  /** The values of the listing lines `lines`, in order; `None` as soon as one has no separator. */
  function Values(lines: seq<string>): Option<seq<string>>
    decreases |lines|
  {
    if lines == [] then Some([])
    else
      match Values(lines[..|lines| - 1])
      case None => None
      case Some(vs) =>
        match Value(lines[|lines| - 1])
        case None => None
        case Some(v) => Some(vs + [v])
  }

  /** `store_in_hash(module, hash_name, key, value)`: the redis command it runs. */
  function HsetCmd(hash: string, key: string, value: string): string {
    "redis-cli -p 9090 " + "hset " + hash + " \"" + key + "\" \"" + value + "\""
  }

  /** The key of component `c`'s `kind` ('sha1' or 'tag') for switch `sw`. */
  function DetailKey(sw: string, c: string, kind: string): string {
    sw + ".version." + c + "." + kind
  }

  /** The stores for one listing: one per component when there are exactly three values, else none. */
  function Stores(sw: string, hash: string, kind: string, vals: seq<string>): seq<string> {
    if |vals| == 3 then
      seq(3, i requires 0 <= i < 3 => HsetCmd(hash, DetailKey(sw, Components()[i], kind), vals[i]))
    else []
  }

  /** Every command the module runs, up to the point where Python raises if it does. */
  function Commands(sw: string, hash: string, versions: string, tags: string): seq<string> {
    match Values(SplitLines(versions))
    case None => []
    case Some(sha1) =>
      Stores(sw, hash, "sha1", sha1)
      + match Values(SplitLines(tags))
        case None => []
        case Some(tv) => Stores(sw, hash, "tag", tv)
  }

  /** Whether the module completes: both listings have a separator on every line. */
  predicate Completes(versions: string, tags: string) {
    Values(SplitLines(versions)).Some? && Values(SplitLines(tags)).Some?
  }

  function Message(hash: string): string {
    "Stored the test result in hash: " + hash
  }

  /** One of the two parsing loops of `main`. */
  method ParseValues(details: string) returns (r: Option<seq<string>>)
    ensures r == Values(SplitLines(details))
  {
    var lines := SplitLines(details);
    var vals := [];
    var i := 0;
    while i < |lines|
      invariant 0 <= i <= |lines|
      invariant Values(lines[..i]) == Some(vals)
    {
      assert lines[..i + 1][..i] == lines[..i];
      var parts := Split(lines[i], Sep);
      if |parts| < 2 {
        ValuesNone(lines, i + 1);
        return None;
      }
      vals := vals + [parts[1]];
      i := i + 1;
    }
    assert lines[..|lines|] == lines;
    r := Some(vals);
  }

  /** The three stores of one listing, when it has exactly three values. */
  method StoreAll(s: Session, sw: string, hash: string, kind: string, vals: seq<string>)
    modifies s
    ensures s.St() == old(s.St()).(history := old(s.history) + Stores(sw, hash, kind, vals))
  {
    if |vals| == 3 {
      var out := s.RunCli(HsetCmd(hash, DetailKey(sw, "go", kind), vals[0]));
      out := s.RunCli(HsetCmd(hash, DetailKey(sw, "fe1", kind), vals[1]));
      out := s.RunCli(HsetCmd(hash, DetailKey(sw, "firmware-fe1a", kind), vals[2]));
    }
  }

  /** `main`: the message, or `None` where Python raises. Nothing is recorded and no output is read. */
  method RunModule(s: Session, sw: string, hash: string, versions: string, tags: string) returns (msg: Option<string>)
    modifies s
    ensures msg == (if Completes(versions, tags) then Some(Message(hash)) else None)
    ensures s.St() == old(s.St()).(history := old(s.history) + Commands(sw, hash, versions, tags))
  {
    CommandsCases(sw, hash, versions, tags);
    var sha1 := ParseValues(versions);
    if sha1.None? {
      return None;
    }
    StoreAll(s, sw, hash, "sha1", sha1.value);
    var tv := ParseValues(tags);
    if tv.None? {
      return None;
    }
    ghost var h := s.history;
    StoreAll(s, sw, hash, "tag", tv.value);
    AppendAssoc(old(s.history), Stores(sw, hash, "sha1", sha1.value), Stores(sw, hash, "tag", tv.value));
    msg := Some(Message(hash));
  }

  lemma AppendAssoc(a: seq<string>, b: seq<string>, c: seq<string>)
    ensures a + b + c == a + (b + c)
  {
  }

  lemma CommandsCases(sw: string, hash: string, versions: string, tags: string)
    ensures Values(SplitLines(versions)).None? ==> Commands(sw, hash, versions, tags) == []
    ensures Values(SplitLines(versions)).Some? && Values(SplitLines(tags)).None? ==>
              Commands(sw, hash, versions, tags) == Stores(sw, hash, "sha1", Values(SplitLines(versions)).value)
    ensures Values(SplitLines(versions)).Some? && Values(SplitLines(tags)).Some? ==>
              Commands(sw, hash, versions, tags)
              == Stores(sw, hash, "sha1", Values(SplitLines(versions)).value)
                 + Stores(sw, hash, "tag", Values(SplitLines(tags)).value)
  {
  }

  /** Once a line has no separator, the whole listing fails to parse. */
  lemma {:induction false} ValuesNone(lines: seq<string>, n: nat)
    requires n <= |lines| && Values(lines[..n]) == None
    ensures Values(lines) == None
    decreases |lines| - n
  {
    if n == |lines| {
      assert lines[..n] == lines;
    } else {
      assert lines[..n + 1][..n] == lines[..n];
      ValuesNone(lines, n + 1);
    }
  }

  // ---------------------------------------------------------------------
  // Properties

  /**
   * A listing parses exactly when every line has a separator, and then
   * gives one value per line: that line's value.
   */
  lemma {:induction false} ValuesSpec(lines: seq<string>)
    ensures Values(lines).Some? <==> forall k :: 0 <= k < |lines| ==> Value(lines[k]).Some?
    ensures Values(lines).Some? ==>
              |Values(lines).value| == |lines|
              && forall k :: 0 <= k < |lines| ==> Values(lines).value[k] == Value(lines[k]).value
    decreases |lines|
  {
    if lines != [] {
      var init := lines[..|lines| - 1];
      ValuesSpec(init);
      assert forall k :: 0 <= k < |init| ==> init[k] == lines[k];
    }
  }

  /**
   * A line's value is the text after its first separator, up to any
   * further separator: the line starts with a separator-free label, the
   * separator and the value, and whatever follows starts a new separator.
   */
  lemma ValueSpec(line: string)
    requires Value(line).Some?
    ensures exists head, rest :: Framed(line, head, Value(line).value, rest)
  {
    var v := Value(line).value;
    var j := FindFrom(line, Sep, 0);
    SecondField(line, Sep, j, v);
    var head, rest := line[..j], line[j + |Sep| + |v|..];
    assert Framed(line, head, v, rest);
  }

  /**
   * `line` is a label free of separators, the separator, a value free of
   * separators, and nothing more or a further separator and the rest.
   */
  predicate Framed(line: string, head: string, v: string, rest: string) {
    line == head + Sep + v + rest && !Contains(head, Sep) && !Contains(v, Sep)
    && (rest == "" || StartsWith(rest, Sep))
  }

  /** Field 1 of a split, for any separator: it follows the first separator, up to the next one. */
  lemma SecondField(line: string, sep: string, j: nat, v: string)
    requires |sep| > 0 && |Split(line, sep)| >= 2
    requires j == FindFrom(line, sep, 0) && v == Split(line, sep)[1]
    ensures j + |sep| + |v| <= |line|
    ensures line == line[..j] + sep + v + line[j + |sep| + |v|..]
    ensures !Contains(line[..j], sep) && !Contains(v, sep)
    ensures line[j + |sep| + |v|..] == "" || StartsWith(line[j + |sep| + |v|..], sep)
  {
    SplitNoSep(line, sep);
    var tail := line[j + |sep|..];
    SplitStep(line, sep, j, tail);
    assert Split(line, sep)[0] == line[..j];
    TailField(tail, sep, v);
    assert line[j + |sep| + |v|..] == tail[|v|..];
  }

  /** Field 0 of a split, followed by nothing or by a separator. */
  lemma TailField(tail: string, sep: string, v: string)
    requires |sep| > 0 && v == Split(tail, sep)[0]
    ensures |v| <= |tail| && tail == v + tail[|v|..]
    ensures tail[|v|..] == "" || StartsWith(tail[|v|..], sep)
  {
    var j2 := FindFrom(tail, sep, 0);
    if j2 < |tail| {
      SplitStep(tail, sep, j2, tail[j2 + |sep|..]);
    }
  }

  /**
   * The stores of a listing: one per component, keyed '<switch>.version.<component>.<kind>'
   * with the value of the listing's line for it, exactly when it has three
   * values; none otherwise.
   */
  lemma StoresSpec(sw: string, hash: string, kind: string, vals: seq<string>)
    ensures |Stores(sw, hash, kind, vals)| == if |vals| == 3 then 3 else 0
    ensures |vals| == 3 ==>
              Stores(sw, hash, kind, vals)
              == [HsetCmd(hash, sw + ".version.go." + kind, vals[0]),
                  HsetCmd(hash, sw + ".version.fe1." + kind, vals[1]),
                  HsetCmd(hash, sw + ".version.firmware-fe1a." + kind, vals[2])]
  {
    KeyText(sw, "go", kind);
    KeyText(sw, "fe1", kind);
    KeyText(sw, "firmware-fe1a", kind);
    assert ".version." + "go" + "." == ".version.go.";
    assert ".version." + "fe1" + "." == ".version.fe1.";
    assert ".version." + "firmware-fe1a" + "." == ".version.firmware-fe1a.";
  }

  lemma KeyText(sw: string, c: string, kind: string)
    ensures DetailKey(sw, c, kind) == sw + (".version." + c + ".") + kind
  {
  }

  /**
   * A run that completes stores the sha1s and then the tags, each only if
   * its listing has exactly three lines, and always reports the hash.
   */
  lemma RunSpec(sw: string, hash: string, versions: string, tags: string)
    requires Completes(versions, tags)
    ensures var nv := |SplitLines(versions)|;
            var nt := |SplitLines(tags)|;
            |Commands(sw, hash, versions, tags)| == (if nv == 3 then 3 else 0) + (if nt == 3 then 3 else 0)
    ensures var lv := SplitLines(versions);
            var c := Commands(sw, hash, versions, tags);
            |lv| == 3 ==> forall i :: 0 <= i < 3 ==>
              Value(lv[i]).Some? && c[i] == HsetCmd(hash, DetailKey(sw, Components()[i], "sha1"), Value(lv[i]).value)
    ensures var lv := SplitLines(versions);
            var lt := SplitLines(tags);
            var c := Commands(sw, hash, versions, tags);
            var off := if |lv| == 3 then 3 else 0;
            |lt| == 3 ==> forall i :: 0 <= i < 3 ==>
              Value(lt[i]).Some? && c[off + i] == HsetCmd(hash, DetailKey(sw, Components()[i], "tag"), Value(lt[i]).value)
  {
    CommandsCases(sw, hash, versions, tags);
    ValuesSpec(SplitLines(versions));
    ValuesSpec(SplitLines(tags));
  }

  /** A version listing that does not parse stops the module before any store. */
  lemma VersionsFirst(sw: string, hash: string, versions: string, tags: string)
    requires Values(SplitLines(versions)).None?
    ensures Commands(sw, hash, versions, tags) == []
  {
  }
}
