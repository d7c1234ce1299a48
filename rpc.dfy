/** `redis/rpc`: the speed check `Rpc.Hset` applies before forwarding a write to the redis server. */
module Rpc {
  import opened PyStr
  import opened Wrappers

  const MinInt: int := -0x8000_0000_0000_0000
  const MaxInt: int := 0x7fff_ffff_ffff_ffff

  datatype NumErr = InvalidSyntax | OutOfRange

  datatype Parsed = Int(v: int) | NumError(err: NumErr)

  /** The digits after an optional sign. */
  function Unsigned(s: string): string {
    if |s| > 0 && (s[0] == '-' || s[0] == '+') then s[1..] else s
  }

  /**
   * `strconv.Atoi` for a 64-bit `int`: an optional sign and one or more
   * decimal digits, within the range of `int`.
   */
  function Atoi(s: string): (r: Parsed)
    ensures r.Int? <==> IsDecimal(Unsigned(s)) && MinInt <= SignedValue(s) <= MaxInt
    ensures r.Int? ==> r.v == SignedValue(s)
    ensures r == NumError(InvalidSyntax) <==> !IsDecimal(Unsigned(s))
  {
    if !IsDecimal(Unsigned(s)) then NumError(InvalidSyntax)
    else if SignedValue(s) < MinInt || SignedValue(s) > MaxInt then NumError(OutOfRange)
    else Int(SignedValue(s))
  }

  function SignedValue(s: string): int
    requires IsDecimal(Unsigned(s))
  {
    var d: int := DecValue(Unsigned(s));
    if |s| > 0 && s[0] == '-' then -d else d
  }

  /** Atoi reads back what `IntToStr` writes, for every value in range. */
  lemma AtoiIntToStr(n: int)
    requires MinInt <= n <= MaxInt
    ensures Atoi(IntToStr(n)) == Int(n)
  {
    var m: nat := if n < 0 then -n else n;
    NatToStrRoundTrip(m);
    assert Unsigned(IntToStr(n)) == NatToStr(m);
  }

  /** The error `Hset` returns. */
  datatype Error = DialError(dial: string) | ParseError(input: string, err: NumErr) | InvalidSpeed | CallError(call: string)

  function ErrorText(e: Error): string {
    match e
    case DialError(m) => m
    case ParseError(input, err) =>
      "strconv.Atoi: parsing \"" + input + "\": " + (if err == InvalidSyntax then "invalid syntax" else "value out of range")
    case InvalidSpeed => "hset: ERROR invalid speed"
    case CallError(m) => m
  }

  /** An `(int, error)` result. */
  datatype Outcome = Done(n: int) | Failed(e: Error)

  /** The guard applies to ids of three dot-separated parts whose last is "speed". */
  predicate IsSpeedId(id: string) {
    var parts := Split(id, ".");
    |parts| == 3 && parts[2] == "speed"
  }

  /** The subport: the third '-'-field of the middle part of the id. */
  function SubportField(id: string): string
    requires IsSpeedId(id) && |Split(Split(id, ".")[1], "-")| >= 3
  {
    Split(Split(id, ".")[1], "-")[2]
  }

  /**
   * `Hset(key, id, value)`. Opening the client gives `dial` (an error
   * message, or none) and the call, when made, gives `call`. A speed id
   * whose middle part has fewer than three '-'-fields panics in Go; it is
   * excluded here.
   */
  function Hset(dial: Option<string>, id: string, value: string, call: Outcome): (r: Outcome)
    requires IsSpeedId(id) ==> |Split(Split(id, ".")[1], "-")| >= 3
    ensures r == call || r.Failed?
    ensures dial.Some? ==> r == Failed(DialError(dial.value))
    ensures dial.None? && !IsSpeedId(id) ==> r == call
  {
    if dial.Some? then Failed(DialError(dial.value))
    else if IsSpeedId(id) && Atoi(SubportField(id)).NumError? then
      Failed(ParseError(SubportField(id), Atoi(SubportField(id)).err))
    else if IsSpeedId(id) && Atoi(SubportField(id)).v > 1 && value == "auto" then
      Failed(InvalidSpeed)
    else call
  }

  /** "auto" on a subport above 1 is refused before any call is made. */
  lemma RefusesAuto(id: string, call: Outcome)
    requires IsSpeedId(id) && |Split(Split(id, ".")[1], "-")| >= 3
    requires Atoi(SubportField(id)).Int? && Atoi(SubportField(id)).v > 1
    ensures Hset(None, id, "auto", call) == Failed(InvalidSpeed)
    ensures ErrorText(InvalidSpeed) == "hset: ERROR invalid speed"
  {
  }

  /** A subport field that is not a number is reported, whatever the value. */
  lemma ReportsParseError(id: string, value: string, call: Outcome)
    requires IsSpeedId(id) && |Split(Split(id, ".")[1], "-")| >= 3
    requires Atoi(SubportField(id)).NumError?
    ensures Hset(None, id, value, call) == Failed(ParseError(SubportField(id), Atoi(SubportField(id)).err))
  {
  }

  /** Every other write goes to the server and its reply is returned. */
  lemma ForwardsOthers(id: string, value: string, call: Outcome)
    requires IsSpeedId(id) ==> |Split(Split(id, ".")[1], "-")| >= 3
    requires IsSpeedId(id) ==> Atoi(SubportField(id)).Int? && (Atoi(SubportField(id)).v <= 1 || value != "auto")
    ensures Hset(None, id, value, call) == call
  {
  }

  /** The call's outcome matters exactly when the guard lets the write through. */
  lemma CallDecides(id: string, value: string, c1: Outcome, c2: Outcome)
    requires IsSpeedId(id) ==> |Split(Split(id, ".")[1], "-")| >= 3
    requires c1 != c2
    ensures (Hset(None, id, value, c1) == Hset(None, id, value, c2)) <==>
            IsSpeedId(id) && (Atoi(SubportField(id)).NumError? || (Atoi(SubportField(id)).v > 1 && value == "auto"))
  {
  }

  /** Three parts free of a one-character separator, joined by it, split back into the three. */
  lemma SplitThree(a: string, b: string, c: string, sep: char)
    requires sep !in a && sep !in b && sep !in c
    ensures Split(a + [sep] + b + [sep] + c, [sep]) == [a, b, c]
  {
    assert Join([sep], [a, b, c]) == a + [sep] + b + [sep] + c by {
      assert Join([sep], [a, b, c][1..]) == b + [sep] + c;
    }
    SplitOfJoin([a, b, c], sep);
  }

  /** Subport 2 may not be set to "auto". */
  lemma RefusesAutoOnSubport2(id: string, call: Outcome)
    requires id == "vnet.eth-1-2.speed"
    ensures IsSpeedId(id) && |Split(Split(id, ".")[1], "-")| >= 3 && SubportField(id) == "2"
            && Hset(None, id, "auto", call) == Failed(InvalidSpeed)
  {
    ExampleId(id, '2');
    AtoiSmall('2');
    RefusesAuto(id, call);
  }

  /** Subport 1 may be set to "auto": the write goes through. */
  lemma ForwardsAutoOnSubport1(id: string, call: Outcome)
    requires id == "vnet.eth-1-1.speed"
    ensures IsSpeedId(id) && |Split(Split(id, ".")[1], "-")| >= 3 && SubportField(id) == "1"
            && Hset(None, id, "auto", call) == call
  {
    ExampleId(id, '1');
    AtoiSmall('1');
    ForwardsOthers(id, "auto", call);
  }

  /** The fields of an id "vnet.eth-1-<d>.speed". */
  lemma ExampleId(id: string, d: char)
    requires IsDigit(d) && id == "vnet.eth-1-" + [d] + ".speed"
    ensures IsSpeedId(id) && Split(Split(id, ".")[1], "-") == ["eth", "1", [d]]
  {
    var middle := "eth-1-" + [d];
    assert "vnet" + "." + middle + "." + "speed" == id;
    SplitThree("vnet", middle, "speed", '.');
    MiddleFields(middle, d);
  }

  lemma MiddleFields(middle: string, d: char)
    requires IsDigit(d) && middle == "eth-1-" + [d]
    ensures Split(middle, "-") == ["eth", "1", [d]]
  {
    assert "eth" + "-" + "1" + "-" + [d] == middle;
    SplitThree("eth", "1", [d], '-');
  }

  lemma AtoiSmall(d: char)
    requires IsDigit(d)
    ensures Atoi([d]) == Int(DigitValue(d))
  {
    assert Unsigned([d]) == [d];
    assert [d][..0] == [];
    assert DecValue([d]) == DigitValue(d);
  }
}
