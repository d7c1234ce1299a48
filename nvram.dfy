/**
 * `goes/cmd/nvram`: scans the memory image of the PC CMOS area for the
 * coreboot table signature "LBIO" (or its byte reversal) on 16-byte
 * boundaries and prints each offset where it is found.
 */
module Nvram {
  import opened Bytes
  import opened PyList

  /** The four signature bytes 'L' 'B' 'I' 'O', forwards or reversed, at offset `k`. */
  predicate Signature(d: seq<byte>, k: nat)
    requires k + 4 <= |d|
  {
    (d[k] == 0x4C && d[k + 1] == 0x42 && d[k + 2] == 0x49 && d[k + 3] == 0x4F)
    || (d[k + 3] == 0x4C && d[k + 2] == 0x42 && d[k + 1] == 0x49 && d[k] == 0x4F)
  }

  /** The offsets `for i := start; i < end; i = i + 16` visits. */
  function Visits(start: nat, end: nat): seq<int> {
    Range(start, end, 16)
  }

  lemma {:induction false} VisitsCount(start: nat, n: nat)
    ensures |Visits(start, start + 16 * n)| == n
    decreases n
  {
    if n > 0 {
      VisitsCount(start + 16, n - 1);
    }
  }

  /** `Main` visits 256 offsets below 0x1000 and 4096 in [0xf0000, 0x100000). */
  lemma MainVisits()
    ensures |Visits(0, 0x1000)| == 256 && |Visits(0xf0000, 0x10_0000)| == 4096
  {
    VisitsCount(0, 256);
    VisitsCount(0xf0000, 4096);
  }

  // ---------------------------------------------------------------------
  // The loop as written: the test reads d[0..3] whatever `i` is

  /** What the loop as written prints: all visited offsets or none. */
  function ScannedAsWritten(d: seq<byte>, start: nat, end: nat): (r: seq<int>)
    requires start < end ==> 4 <= |d|
    ensures r == [] || r == Visits(start, end)
    ensures r != [] ==> Signature(d, 0)
  {
    if start < end && Signature(d, 0) then Visits(start, end) else []
  }

  /** `scan(d, start, end)` as written. */
  method ScanAsWritten(d: seq<byte>, start: nat, end: nat) returns (printed: seq<int>)
    requires start < end ==> 4 <= |d|
    ensures printed == ScannedAsWritten(d, start, end)
  {
    printed := [];
    var i := start;
    while i < end
      invariant start <= i
      invariant start < end ==> printed + (if Signature(d, 0) then Visits(i, end) else []) == ScannedAsWritten(d, start, end)
      invariant start >= end ==> printed == []
      decreases end - i
    {
      if Signature(d, 0) {
        printed := printed + [i];
      }
      i := i + 16;
    }
  }

  // ---------------------------------------------------------------------
  // The intended loop: the test reads d[i..i+3]

  /** The visited offsets from `i` on at which the signature sits. */
  function Hits(d: seq<byte>, i: nat, end: nat): (r: seq<int>)
    requires i % 16 == 0 && end % 16 == 0 && end <= |d|
    ensures forall k :: 0 <= k < |r| ==> r[k] % 16 == 0 && i <= r[k] < end && r[k] + 4 <= |d| && Signature(d, r[k])
    decreases end - i
  {
    if end <= i then []
    else (if Signature(d, i) then [i] else []) + Hits(d, i + 16, end)
  }

  /** Every reported offset is one the loop visits. */
  lemma {:induction false} HitsVisited(d: seq<byte>, i: nat, end: nat)
    requires i % 16 == 0 && end % 16 == 0 && end <= |d|
    ensures forall k :: 0 <= k < |Hits(d, i, end)| ==> Hits(d, i, end)[k] in Visits(i, end)
    decreases end - i
  {
    if i < end {
      HitsVisited(d, i + 16, end);
      assert Visits(i, end) == [i] + Visits(i + 16, end);
    }
  }

  /** Every visited offset that holds the signature is reported. */
  lemma {:induction false} HitsComplete(d: seq<byte>, i: nat, end: nat, k: nat)
    requires i % 16 == 0 && end % 16 == 0 && end <= |d|
    requires k in Visits(i, end) && k + 4 <= |d| && Signature(d, k)
    ensures k in Hits(d, i, end)
    decreases end - i
  {
    if k != i {
      assert Visits(i, end) == [i] + Visits(i + 16, end);
      HitsComplete(d, i + 16, end, k);
    }
  }

  /** `scan(d, start, end)` with the signature test at the visited offset. */
  method Scan(d: seq<byte>, start: nat, end: nat) returns (printed: seq<int>)
    requires start % 16 == 0 && end % 16 == 0 && end <= |d|
    ensures printed == Hits(d, start, end)
    ensures forall k :: 0 <= k < |printed| ==> printed[k] in Visits(start, end) && Signature(d, printed[k])
    ensures forall v :: v in Visits(start, end) && v + 4 <= |d| && Signature(d, v) ==> v in printed
  {
    printed := [];
    var i := start;
    while i < end
      invariant start <= i && i % 16 == 0
      invariant printed + Hits(d, i, end) == Hits(d, start, end)
      decreases end - i
    {
      HitsStep(d, printed, i, end);
      if Signature(d, i) {
        printed := printed + [i];
      }
      i := i + 16;
    }
    assert printed == Hits(d, start, end);
    HitsExact(d, start, end);
  }

  /** The hits are exactly the visited offsets that hold the signature. */
  lemma HitsExact(d: seq<byte>, start: nat, end: nat)
    requires start % 16 == 0 && end % 16 == 0 && end <= |d|
    ensures var h := Hits(d, start, end);
            forall k :: 0 <= k < |h| ==> h[k] in Visits(start, end) && Signature(d, h[k])
    ensures forall v :: v in Visits(start, end) && v + 4 <= |d| && Signature(d, v) ==> v in Hits(d, start, end)
  {
    HitsVisited(d, start, end);
    forall v | v in Visits(start, end) && v + 4 <= |d| && Signature(d, v)
      ensures v in Hits(d, start, end)
    {
      HitsComplete(d, start, end, v);
    }
  }

  lemma HitsStep(d: seq<byte>, printed: seq<int>, i: nat, end: nat)
    requires i % 16 == 0 && end % 16 == 0 && end <= |d| && i < end
    ensures i + 4 <= |d|
    ensures printed + Hits(d, i, end)
            == (if Signature(d, i) then printed + [i] else printed) + Hits(d, i + 16, end)
  {
    assert i + 16 <= end;
    var h := Hits(d, i + 16, end);
    if Signature(d, i) {
      assert printed + ([i] + h) == (printed + [i]) + h;
    } else {
      assert [] + h == h;
    }
  }

  /** A signature at offset 16 only: the loop as written prints nothing, the intended one prints 16. */
  lemma SignatureAtSixteen()
    ensures var d := seq(32, k => if k == 16 then 0x4C else if k == 17 then 0x42
                                  else if k == 18 then 0x49 else if k == 19 then 0x4F else 0);
            ScannedAsWritten(d, 0, 32) == [] && Hits(d, 0, 32) == [16]
  {
    var d: seq<byte> := seq(32, k => if k == 16 then 0x4C else if k == 17 then 0x42
                                     else if k == 18 then 0x49 else if k == 19 then 0x4F else 0);
    assert !Signature(d, 0);
    assert Signature(d, 16);
    assert Hits(d, 32, 32) == [];
    assert Hits(d, 16, 32) == [16];
  }

  /**
   * `Main` as written: the two scans over the 1 MiB image print all 4352
   * visited offsets when the signature sits at offset 0, and nothing otherwise.
   */
  method MainAsWritten(d: seq<byte>) returns (printed: seq<int>)
    requires |d| == 0x10_0000
    ensures printed == ScannedAsWritten(d, 0, 0x1000) + ScannedAsWritten(d, 0xf0000, 0x10_0000)
    ensures Signature(d, 0) ==> |printed| == 4352
    ensures !Signature(d, 0) ==> printed == []
  {
    var low := ScanAsWritten(d, 0, 0x1000);
    var high := ScanAsWritten(d, 0xf0000, 0x10_0000);
    MainVisits();
    printed := low + high;
  }

  /** `Main` with the intended scan: the two scans over the 1 MiB image. */
  method RunMain(d: seq<byte>) returns (printed: seq<int>)
    requires |d| == 0x10_0000
    ensures printed == Hits(d, 0, 0x1000) + Hits(d, 0xf0000, 0x10_0000)
  {
    var low := Scan(d, 0, 0x1000);
    var high := Scan(d, 0xf0000, 0x10_0000);
    printed := low + high;
  }
}
