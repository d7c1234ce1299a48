/**
 * `interruptHandlerVec`, an instance of the growable-vector template of
 * `elib`: a Go slice whose length and backing array are managed by
 * `Resize` and `validate`.
 */
module Vec {
  import opened Wrappers

  /** A Go slice as a value: the whole backing array (its length is the capacity) and the length. */
  datatype Slice<T> = Slice(backing: seq<T>, len: nat)
  {
    predicate WellFormed() {
      len <= |backing|
    }

    function Cap(): nat {
      |backing|
    }

    /** What the slice shows: `backing[:len]`. */
    function Elements(): seq<T>
      requires WellFormed()
    {
      backing[..len]
    }
  }

  function Max(a: nat, b: nat): nat {
    if a >= b then a else b
  }

  /**
   * `Resize(n)`. A new backing array of capacity `nextCap`
   * (`elib.NextResizeCap(len + n)`) is made only when `len + n` exceeds
   * the capacity; it holds the old elements followed by Go zero values.
   */
  function ResizeSpec<T>(s: Slice<T>, n: nat, nextCap: nat, goZero: T): (r: Slice<T>)
    requires s.WellFormed()
    requires s.len + n > s.Cap() ==> nextCap >= s.len + n
    ensures r.WellFormed() && r.len == s.len + n && r.Elements()[..s.len] == s.Elements()
  {
    var l := s.len + n;
    if l > s.Cap() then Slice(s.backing[..s.len] + seq(nextCap - s.len, _ => goZero), l)
    else Slice(s.backing, l)
  }

  /** The capacity changes only when the new length exceeds it, and then becomes `nextCap`. */
  lemma ResizeCapacity<T>(s: Slice<T>, n: nat, nextCap: nat, goZero: T)
    requires s.WellFormed()
    requires s.len + n > s.Cap() ==> nextCap >= s.len + n
    ensures var r := ResizeSpec(s, n, nextCap, goZero);
            r.Cap() == if s.len + n > s.Cap() then nextCap else s.Cap()
  {
  }

  /**
   * The new elements a `Resize` shows: Go zero values after a reallocation,
   * but without one whatever the backing array already held past the length.
   */
  lemma ResizeNewElements<T>(s: Slice<T>, n: nat, nextCap: nat, goZero: T)
    requires s.WellFormed()
    requires s.len + n > s.Cap() ==> nextCap >= s.len + n
    ensures var r := ResizeSpec(s, n, nextCap, goZero);
            r.Elements()[s.len..] ==
              if s.len + n > s.Cap() then seq(n, _ => goZero) else s.backing[s.len..s.len + n]
  {
  }

  /**
   * `validate(i, zero)`. When `i + 1` exceeds the capacity, a new backing
   * array of `nextCap` Go zero values gets the old elements, and with a
   * `zero` given, the slots from the OLD CAPACITY up to `nextCap` get that
   * value; the length becomes at least `i + 1`.
   */
  function ValidateSpec<T>(s: Slice<T>, i: nat, zero: Option<T>, nextCap: nat, goZero: T): (r: Slice<T>)
    requires s.WellFormed()
    requires i + 1 > s.Cap() ==> nextCap >= i + 1
    ensures r.WellFormed() && r.len == Max(s.len, i + 1) && i < r.len
    ensures r.Elements()[..s.len] == s.Elements()
  {
    var l := i + 1;
    if l > s.Cap() then
      var fill := if zero.Some? then zero.value else goZero;
      Slice(s.backing[..s.len] + seq(s.Cap() - s.len, _ => goZero) + seq(nextCap - s.Cap(), _ => fill), l)
    else Slice(s.backing, Max(s.len, l))
  }

  /** Only an index past the capacity reallocates, and then the capacity becomes `nextCap`. */
  lemma ValidateCapacity<T>(s: Slice<T>, i: nat, zero: Option<T>, nextCap: nat, goZero: T)
    requires s.WellFormed()
    requires i + 1 > s.Cap() ==> nextCap >= i + 1
    ensures var r := ValidateSpec(s, i, zero, nextCap, goZero);
            r.Cap() == (if i + 1 > s.Cap() then nextCap else s.Cap())
            && (i + 1 <= s.Cap() ==> r.backing == s.backing)
  {
  }

  /**
   * After a reallocation, the slots between the old length and the old
   * capacity hold the Go zero value even when `zero` is given; only the
   * slots from the old capacity on hold `zero`.
   */
  lemma ValidateFill<T>(s: Slice<T>, i: nat, zero: Option<T>, nextCap: nat, goZero: T)
    requires s.WellFormed()
    requires i + 1 > s.Cap() && nextCap >= i + 1
    ensures var r := ValidateSpec(s, i, zero, nextCap, goZero);
            (forall k :: s.len <= k < s.Cap() ==> r.backing[k] == goZero)
            && (forall k :: s.Cap() <= k < nextCap ==> r.backing[k] == zero.GetOr(goZero))
  {
  }

  /** A second `validate` of the same index changes nothing. */
  lemma ValidateIdempotent<T>(s: Slice<T>, i: nat, zero: Option<T>, nextCap: nat, goZero: T, nextCap2: nat)
    requires s.WellFormed()
    requires i + 1 > s.Cap() ==> nextCap >= i + 1
    ensures var r := ValidateSpec(s, i, zero, nextCap, goZero);
            ValidateSpec(r, i, zero, nextCap2, goZero) == r
  {
  }

  /** `interruptHandlerVec` held by reference: `*p` is the slice. */
  class InterruptHandlerVec<T> {
    var buf: array<T>
    var len: nat
    /** The Go zero value of the element type, which `make` fills new arrays with. */
    const goZero: T

    predicate Valid()
      reads this
    {
      len <= buf.Length
    }

    function Abs(): Slice<T>
      reads this, buf
    {
      Slice(buf[..], len)
    }

    constructor (goZero: T)
      ensures Valid() && Abs() == Slice([], 0) && this.goZero == goZero
    {
      this.goZero := goZero;
      buf := new T[0];
      len := 0;
    }

    /** `Len()` */
    function Len(): (r: nat)
      reads this, buf
      requires Valid()
      ensures r == |Abs().Elements()|
    {
      len
    }

    /** `make([]T, c, c)` followed by `copy(q, *p)`. */
    method Grow(c: nat) returns (q: array<T>)
      requires Valid() && c >= len
      ensures fresh(q) && q.Length == c
      ensures q[..] == buf[..len] + seq(c - len, _ => goZero)
    {
      q := new T[c](_ => goZero);
      forall k | 0 <= k < len {
        q[k] := buf[k];
      }
    }

    /** `for i := from; i < len(q); i++ { q[i] = v }` */
    method Fill(q: array<T>, from: nat, v: T)
      requires from <= q.Length
      modifies q
      ensures q[..from] == old(q[..from]) && q[from..] == seq(q.Length - from, _ => v)
    {
      var k := from;
      while k < q.Length
        invariant from <= k <= q.Length
        invariant q[..from] == old(q[..from])
        invariant q[from..k] == seq(k - from, _ => v)
        invariant q[k..] == old(q[k..])
      {
        q[k] := v;
        k := k + 1;
      }
    }

    /** `Resize(n)`; `nextCap` is `elib.NextResizeCap(len + n)`. */
    method Resize(n: nat, nextCap: nat)
      requires Valid()
      requires len + n > buf.Length ==> nextCap >= len + n
      modifies this
      ensures Valid() && Abs() == ResizeSpec(old(Abs()), n, nextCap, goZero)
      ensures if old(len + n > buf.Length) then fresh(buf) else buf == old(buf)
    {
      var l := len + n;
      if l > buf.Length {
        buf := Grow(nextCap);
      }
      len := l;
    }

    /** `validate(i, zero)`; the result is the index of the element whose address Go returns. */
    method ValidateWith(i: nat, zero: Option<T>, nextCap: nat) returns (r: nat)
      requires Valid()
      requires i + 1 > buf.Length ==> nextCap >= i + 1
      modifies this
      ensures Valid() && Abs() == ValidateSpec(old(Abs()), i, zero, nextCap, goZero)
      ensures if old(i + 1 > buf.Length) then fresh(buf) else buf == old(buf)
      ensures r == i && r < len
    {
      var c := buf.Length;
      var l := i + 1;
      if l > c {
        var q := Grow(nextCap);
        if zero.Some? {
          Fill(q, c, zero.value);
        }
        assert q[..] == q[..c] + q[c..];
        buf := q;
        len := l;
      }
      if l > len {
        len := l;
      }
      r := i;
    }

    /** `Validate(i)`: `validate` with a nil zero. */
    method Validate(i: nat, nextCap: nat) returns (r: nat)
      requires Valid()
      requires i + 1 > buf.Length ==> nextCap >= i + 1
      modifies this
      ensures Valid() && Abs() == ValidateSpec(old(Abs()), i, None, nextCap, goZero)
      ensures r == i && r < len
    {
      r := ValidateWith(i, None, nextCap);
    }

    /** `ValidateInit(i, zero)`: `validate` with the address of `zero`. */
    method ValidateInit(i: nat, zero: T, nextCap: nat) returns (r: nat)
      requires Valid()
      requires i + 1 > buf.Length ==> nextCap >= i + 1
      modifies this
      ensures Valid() && Abs() == ValidateSpec(old(Abs()), i, Some(zero), nextCap, goZero)
      ensures r == i && r < len
    {
      r := ValidateWith(i, Some(zero), nextCap);
    }
  }
}
