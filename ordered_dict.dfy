/**
 * Python's `collections.OrderedDict` as a sequence of key/value pairs:
 * assigning to a new key appends it, assigning to an existing key replaces
 * the value and keeps the key where it was.
 */
module OrderedDict {
  import opened Wrappers

  type Dict<V> = seq<(string, V)>

  /** The keys, in iteration order. */
  function Keys<V>(d: Dict<V>): (r: seq<string>)
    ensures |r| == |d|
    ensures forall i :: 0 <= i < |d| ==> r[i] == d[i].0
  {
    seq(|d|, i requires 0 <= i < |d| => d[i].0)
  }

  /** `d.get(k)` */
  function Get<V>(d: Dict<V>, k: string): Option<V>
    decreases |d|
  {
    if d == [] then None
    else if d[0].0 == k then Some(d[0].1)
    else Get(d[1..], k)
  }

  /** No key occurs twice. */
  predicate UniqueKeys<V>(d: Dict<V>) {
    forall i, j :: 0 <= i < j < |d| ==> d[i].0 != d[j].0
  }

  /** `d[k] = v` */
  function Put<V>(d: Dict<V>, k: string, v: V): (r: Dict<V>)
    decreases |d|
  {
    if d == [] then [(k, v)]
    else if d[0].0 == k then [(k, v)] + d[1..]
    else [d[0]] + Put(d[1..], k, v)
  }

  /** A new key is appended at the end. */
  lemma {:induction false} PutNew<V>(d: Dict<V>, k: string, v: V)
    requires k !in Keys(d)
    ensures Put(d, k, v) == d + [(k, v)]
    decreases |d|
  {
    if d != [] {
      assert Keys(d)[0] == d[0].0;
      KeysTail(d);
      PutNew(d[1..], k, v);
    }
  }

  /** An existing key keeps its position; only its value changes. */
  lemma {:induction false} PutExisting<V>(d: Dict<V>, k: string, v: V, i: nat)
    requires i < |d| && d[i].0 == k && k !in Keys(d[..i])
    ensures Put(d, k, v) == d[i := (k, v)]
    decreases |d|
  {
    if i > 0 {
      assert Keys(d[..i])[0] == d[0].0;
      assert d[1..][..i - 1] == d[..i][1..];
      KeysTail(d[..i]);
      PutExisting(d[1..], k, v, i - 1);
    }
  }

  lemma KeysTail<V>(d: Dict<V>)
    requires d != []
    ensures Keys(d) == [d[0].0] + Keys(d[1..])
  {
  }

  /** Putting never reorders or drops keys: the key sequence only gains `k`, at the end, when new. */
  lemma {:induction false} PutKeys<V>(d: Dict<V>, k: string, v: V)
    ensures Keys(Put(d, k, v)) == if k in Keys(d) then Keys(d) else Keys(d) + [k]
    decreases |d|
  {
    if d != [] {
      KeysTail(d);
      PutKeys(d[1..], k, v);
      if d[0].0 != k {
        KeysTail(Put(d, k, v));
      } else {
        KeysTail(Put(d, k, v));
      }
    }
  }

  /** After `d[k] = v`, `d[k]` is `v` and every other key reads as before. */
  lemma {:induction false} PutGet<V>(d: Dict<V>, k: string, v: V, k': string)
    ensures Get(Put(d, k, v), k') == if k' == k then Some(v) else Get(d, k')
    decreases |d|
  {
    if d != [] && d[0].0 != k {
      PutGet(d[1..], k, v, k');
    }
  }

  /** Assignments keep the keys unique. */
  lemma PutUnique<V>(d: Dict<V>, k: string, v: V)
    requires UniqueKeys(d)
    ensures UniqueKeys(Put(d, k, v))
  {
    if k in Keys(d) {
      var i := FirstKey(d, k);
      PutExisting(d, k, v, i);
    } else {
      PutNew(d, k, v);
    }
  }

  /** Position of the first entry with key `k`. */
  function FirstKey<V>(d: Dict<V>, k: string): (i: nat)
    requires k in Keys(d)
    ensures i < |d| && d[i].0 == k && k !in Keys(d[..i])
  {
    if d[0].0 == k then 0
    else
      KeysTail(d);
      var j := FirstKey(d[1..], k);
      assert d[..j + 1] == [d[0]] + d[1..][..j];
      KeysTail(d[..j + 1]);
      j + 1
  }

  /** The key order after inserting the keys `ks` one by one: each new key goes at the end, a known one stays put. */
  function EnterAll(keys: seq<string>, ks: seq<string>): seq<string>
    decreases |ks|
  {
    if ks == [] then keys
    else EnterAll(if ks[0] in keys then keys else keys + [ks[0]], ks[1..])
  }

  lemma EnterOne(keys: seq<string>, k: string)
    ensures EnterAll(keys, [k]) == if k in keys then keys else keys + [k]
  {
    assert [k][1..] == [];
  }

  lemma {:induction false} EnterAllAppend(keys: seq<string>, s: seq<string>, t: seq<string>)
    ensures EnterAll(keys, s + t) == EnterAll(EnterAll(keys, s), t)
    decreases |s|
  {
    if s == [] {
      assert s + t == t;
    } else {
      assert (s + t)[1..] == s[1..] + t;
      EnterAllAppend(if s[0] in keys then keys else keys + [s[0]], s[1..], t);
    }
  }

  /** Inserting keys that are new and distinct appends them in order. */
  lemma {:induction false} EnterAllFresh(keys: seq<string>, ks: seq<string>)
    requires forall i :: 0 <= i < |ks| ==> ks[i] !in keys && ks[i] !in ks[..i]
    ensures EnterAll(keys, ks) == keys + ks
    decreases |ks|
  {
    if ks != [] {
      assert ks[0] !in keys;
      forall i | 0 <= i < |ks[1..]|
        ensures ks[1..][i] !in keys + [ks[0]] && ks[1..][i] !in ks[1..][..i]
      {
        assert ks[1..][i] == ks[i + 1];
        assert ks[..i + 1] == [ks[0]] + ks[1..][..i];
      }
      EnterAllFresh(keys + [ks[0]], ks[1..]);
      assert keys + [ks[0]] + ks[1..] == keys + ks;
    }
  }

  /** Every entered key is present, and nothing else is added. */
  lemma {:induction false} EnterAllMembers(keys: seq<string>, ks: seq<string>, k: string)
    ensures k in EnterAll(keys, ks) <==> k in keys || k in ks
    decreases |ks|
  {
    if ks != [] {
      EnterAllMembers(if ks[0] in keys then keys else keys + [ks[0]], ks[1..], k);
      assert ks == [ks[0]] + ks[1..];
    }
  }

  /** Keys that are new when they are entered end up last, in order. */
  lemma EnterAllTail(keys: seq<string>, ws: seq<string>, tail: seq<string>)
    requires forall i :: 0 <= i < |tail| ==> tail[i] !in keys && tail[i] !in ws && tail[i] !in tail[..i]
    ensures EnterAll(keys, ws + tail) == EnterAll(keys, ws) + tail
  {
    EnterAllAppend(keys, ws, tail);
    forall i | 0 <= i < |tail|
      ensures tail[i] !in EnterAll(keys, ws) && tail[i] !in tail[..i]
    {
      EnterAllMembers(keys, ws, tail[i]);
    }
    EnterAllFresh(EnterAll(keys, ws), tail);
  }
}
