/**
 * Python dictionaries with string keys, kept in insertion order as association
 * lists: `d[k] = v` replaces the entry in place or appends it, `d.update(e)`
 * assigns e's entries one after the other, and `sorted(d.items())` orders the
 * entries by key.
 */
module Dicts {
  import opened Wrappers
  import opened Text

  type Dict<V> = seq<(string, V)>

  /** d.get(k): the value of the first entry with key k. */
  function Lookup<V>(d: Dict<V>, k: string): Option<V>
  {
    if d == [] then None else if d[0].0 == k then Some(d[0].1) else Lookup(d[1..], k)
  }

  predicate HasKey<V>(d: Dict<V>, k: string) { Lookup(d, k).Some? }

  /** No key occurs twice: every Python dict has this shape. */
  predicate Distinct<V>(d: Dict<V>)
  {
    d == [] || (!HasKey(d[1..], d[0].0) && Distinct(d[1..]))
  }

  /** d[k] = v */
  function Put<V>(d: Dict<V>, k: string, v: V): Dict<V>
  {
    if d == [] then [(k, v)]
    else if d[0].0 == k then [(k, v)] + d[1..]
    else [d[0]] + Put(d[1..], k, v)
  }

  /** d.update(e) */
  function Update<V>(d: Dict<V>, e: Dict<V>): Dict<V>
    decreases |e|
  {
    if e == [] then d else Update(Put(d, e[0].0, e[0].1), e[1..])
  }

  /** The keys in order. */
  function Keys<V>(d: Dict<V>): seq<string>
  {
    if d == [] then [] else [d[0].0] + Keys(d[1..])
  }

  /** The dict without the entry for k (a comprehension that skips k). */
  function Remove<V>(d: Dict<V>, k: string): Dict<V>
  {
    if d == [] then [] else if d[0].0 == k then Remove(d[1..], k) else [d[0]] + Remove(d[1..], k)
  }

  // ----------------------------------------------------------- properties

  lemma {:induction false} LookupPut<V>(d: Dict<V>, k: string, v: V, k': string)
    ensures Lookup(Put(d, k, v), k') == if k' == k then Some(v) else Lookup(d, k')
  {
    if d != [] && d[0].0 != k {
      LookupPut(d[1..], k, v, k');
    }
  }

  lemma {:induction false} PutDistinct<V>(d: Dict<V>, k: string, v: V)
    requires Distinct(d)
    ensures Distinct(Put(d, k, v))
  {
    if d == [] {
    } else if d[0].0 == k {
      assert Put(d, k, v)[1..] == d[1..];
    } else {
      PutDistinct(d[1..], k, v);
      LookupPut(d[1..], k, v, d[0].0);
      assert Put(d, k, v)[1..] == Put(d[1..], k, v);
    }
  }

  /** a and b hold the same entries apart from key k. */
  ghost predicate SameBut<V(!new)>(a: Dict<V>, b: Dict<V>, k: string)
  {
    forall x :: Put(a, k, x) == Put(b, k, x)
  }

  /** Putting at k, zero or more times, changes nothing but k. */
  lemma SameButPut<V(!new)>(a: Dict<V>, b: Dict<V>, k: string, v: V)
    requires SameBut(a, b, k)
    ensures SameBut(Put(a, k, v), b, k)
  {
    forall x ensures Put(Put(a, k, v), k, x) == Put(b, k, x) {
      PutSame(a, k, v, x);
    }
  }

  lemma SameButTrans<V(!new)>(a: Dict<V>, b: Dict<V>, c: Dict<V>, k: string)
    requires SameBut(a, b, k) && SameBut(b, c, k)
    ensures SameBut(a, c, k)
  {
  }

  lemma {:induction false} PutLength<V>(d: Dict<V>, k: string, v: V)
    ensures |Put(d, k, v)| == if HasKey(d, k) then |d| else |d| + 1
  {
    if d != [] && d[0].0 != k {
      PutLength(d[1..], k, v);
    }
  }

  lemma {:induction false} PutFresh<V>(d: Dict<V>, k: string, v: V)
    requires !HasKey(d, k)
    ensures Put(d, k, v) == d + [(k, v)]
  {
    if d != [] {
      PutFresh(d[1..], k, v);
      assert [d[0]] + (d[1..] + [(k, v)]) == d + [(k, v)];
    }
  }

  /** An entry under another key keeps its place. */
  lemma {:induction false} PutAt<V>(d: Dict<V>, k: string, v: V, i: nat)
    requires i < |d| && d[i].0 != k
    ensures i < |Put(d, k, v)| && Put(d, k, v)[i] == d[i]
  {
    if d[0].0 != k && i > 0 {
      PutAt(d[1..], k, v, i - 1);
    }
  }

  lemma {:induction false} PutSame<V>(d: Dict<V>, k: string, v: V, w: V)
    ensures Put(Put(d, k, v), k, w) == Put(d, k, w)
  {
    if d != [] && d[0].0 != k {
      PutSame(d[1..], k, v, w);
    }
  }

  /** After d.update(e), the keys of e read e's values and the others read d's. */
  lemma {:induction false} LookupUpdate<V>(d: Dict<V>, e: Dict<V>, k: string)
    requires Distinct(e)
    ensures Lookup(Update(d, e), k) == if HasKey(e, k) then Lookup(e, k) else Lookup(d, k)
    decreases |e|
  {
    if e != [] {
      LookupUpdate(Put(d, e[0].0, e[0].1), e[1..], k);
      LookupPut(d, e[0].0, e[0].1, k);
    }
  }

  lemma {:induction false} UpdateDistinct<V>(d: Dict<V>, e: Dict<V>)
    requires Distinct(d)
    ensures Distinct(Update(d, e))
    decreases |e|
  {
    if e != [] {
      PutDistinct(d, e[0].0, e[0].1);
      UpdateDistinct(Put(d, e[0].0, e[0].1), e[1..]);
    }
  }

  /** Building a dict from entries with distinct keys keeps them as they are. */
  lemma {:induction false} UpdateFresh<V>(d: Dict<V>, e: Dict<V>)
    requires Distinct(e)
    requires forall k :: HasKey(e, k) ==> !HasKey(d, k)
    ensures Update(d, e) == d + e
    decreases |e|
  {
    if e != [] {
      PutFresh(d, e[0].0, e[0].1);
      var d' := d + [e[0]];
      forall k | HasKey(e[1..], k) ensures !HasKey(d', k) {
        LookupAppend(d, [e[0]], k);
        assert Lookup(e, k) == Lookup(e[1..], k);
      }
      UpdateFresh(d', e[1..]);
      assert d' + e[1..] == d + e;
    }
  }

  lemma {:induction false} LookupAppend<V>(d: Dict<V>, e: Dict<V>, k: string)
    ensures Lookup(d + e, k) == if HasKey(d, k) then Lookup(d, k) else Lookup(e, k)
  {
    if d == [] {
      assert d + e == e;
    } else {
      assert (d + e)[1..] == d[1..] + e;
      LookupAppend(d[1..], e, k);
    }
  }

  lemma {:induction false} LookupRemove<V>(d: Dict<V>, k: string, k': string)
    ensures Lookup(Remove(d, k), k') == if k' == k then None else Lookup(d, k')
  {
    if d != [] {
      LookupRemove(d[1..], k, k');
    }
  }

  lemma {:induction false} KeysHasKey<V>(d: Dict<V>, k: string)
    ensures k in Keys(d) <==> HasKey(d, k)
  {
    if d != [] {
      KeysHasKey(d[1..], k);
    }
  }

  // -------------------------------------------------------- sorted(items)

  /** Entries in non-decreasing key order. */
  predicate SortedByKey<V>(d: Dict<V>)
  {
    forall i, j :: 0 <= i < j < |d| ==> !Less(d[j].0, d[i].0)
  }

  /** Put entry p before the first entry whose key is greater. */
  function Insert<V>(p: (string, V), d: Dict<V>): Dict<V>
  {
    if d == [] then [p] else if Less(p.0, d[0].0) then [p] + d else [d[0]] + Insert(p, d[1..])
  }

  /** sorted(d.items()) for a dict, whose keys are distinct. */
  function SortByKey<V>(d: Dict<V>): Dict<V>
  {
    if d == [] then [] else Insert(d[0], SortByKey(d[1..]))
  }

  /** No key of d is below lo. */
  predicate AtLeast<V>(d: Dict<V>, lo: string)
  {
    forall i :: 0 <= i < |d| ==> !Less(d[i].0, lo)
  }

  /** A sorted dict is its first entry before a sorted rest that is all at least that entry. */
  lemma ConsSorted<V>(q: (string, V), d: Dict<V>)
    ensures SortedByKey([q] + d) <==> AtLeast(d, q.0) && SortedByKey(d)
  {
    var r := [q] + d;
    if AtLeast(d, q.0) && SortedByKey(d) {
      forall i, j | 0 <= i < j < |r| ensures !Less(r[j].0, r[i].0) {
        if i == 0 {
          assert r[j] == d[j - 1];
        } else {
          assert r[i] == d[i - 1] && r[j] == d[j - 1];
        }
      }
    }
    if SortedByKey(r) {
      forall i | 0 <= i < |d| ensures !Less(d[i].0, q.0) {
        assert r[0] == q && r[i + 1] == d[i];
      }
      forall i, j | 0 <= i < j < |d| ensures !Less(d[j].0, d[i].0) {
        assert r[i + 1] == d[i] && r[j + 1] == d[j];
      }
    }
  }

  lemma {:induction false} InsertCount<V>(p: (string, V), d: Dict<V>)
    ensures |Insert(p, d)| == |d| + 1
    ensures multiset(Insert(p, d)) == multiset(d) + multiset{p}
  {
    if d != [] && !Less(p.0, d[0].0) {
      InsertCount(p, d[1..]);
      assert d == [d[0]] + d[1..];
    }
  }

  /** Inserting an entry that is at least lo keeps every key at least lo. */
  lemma {:induction false} InsertAtLeast<V>(p: (string, V), d: Dict<V>, lo: string)
    requires AtLeast(d, lo) && !Less(p.0, lo)
    ensures AtLeast(Insert(p, d), lo)
  {
    if d != [] && !Less(p.0, d[0].0) {
      assert AtLeast(d[1..], lo) by {
        forall i | 0 <= i < |d| - 1 ensures !Less(d[1..][i].0, lo) {
          assert d[1..][i] == d[i + 1];
        }
      }
      InsertAtLeast(p, d[1..], lo);
      assert Insert(p, d) == [d[0]] + Insert(p, d[1..]);
      ConsAtLeast(d[0], Insert(p, d[1..]), lo);
    } else if d != [] {
      ConsAtLeast(p, d, lo);
    }
  }

  lemma ConsAtLeast<V>(q: (string, V), d: Dict<V>, lo: string)
    requires AtLeast(d, lo) && !Less(q.0, lo)
    ensures AtLeast([q] + d, lo)
  {
    forall i | 0 <= i < |d| + 1 ensures !Less(([q] + d)[i].0, lo) {
      if i > 0 {
        assert ([q] + d)[i] == d[i - 1];
      }
    }
  }

  lemma {:induction false} InsertSorted<V>(p: (string, V), d: Dict<V>)
    requires SortedByKey(d)
    ensures SortedByKey(Insert(p, d))
    ensures |Insert(p, d)| == |d| + 1
    ensures multiset(Insert(p, d)) == multiset(d) + multiset{p}
  {
    InsertCount(p, d);
    if d == [] {
    } else if Less(p.0, d[0].0) {
      assert AtLeast(d, p.0) by {
        forall j | 0 <= j < |d| ensures !Less(d[j].0, p.0) {
          if j == 0 {
            LessAsymmetric(p.0, d[0].0);
          } else if Less(d[j].0, p.0) {
            LessTransitive(d[j].0, p.0, d[0].0);
            assert false;
          }
        }
      }
      ConsSorted(p, d);
    } else {
      assert d == [d[0]] + d[1..];
      ConsSorted(d[0], d[1..]);
      InsertSorted(p, d[1..]);
      InsertAtLeast(p, d[1..], d[0].0);
      ConsSorted(d[0], Insert(p, d[1..]));
    }
  }

  lemma {:induction false} SortByKeySorted<V>(d: Dict<V>)
    ensures SortedByKey(SortByKey(d)) && |SortByKey(d)| == |d|
    ensures multiset(SortByKey(d)) == multiset(d)
  {
    if d != [] {
      SortByKeySorted(d[1..]);
      InsertSorted(d[0], SortByKey(d[1..]));
      assert d == [d[0]] + d[1..];
    }
  }

  lemma {:induction false} LookupInsert<V>(p: (string, V), d: Dict<V>, k: string)
    requires !HasKey(d, p.0)
    ensures Lookup(Insert(p, d), k) == if k == p.0 then Some(p.1) else Lookup(d, k)
  {
    if d != [] && !Less(p.0, d[0].0) {
      LookupInsert(p, d[1..], k);
    }
  }

  lemma {:induction false} InsertDistinct<V>(p: (string, V), d: Dict<V>)
    requires Distinct(d) && !HasKey(d, p.0)
    ensures Distinct(Insert(p, d))
  {
    if d != [] && !Less(p.0, d[0].0) {
      InsertDistinct(p, d[1..]);
      LookupInsert(p, d[1..], d[0].0);
    }
  }

  /** Sorting the items of a dict keeps every key's value and distinctness. */
  lemma {:induction false} SortByKeyEntries<V>(d: Dict<V>)
    requires Distinct(d)
    ensures Distinct(SortByKey(d))
    ensures forall k :: Lookup(SortByKey(d), k) == Lookup(d, k)
  {
    if d != [] {
      SortByKeyEntries(d[1..]);
      var s := SortByKey(d[1..]);
      assert !HasKey(s, d[0].0);
      InsertDistinct(d[0], s);
      forall k ensures Lookup(SortByKey(d), k) == Lookup(d, k) {
        LookupInsert(d[0], s, k);
      }
    }
  }

  /** With distinct keys, sorted order is strict. */
  lemma SortedDistinctStrict<V>(d: Dict<V>, i: nat, j: nat)
    requires SortedByKey(d) && Distinct(d) && i < j < |d|
    ensures Less(d[i].0, d[j].0)
  {
    DistinctAt(d, i, j);
    LessTotal(d[i].0, d[j].0);
  }

  lemma {:induction false} DistinctAt<V>(d: Dict<V>, i: nat, j: nat)
    requires Distinct(d) && i < j < |d|
    ensures d[i].0 != d[j].0
  {
    if i == 0 {
      LookupAt(d[1..], j - 1);
    } else {
      DistinctAt(d[1..], i - 1, j - 1);
    }
  }

  lemma {:induction false} LookupAt<V>(d: Dict<V>, i: nat)
    requires i < |d|
    ensures HasKey(d, d[i].0)
  {
    if i > 0 && d[0].0 != d[i].0 {
      LookupAt(d[1..], i - 1);
    }
  }

  lemma {:induction false} NotKeyFromIndices<V>(d: Dict<V>, k: string)
    requires forall i :: 0 <= i < |d| ==> d[i].0 != k
    ensures !HasKey(d, k)
  {
    if d != [] {
      NotKeyFromIndices(d[1..], k);
    }
  }

  /** Keys that differ pairwise make a dict. */
  lemma {:induction false} DistinctFromIndices<V>(d: Dict<V>)
    requires forall i, j :: 0 <= i < j < |d| ==> d[i].0 != d[j].0
    ensures Distinct(d)
  {
    if d != [] {
      NotKeyFromIndices(d[1..], d[0].0);
      DistinctFromIndices(d[1..]);
    }
  }

  /**
   * The entries whose key starts with `prefix`, with the prefix cut off and
   * the value passed through f:
   * `{k[len(prefix):]: f(v) for k, v in d.items() if k.startswith(prefix)}`.
   */
  function Unprefixed<V, W>(d: Dict<V>, prefix: string, f: V -> W): Dict<W>
  {
    if d == [] then []
    else if prefix <= d[0].0 then [(d[0].0[|prefix|..], f(d[0].1))] + Unprefixed(d[1..], prefix, f)
    else Unprefixed(d[1..], prefix, f)
  }

  /** Each stripped key reads what its prefixed key read. */
  lemma {:induction false} LookupUnprefixed<V, W>(d: Dict<V>, prefix: string, f: V -> W, k: string)
    ensures Lookup(Unprefixed(d, prefix, f), k) ==
      match Lookup(d, prefix + k) case Some(v) => Some(f(v)) case None => None
  {
    if d != [] {
      var key := d[0].0;
      if prefix <= key {
        assert key == prefix + key[|prefix|..];
        assert (key[|prefix|..] == k) <==> (key == prefix + k) by {
          if key == prefix + k {
            assert k == (prefix + k)[|prefix|..];
          }
        }
      } else {
        assert prefix <= prefix + k;
      }
      LookupUnprefixed(d[1..], prefix, f, k);
    }
  }

  lemma {:induction false} UnprefixedDistinct<V, W>(d: Dict<V>, prefix: string, f: V -> W)
    requires Distinct(d)
    ensures Distinct(Unprefixed(d, prefix, f))
  {
    if d != [] {
      UnprefixedDistinct(d[1..], prefix, f);
      var key := d[0].0;
      if prefix <= key {
        assert key == prefix + key[|prefix|..];
        LookupUnprefixed(d[1..], prefix, f, key[|prefix|..]);
      }
    }
  }

  /** Writing a key without the prefix leaves the stripped entries alone. */
  lemma {:induction false} UnprefixedPut<V, W>(d: Dict<V>, prefix: string, f: V -> W, k: string, v: V)
    requires !(prefix <= k)
    ensures Unprefixed(Put(d, k, v), prefix, f) == Unprefixed(d, prefix, f)
  {
    if d != [] && d[0].0 != k {
      UnprefixedPut(d[1..], prefix, f, k, v);
      assert Put(d, k, v)[1..] == Put(d[1..], k, v);
    }
  }

  /** The keys, position by position. */
  lemma {:induction false} KeysIndex<V>(d: Dict<V>)
    ensures |Keys(d)| == |d| && forall i :: 0 <= i < |d| ==> Keys(d)[i] == d[i].0
  {
    if d != [] {
      KeysIndex(d[1..]);
    }
  }

  /** In a dict, the entry at index i is what its key looks up. */
  /** A key a dict has sits at some index, and its lookup is the value there. */
  lemma {:induction false} KeyIndex<V>(d: Dict<V>, k: string) returns (i: nat)
    requires HasKey(d, k)
    ensures i < |d| && d[i].0 == k && Lookup(d, k) == Some(d[i].1)
  {
    if d[0].0 == k {
      i := 0;
    } else {
      var j := KeyIndex(d[1..], k);
      i := j + 1;
    }
  }

  lemma {:induction false} LookupIndex<V>(d: Dict<V>, i: nat)
    requires Distinct(d) && i < |d|
    ensures Lookup(d, d[i].0) == Some(d[i].1)
  {
    if i > 0 {
      DistinctAt(d, 0, i);
      LookupIndex(d[1..], i - 1);
    }
  }

  lemma {:induction false} RemoveDistinct<V>(d: Dict<V>, k: string)
    requires Distinct(d)
    ensures Distinct(Remove(d, k))
  {
    if d != [] {
      RemoveDistinct(d[1..], k);
      LookupRemove(d[1..], k, d[0].0);
    }
  }

  /** Every entry of d[k] = v is the new one or an entry of d. */
  lemma {:induction false} PutEntry<V>(d: Dict<V>, k: string, v: V, i: nat)
    requires i < |Put(d, k, v)|
    ensures Put(d, k, v)[i] == (k, v) || Put(d, k, v)[i] in d
  {
    if d != [] && d[0].0 != k && i > 0 {
      PutEntry(d[1..], k, v, i - 1);
    }
  }

  /** Every entry left by Remove is an entry of d. */
  lemma {:induction false} RemoveEntry<V>(d: Dict<V>, k: string, i: nat)
    requires i < |Remove(d, k)|
    ensures Remove(d, k)[i] in d
  {
    if d[0].0 == k {
      RemoveEntry(d[1..], k, i);
    } else if i > 0 {
      RemoveEntry(d[1..], k, i - 1);
    }
  }
}
