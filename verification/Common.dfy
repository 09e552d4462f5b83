/** Small shared vocabulary: optional values and the ordered dictionary that
    the Python code relies on (a dict keeps the position of a key when the key
    is assigned again). */
module Common {
  datatype Option<+T> = None | Some(value: T)

  predicate Distinct<T(==)>(s: seq<T>) {
    forall i, j :: 0 <= i < j < |s| ==> s[i] != s[j]
  }

  /** A list with its later repetitions removed: first-seen order. */
  function FirstSeen(keys: seq<string>): (r: seq<string>)
    ensures Distinct(r)
    ensures forall k :: k in r <==> k in keys
  {
    if keys == [] then []
    else
      var init, last := keys[..|keys| - 1], keys[|keys| - 1];
      assert keys == init + [last];
      if last in init then FirstSeen(init) else FirstSeen(init) + [last]
  }
}

module OrderedDict {
  import opened Common

  datatype Entry<V> = Entry(key: string, value: V)
  type Dict<V> = seq<Entry<V>>

  function Keys<V>(d: Dict<V>): (r: seq<string>)
    ensures |r| == |d|
    ensures forall i :: 0 <= i < |d| ==> r[i] == d[i].key
  {
    seq(|d|, i requires 0 <= i < |d| => d[i].key)
  }

  function Values<V>(d: Dict<V>): (r: seq<V>)
    ensures |r| == |d|
    ensures forall i :: 0 <= i < |d| ==> r[i] == d[i].value
  {
    seq(|d|, i requires 0 <= i < |d| => d[i].value)
  }

  ghost predicate WellFormed<V>(d: Dict<V>) {
    Distinct(Keys(d))
  }

  function Get<V>(d: Dict<V>, k: string): (r: Option<V>)
    ensures r.Some? <==> k in Keys(d)
    ensures r.Some? ==> exists i :: 0 <= i < |d| && d[i] == Entry(k, r.value)
  {
    if d == [] then None
    else if d[0].key == k then Some(d[0].value)
    else
      assert Keys(d) == [d[0].key] + Keys(d[1..]);
      Get(d[1..], k)
  }

  /** `d[k] = v` */
  function Put<V>(d: Dict<V>, k: string, v: V): Dict<V> {
    if d == [] then [Entry(k, v)]
    else if d[0].key == k then [Entry(k, v)] + d[1..]
    else [d[0]] + Put(d[1..], k, v)
  }

  lemma {:induction false} PutKeys<V>(d: Dict<V>, k: string, v: V)
    ensures Keys(Put(d, k, v)) == if k in Keys(d) then Keys(d) else Keys(d) + [k]
  {
    if d != [] {
      var rest := Put(d[1..], k, v);
      assert Keys(d) == [d[0].key] + Keys(d[1..]);
      if d[0].key == k {
        assert Keys([Entry(k, v)] + d[1..]) == [k] + Keys(d[1..]);
      } else {
        PutKeys(d[1..], k, v);
        assert Keys([d[0]] + rest) == [d[0].key] + Keys(rest);
      }
    }
  }

  /** `d.setdefault(k, v)` */
  function SetDefault<V>(d: Dict<V>, k: string, v: V): Dict<V> {
    if k in Keys(d) then d else d + [Entry(k, v)]
  }

  lemma {:induction false} GetPut<V>(d: Dict<V>, k: string, v: V, q: string)
    ensures Get(Put(d, k, v), q) == if q == k then Some(v) else Get(d, q)
  {
    if d != [] && d[0].key != k {
      GetPut(d[1..], k, v, q);
      assert ([d[0]] + Put(d[1..], k, v))[1..] == Put(d[1..], k, v);
    } else if d != [] {
      assert ([Entry(k, v)] + d[1..])[1..] == d[1..];
    }
  }

  lemma {:induction false} GetAppend<V>(d: Dict<V>, e: Entry<V>, q: string)
    ensures Get(d + [e], q) == if q in Keys(d) then Get(d, q) else if q == e.key then Some(e.value) else None
  {
    if d != [] {
      assert Keys(d) == [d[0].key] + Keys(d[1..]);
      assert (d + [e])[1..] == d[1..] + [e];
      GetAppend(d[1..], e, q);
    }
  }

  lemma {:induction false} GetAt<V>(d: Dict<V>, i: nat)
    requires WellFormed(d) && i < |d|
    ensures Get(d, d[i].key) == Some(d[i].value)
  {
    if i > 0 {
      assert d[0].key == Keys(d)[0] && d[i].key == Keys(d)[i];
      assert Keys(d[1..]) == Keys(d)[1..];
      GetAt(d[1..], i - 1);
    }
  }

  /** Two dictionaries with the same key order and the same lookups are equal. */
  lemma Extensional<V>(a: Dict<V>, b: Dict<V>)
    requires WellFormed(a) && WellFormed(b) && Keys(a) == Keys(b)
    requires forall k :: k in Keys(a) ==> Get(a, k) == Get(b, k)
    ensures a == b
  {
    forall i | 0 <= i < |a| ensures a[i] == b[i] {
      GetAt(a, i);
      GetAt(b, i);
      assert a[i].key == Keys(a)[i] == Keys(b)[i] == b[i].key;
      assert a[i].key in Keys(a);
    }
  }

  // -- folds ------------------------------------------------------------

  function PutAll<V>(d: Dict<V>, xs: seq<Entry<V>>): Dict<V> {
    if xs == [] then d
    else
      var e := xs[|xs| - 1];
      Put(PutAll(d, xs[..|xs| - 1]), e.key, e.value)
  }

  function DefaultAll<V>(d: Dict<V>, xs: seq<Entry<V>>): Dict<V> {
    if xs == [] then d
    else
      var e := xs[|xs| - 1];
      SetDefault(DefaultAll(d, xs[..|xs| - 1]), e.key, e.value)
  }

  /** The value of the last entry for `k`. */
  function LastOf<V>(xs: seq<Entry<V>>, k: string): (r: Option<V>)
    ensures r.Some? <==> k in Keys(xs)
    ensures r.Some? ==> Entry(k, r.value) in xs
  {
    if xs == [] then None
    else
      assert Keys(xs) == Keys(xs[..|xs| - 1]) + [xs[|xs| - 1].key];
      if xs[|xs| - 1].key == k then Some(xs[|xs| - 1].value) else LastOf(xs[..|xs| - 1], k)
  }

  lemma {:induction false} PutAllKeys<V>(xs: seq<Entry<V>>)
    ensures Keys(PutAll([], xs)) == FirstSeen(Keys(xs))
    ensures WellFormed(PutAll([], xs))
  {
    if xs != [] {
      var init := xs[..|xs| - 1];
      PutAllKeys(init);
      PutKeys(PutAll([], init), xs[|xs| - 1].key, xs[|xs| - 1].value);
      assert Keys(xs)[..|xs| - 1] == Keys(init);
    }
  }

  lemma {:induction false} PutAllGet<V>(xs: seq<Entry<V>>, k: string)
    ensures Get(PutAll([], xs), k) == LastOf(xs, k)
  {
    if xs != [] {
      var init, e := xs[..|xs| - 1], xs[|xs| - 1];
      PutAllGet(init, k);
      GetPut(PutAll([], init), e.key, e.value, k);
    }
  }

  lemma {:induction false} PutAllConcat<V>(d: Dict<V>, xs: seq<Entry<V>>, ys: seq<Entry<V>>)
    ensures PutAll(d, xs + ys) == PutAll(PutAll(d, xs), ys)
  {
    if ys == [] {
      assert xs + ys == xs;
    } else {
      PutAllConcat(d, xs, ys[..|ys| - 1]);
      assert (xs + ys)[..|xs + ys| - 1] == xs + ys[..|ys| - 1];
    }
  }

  lemma {:induction false} DefaultAllConcat<V>(d: Dict<V>, xs: seq<Entry<V>>, ys: seq<Entry<V>>)
    ensures DefaultAll(d, xs + ys) == DefaultAll(DefaultAll(d, xs), ys)
  {
    if ys == [] {
      assert xs + ys == xs;
    } else {
      DefaultAllConcat(d, xs, ys[..|ys| - 1]);
      assert (xs + ys)[..|xs + ys| - 1] == xs + ys[..|ys| - 1];
    }
  }

  /** Assigning a dictionary's own entries one by one rebuilds it. */
  lemma PutAllFixed<V>(d: Dict<V>)
    requires WellFormed(d)
    ensures PutAll([], d) == d
  {
    PutAllKeys(d);
    FirstSeenDistinct(Keys(d));
    forall k | k in Keys(d) ensures Get(PutAll([], d), k) == Get(d, k) {
      PutAllGet(d, k);
      LastOfDistinct(d, k);
    }
    Extensional(PutAll([], d), d);
  }

  lemma {:induction false} FirstSeenDistinct(keys: seq<string>)
    requires Distinct(keys)
    ensures FirstSeen(keys) == keys
  {
    if keys != [] {
      var init := keys[..|keys| - 1];
      FirstSeenDistinct(init);
      assert keys == init + [keys[|keys| - 1]];
    }
  }

  lemma {:induction false} LastOfConcat<V>(a: seq<Entry<V>>, b: seq<Entry<V>>, k: string)
    ensures LastOf(a + b, k) == if k in Keys(b) then LastOf(b, k) else LastOf(a, k)
  {
    if b == [] {
      assert a + b == a;
    } else {
      LastOfConcat(a, b[..|b| - 1], k);
      assert (a + b)[..|a + b| - 1] == a + b[..|b| - 1];
      assert Keys(b) == Keys(b[..|b| - 1]) + [b[|b| - 1].key];
    }
  }

  lemma LastOfDistinct<V>(d: Dict<V>, k: string)
    requires WellFormed(d) && k in Keys(d)
    ensures LastOf(d, k) == Get(d, k)
  {
    var v := LastOf(d, k).value;
    var i :| 0 <= i < |d| && d[i] == Entry(k, v);
    GetAt(d, i);
  }

  lemma {:induction false} DefaultAllGet<V>(d: Dict<V>, xs: seq<Entry<V>>, k: string)
    ensures k in Keys(d) ==> Get(DefaultAll(d, xs), k) == Get(d, k)
    ensures k in Keys(DefaultAll(d, xs)) <==> k in Keys(d) || k in Keys(xs)
    ensures Keys(d) <= Keys(DefaultAll(d, xs))
    ensures WellFormed(d) ==> WellFormed(DefaultAll(d, xs))
  {
    if xs != [] {
      var init, e := xs[..|xs| - 1], xs[|xs| - 1];
      var before := DefaultAll(d, init);
      DefaultAllGet(d, init, k);
      assert Keys(xs) == Keys(init) + [e.key];
      if e.key !in Keys(before) {
        GetAppend(before, e, k);
        assert Keys(before + [e]) == Keys(before) + [e.key];
      }
    }
  }
}
