/** PHP arrays with string keys: ordered association lists in which each
    key occurs at most once. `Put` is `$a[$k] = $v` and `Merge` is
    `array_merge` (string keys only: later values override, existing keys
    keep their position, new keys are appended in order). */
module Arrays {
  import opened Base

  type Assoc<V> = seq<(string, V)>

  /** A loosely typed PHP value, as found in option arrays. */
  datatype Value = Null | Str(text: string) | Bool(flag: bool) | Arr(entries: seq<(string, Value)>)

  /** The array invariant: no key occurs twice. */
  predicate Distinct<V>(a: Assoc<V>) {
    forall i, j :: 0 <= i < j < |a| ==> a[i].0 != a[j].0
  }

  /** `$a[$k] ?? null`: the value stored under `k`. */
  function Get<V>(a: Assoc<V>, k: string): (r: Option<V>)
    ensures r.Some? <==> exists i :: 0 <= i < |a| && a[i].0 == k
    ensures r.Some? ==> exists i :: 0 <= i < |a| && a[i] == (k, r.value)
    decreases |a|
  {
    if |a| == 0 then None
    else if a[0].0 == k then Some(a[0].1)
    else
      var r := Get(a[1..], k);
      assert forall i :: 0 < i < |a| ==> a[i] == a[1..][i - 1];
      r
  }

  predicate Has<V>(a: Assoc<V>, k: string) {
    Get(a, k).Some?
  }

  /** `$a[$k] = $v`: overwrites `k` in place, or appends it. */
  function Put<V>(a: Assoc<V>, k: string, v: V): Assoc<V>
    decreases |a|
  {
    if |a| == 0 then [(k, v)]
    else if a[0].0 == k then [(k, v)] + a[1..]
    else [a[0]] + Put(a[1..], k, v)
  }

  /** What putting does: `k` now holds `v`; every other key's value, and
      every existing key's position, is as it was; a new key is appended at
      the end. */
  lemma PutSpec<V>(a: Assoc<V>, k: string, v: V)
    ensures Get(Put(a, k, v), k) == Some(v)
    ensures forall k' :: k' != k ==> Get(Put(a, k, v), k') == Get(a, k')
    ensures |Put(a, k, v)| == if Has(a, k) then |a| else |a| + 1
    ensures forall i :: 0 <= i < |a| ==> Put(a, k, v)[i].0 == a[i].0
    ensures !Has(a, k) ==> Put(a, k, v)[|a|] == (k, v)
  {
    PutGets(a, k, v);
    PutShape(a, k, v);
    forall k' | k' != k
      ensures Get(Put(a, k, v), k') == Get(a, k')
    {
      PutOther(a, k, v, k');
    }
  }

  lemma {:induction false} PutGets<V>(a: Assoc<V>, k: string, v: V)
    ensures Get(Put(a, k, v), k) == Some(v)
    decreases |a|
  {
    if |a| > 0 && a[0].0 != k {
      PutGets(a[1..], k, v);
      assert Put(a, k, v)[1..] == Put(a[1..], k, v);
    }
  }

  lemma {:induction false} PutOther<V>(a: Assoc<V>, k: string, v: V, k': string)
    requires k' != k
    ensures Get(Put(a, k, v), k') == Get(a, k')
    decreases |a|
  {
    if |a| > 0 {
      if a[0].0 == k {
        assert Put(a, k, v)[1..] == a[1..];
      } else {
        PutOther(a[1..], k, v, k');
        assert Put(a, k, v)[1..] == Put(a[1..], k, v);
      }
    }
  }

  lemma {:induction false} PutShape<V>(a: Assoc<V>, k: string, v: V)
    ensures |Put(a, k, v)| == if Has(a, k) then |a| else |a| + 1
    ensures forall i :: 0 <= i < |a| ==> Put(a, k, v)[i].0 == a[i].0
    ensures !Has(a, k) ==> Put(a, k, v)[|a|] == (k, v)
    decreases |a|
  {
    if |a| > 0 && a[0].0 != k {
      PutShape(a[1..], k, v);
      assert Get(a, k) == Get(a[1..], k);
      assert Put(a, k, v) == [a[0]] + Put(a[1..], k, v);
      assert forall i :: 0 < i < |a| ==> a[i] == a[1..][i - 1];
    }
  }

  /** Putting keeps the array invariant. */
  lemma {:induction false} PutDistinct<V>(a: Assoc<V>, k: string, v: V)
    requires Distinct(a)
    ensures Distinct(Put(a, k, v))
  {
    var r := Put(a, k, v);
    PutSpec(a, k, v);
    var isNew := !Has(a, k);
    forall i, j | 0 <= i < j < |r|
      ensures r[i].0 != r[j].0
    {
      if j < |a| {
        assert r[i].0 == a[i].0 && r[j].0 == a[j].0;
      } else {
        assert |r| != |a| && isNew;
        assert j == |a| && r[j].0 == k;
        assert r[i].0 == a[i].0;
        assert a[i].0 == k ==> Has(a, k);
      }
    }
  }

  /** A second put under the same key overrides the first entirely. */
  lemma {:induction false} PutPut<V>(a: Assoc<V>, k: string, v1: V, v2: V)
    ensures Put(Put(a, k, v1), k, v2) == Put(a, k, v2)
    decreases |a|
  {
    if |a| > 0 && a[0].0 != k {
      PutPut(a[1..], k, v1, v2);
    }
  }

  /** `array_merge($a, $b)` for string-keyed arrays. */
  function Merge<V>(a: Assoc<V>, b: Assoc<V>): (r: Assoc<V>)
    ensures |r| >= |a|
    ensures forall i :: 0 <= i < |a| ==> r[i].0 == a[i].0
    decreases |b|
  {
    if |b| == 0 then a
    else
      PutSpec(a, b[0].0, b[0].1);
      Merge(Put(a, b[0].0, b[0].1), b[1..])
  }

  /** What a merged array holds under each key: the second array's value
      when it has the key, otherwise the first array's. */
  lemma {:induction false} MergeGet<V>(a: Assoc<V>, b: Assoc<V>, k: string)
    requires Distinct(b)
    ensures Get(Merge(a, b), k) == if Has(b, k) then Get(b, k) else Get(a, k)
    decreases |b|
  {
    if |b| > 0 {
      var a' := Put(a, b[0].0, b[0].1);
      PutSpec(a, b[0].0, b[0].1);
      assert Distinct(b[1..]);
      MergeGet(a', b[1..], k);
      if k == b[0].0 {
        assert forall i :: 0 <= i < |b[1..]| ==> b[1..][i].0 == b[i + 1].0 != k;
      } else {
        assert Get(b, k) == Get(b[1..], k);
      }
    }
  }

  /** Merging keeps the array invariant. */
  lemma {:induction false} MergeDistinct<V>(a: Assoc<V>, b: Assoc<V>)
    requires Distinct(a)
    ensures Distinct(Merge(a, b))
    decreases |b|
  {
    if |b| > 0 {
      PutDistinct(a, b[0].0, b[0].1);
      MergeDistinct(Put(a, b[0].0, b[0].1), b[1..]);
    }
  }
}
