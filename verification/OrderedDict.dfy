/** Python's OrderedDict, oldest entry first, and the bounded caches built on it. */
module OrderedDict {

  type Dict<V> = seq<(string, V)>

  ghost predicate Distinct<V>(d: Dict<V>) {
    forall i, j | 0 <= i < j < |d| :: d[i].0 != d[j].0
  }

  predicate Has<V>(d: Dict<V>, k: string) {
    exists i | 0 <= i < |d| :: d[i].0 == k
  }

  function Get<V>(d: Dict<V>, k: string): V
    requires Has(d, k)
  {
    if d[0].0 == k then d[0].1 else Get(d[1..], k)
  }

  function Remove<V>(d: Dict<V>, k: string): (r: Dict<V>)
    ensures |r| <= |d|
  {
    if d == [] then [] else (if d[0].0 == k then [] else [d[0]]) + Remove(d[1..], k)
  }

  // d[k] = v; d.move_to_end(k)
  function Put<V>(d: Dict<V>, k: string, v: V): Dict<V> {
    Remove(d, k) + [(k, v)]
  }

  // while len(d) > n: d.popitem(last=False)
  function Trim<V>(d: Dict<V>, n: nat): (r: Dict<V>)
    ensures |r| == if |d| > n then n else |d|
  {
    if |d| > n then d[|d| - n..] else d
  }

  method TrimTo<V>(d: Dict<V>, n: nat) returns (r: Dict<V>)
    ensures r == Trim(d, n)
  {
    r := d;
    while |r| > n
      invariant r == d || (|r| >= n && |d| > n && r == d[|d| - |r|..])
    {
      r := r[1..];
    }
  }

  // What is left was there, under another key.
  lemma {:induction false} Left<V>(d: Dict<V>, k: string, i: nat) returns (j: nat)
    requires i < |Remove(d, k)|
    ensures i <= j < |d| && d[j] == Remove(d, k)[i] && d[j].0 != k
    decreases |d|
  {
    var rest := Remove(d[1..], k);
    if d[0].0 == k {
      j := Left(d[1..], k, i);
      j := j + 1;
    } else if i == 0 {
      j := 0;
    } else {
      assert Remove(d, k)[i] == rest[i - 1];
      j := Left(d[1..], k, i - 1);
      j := j + 1;
    }
  }

  lemma {:induction false} Kept<V>(d: Dict<V>, k: string, j: nat) returns (i: nat)
    requires j < |d| && d[j].0 != k
    ensures i < |Remove(d, k)| && Remove(d, k)[i] == d[j]
    decreases |d|
  {
    if j == 0 {
      i := 0;
    } else {
      i := Kept(d[1..], k, j - 1);
      if d[0].0 != k { i := i + 1; }
    }
  }

  lemma {:induction false} RemoveDistinct<V>(d: Dict<V>, k: string)
    requires Distinct(d)
    ensures Distinct(Remove(d, k))
    decreases |d|
  {
    if d != [] {
      RemoveDistinct(d[1..], k);
      var rest := Remove(d[1..], k);
      forall j | 0 <= j < |rest| ensures rest[j].0 != d[0].0 {
        var m := Left(d[1..], k, j);
        assert d[m + 1] == rest[j];
      }
    }
  }

  lemma PutDistinct<V>(d: Dict<V>, k: string, v: V)
    requires Distinct(d)
    ensures Distinct(Put(d, k, v))
  {
    RemoveDistinct(d, k);
    var r := Remove(d, k);
    forall i | 0 <= i < |r| ensures r[i].0 != k { var j := Left(d, k, i); }
  }

  lemma {:induction false} RemoveAbsent<V>(d: Dict<V>, k: string)
    requires !Has(d, k)
    ensures Remove(d, k) == d
    decreases |d|
  {
    if d != [] {
      assert !Has(d[1..], k) by { assert forall i | 0 <= i < |d[1..]| :: d[1..][i] == d[i + 1]; }
      RemoveAbsent(d[1..], k);
    }
  }

  lemma {:induction false} RemoveConcat<V>(a: Dict<V>, b: Dict<V>, k: string)
    ensures Remove(a + b, k) == Remove(a, k) + Remove(b, k)
    decreases |a|
  {
    if a == [] {
      assert a + b == b;
    } else {
      assert (a + b)[1..] == a[1..] + b;
      RemoveConcat(a[1..], b, k);
    }
  }

  // With distinct keys, removing a present key takes one entry.
  lemma {:induction false} RemoveOne<V>(d: Dict<V>, k: string)
    requires Distinct(d) && Has(d, k)
    ensures |Remove(d, k)| == |d| - 1
    decreases |d|
  {
    if d[0].0 == k {
      assert !Has(d[1..], k) by { assert forall i | 0 <= i < |d[1..]| :: d[1..][i] == d[i + 1]; }
      RemoveAbsent(d[1..], k);
    } else {
      var i :| 0 <= i < |d| && d[i].0 == k;
      assert d[1..][i - 1].0 == k;
      RemoveOne(d[1..], k);
    }
  }

  lemma TrimSuffix<V>(a: Dict<V>, b: Dict<V>, n: nat)
    requires |b| >= n
    ensures Trim(a + b, n) == Trim(b, n)
  {
  }

  lemma LargeEnough<V>(a: Dict<V>, b: Dict<V>, k: string)
    requires Distinct(a + b)
    ensures |Remove(b, k)| + 1 >= |b|
  {
    if Has(b, k) {
      assert forall i | 0 <= i < |b| :: (a + b)[|a| + i] == b[i];
      RemoveOne(b, k);
    } else {
      RemoveAbsent(b, k);
    }
  }

  // A bounded dictionary is the newest part of the unbounded one: putting an entry into the
  // trimmed dictionary and trimming again is trimming after putting it into the whole.
  lemma TrimmedPut<V>(d: Dict<V>, k: string, v: V, n: nat)
    requires Distinct(d)
    ensures Trim(Put(Trim(d, n), k, v), n) == Trim(Put(d, k, v), n)
  {
    hide Distinct, Remove, Has;
    if |d| > n {
      var older, newer := d[..|d| - n], d[|d| - n..];
      assert d == older + newer;
      RemoveConcat(older, newer, k);
      LargeEnough(older, newer, k);
      assert Put(d, k, v) == Remove(older, k) + Put(newer, k, v);
      TrimSuffix(Remove(older, k), Put(newer, k, v), n);
    }
  }

  lemma {:induction false} GetAt<V>(d: Dict<V>, i: nat)
    requires Distinct(d) && i < |d|
    ensures Has(d, d[i].0) && Get(d, d[i].0) == d[i].1
    decreases |d|
  {
    if i > 0 {
      assert d[1..][i - 1] == d[i];
      GetAt(d[1..], i - 1);
    }
  }

  lemma {:induction false} Found<V>(d: Dict<V>, k: string) returns (i: nat)
    requires Has(d, k)
    ensures i < |d| && d[i] == (k, Get(d, k))
    decreases |d|
  {
    if d[0].0 == k {
      i := 0;
    } else {
      var j :| 0 <= j < |d| && d[j].0 == k;
      assert d[1..][j - 1].0 == k;
      i := Found(d[1..], k);
      i := i + 1;
    }
  }

  // After a put the key has the value, and every other key is as it was.
  lemma PutGet<V>(d: Dict<V>, k: string, v: V, j: string)
    requires Distinct(d)
    ensures Has(Put(d, k, v), j) <==> Has(d, j) || j == k
    ensures Has(Put(d, k, v), j) ==> Get(Put(d, k, v), j) == if j == k then v else Get(d, j)
  {
    hide Distinct, Remove;
    var p := Put(d, k, v);
    PutDistinct(d, k, v);
    GetAt(p, |p| - 1);
    if Has(p, j) && j != k {
      var i := Found(p, j);
      var m := Left(d, k, i);
      GetAt(d, m);
    }
    if Has(d, j) && j != k {
      var m := Found(d, j);
      var i := Kept(d, k, m);
      assert p[i].0 == j;
    }
  }

  // A trimmed dictionary knows less, and nothing else.
  lemma TrimGet<V>(d: Dict<V>, n: nat, j: string)
    requires Distinct(d) && Has(Trim(d, n), j)
    ensures Has(d, j) && Get(d, j) == Get(Trim(d, n), j)
  {
    var i := Found(Trim(d, n), j);
    GetAt(d, i + |d| - |Trim(d, n)|);
  }

  lemma TrimDistinct<V>(d: Dict<V>, n: nat)
    requires Distinct(d)
    ensures Distinct(Trim(d, n))
  {
  }
}
