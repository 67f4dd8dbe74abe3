/** Python's insertion-ordered `dict` as a sequence of (key, value) pairs, and the
    list facts the tool tables rely on. */
module Lists {
  import opened Wrappers

  /** No element occurs twice (the keys of a `dict` are like this). */
  predicate NoDup<T(==)>(s: seq<T>)
  {
    forall i, j :: 0 <= i < j < |s| ==> s[i] != s[j]
  }

  /** No element of `a` occurs in `b`. */
  predicate Disjoint<T(==)>(a: seq<T>, b: seq<T>)
  {
    forall x :: x in a ==> x !in b
  }

  /** Two duplicate-free, disjoint lists concatenate to a duplicate-free list. */
  lemma NoDupConcat<T>(a: seq<T>, b: seq<T>)
    requires NoDup(a) && NoDup(b) && Disjoint(a, b)
    ensures NoDup(a + b)
  {
    forall i, j | 0 <= i < j < |a + b| ensures (a + b)[i] != (a + b)[j] {
      if i < |a| && j >= |a| {
        assert (a + b)[i] in a;
        assert (a + b)[j] == b[j - |a|];
      }
    }
  }

  /** A list that shares nothing with `c` can be extended by another such list. */
  lemma DisjointConcat<T>(a: seq<T>, b: seq<T>, c: seq<T>)
    requires Disjoint(a, c) && Disjoint(b, c)
    ensures Disjoint(a + b, c)
  {
  }

  /** The keys of an ordered dictionary, in insertion order (`d.keys()`). */
  function Keys<K, V>(d: seq<(K, V)>): (ks: seq<K>)
    ensures |ks| == |d|
    ensures forall i :: 0 <= i < |d| ==> ks[i] == d[i].0
  {
    seq(|d|, i requires 0 <= i < |d| => d[i].0)
  }

  lemma KeysConcat<K, V>(a: seq<(K, V)>, b: seq<(K, V)>)
    ensures Keys(a + b) == Keys(a) + Keys(b)
  {
  }

  /** `d[key]`, or `None` where Python raises `KeyError`: the value stored with
      the first (for a `dict`: the only) occurrence of `key`. */
  function Find<K(==), V>(d: seq<(K, V)>, key: K): (r: Option<V>)
    ensures r.None? <==> key !in Keys(d)
    ensures r.Some? ==> exists i :: 0 <= i < |d| && d[i] == (key, r.value) && forall j :: 0 <= j < i ==> d[j].0 != key
  {
    if d == [] then None
    else if d[0].0 == key then (assert d[0] == (key, d[0].1); Some(d[0].1))
    else
      var r := Find(d[1..], key);
      assert Keys(d) == [d[0].0] + Keys(d[1..]);
      if r.Some? then
        ghost var i :| 0 <= i < |d[1..]| && d[1..][i] == (key, r.value) && forall j :: 0 <= j < i ==> d[1..][j].0 != key;
        assert d[i + 1] == (key, r.value);
        MissesShifted(d, key, i);
        r
      else r
  }

  /** A key missed by the first `i` entries of the tail and by the head is missed
      by the first `i + 1` entries. */
  lemma MissesShifted<K, V>(d: seq<(K, V)>, key: K, i: nat)
    requires d != [] && d[0].0 != key && i < |d|
    requires forall j :: 0 <= j < i ==> d[1..][j].0 != key
    ensures forall j :: 0 <= j < i + 1 ==> d[j].0 != key
  {
    forall j | 0 < j < i + 1 ensures d[j].0 != key {
      assert d[j] == d[1..][j - 1];
    }
  }

  /** A prefix one longer is the prefix followed by the next element. */
  lemma TakeSnoc<T>(s: seq<T>, i: nat)
    requires i < |s|
    ensures s[..i + 1] == s[..i] + [s[i]]
  {
    assert s[..i + 1] == s[..i] + [s[i]];
  }

  /** In a duplicate-free sequence two positions holding the same element are the
      same position. */
  lemma NoDupSameIndex<T>(s: seq<T>, i: nat, j: nat)
    requires NoDup(s) && i < |s| && j < |s| && s[i] == s[j]
    ensures i == j
  {
  }

  /** With duplicate-free keys, looking up the key at position `i` finds the value
      at position `i`. */
  lemma FindAt<K, V>(d: seq<(K, V)>, i: nat)
    requires NoDup(Keys(d)) && i < |d|
    ensures Find(d, d[i].0) == Some(d[i].1)
  {
    var key := d[i].0;
    assert Keys(d)[i] == key;
    var r := Find(d, key);
    var j :| 0 <= j < |d| && d[j] == (key, r.value);
    assert Keys(d)[j] == key;
    NoDupSameIndex(Keys(d), i, j);
  }

  /** A Python loop that calls a raising function `f` on each element in order
      and collects the results: the first failure propagates. */
  function MapResult<T, U, E>(f: T -> Result<U, E>, xs: seq<T>): (r: Result<seq<U>, E>)
    ensures r.Success? ==> |r.value| == |xs|
  {
    if xs == [] then Success([])
    else
      match MapResult(f, xs[..|xs| - 1])
      case Failure(e) => Failure(e)
      case Success(p) =>
        match f(xs[|xs| - 1])
        case Failure(e) => Failure(e)
        case Success(y) => Success(p + [y])
  }

  /** `MapResult` succeeds exactly when `f` succeeds on every element, and then
      holds the results in order. */
  lemma {:induction false} MapResultSuccess<T, U, E>(f: T -> Result<U, E>, xs: seq<T>)
    ensures MapResult(f, xs).Success? <==> forall i :: 0 <= i < |xs| ==> f(xs[i]).Success?
    ensures MapResult(f, xs).Success? ==>
      forall i :: 0 <= i < |xs| ==> MapResult(f, xs).value[i] == f(xs[i]).value
  {
    if xs != [] {
      var init := xs[..|xs| - 1];
      MapResultSuccess(f, init);
      assert forall i :: 0 <= i < |init| ==> init[i] == xs[i];
      if MapResult(f, init).Success? {
        var p := MapResult(f, init).value;
        if f(xs[|xs| - 1]).Success? {
          assert forall i :: 0 <= i < |init| ==> (p + [f(xs[|xs| - 1]).value])[i] == p[i];
        }
      } else {
        var i :| 0 <= i < |init| && !f(init[i]).Success?;
        assert !f(xs[i]).Success?;
      }
    }
  }

  /** When `MapResult` fails, it fails with the error of the first element on
      which `f` fails. */
  lemma {:induction false} MapResultFailure<T, U, E>(f: T -> Result<U, E>, xs: seq<T>)
    ensures MapResult(f, xs).Failure? ==> exists i ::
      (0 <= i < |xs| && f(xs[i]).Failure? && MapResult(f, xs).error == f(xs[i]).error
       && forall j :: 0 <= j < i ==> f(xs[j]).Success?)
  {
    if xs != [] {
      var init := xs[..|xs| - 1];
      MapResultFailure(f, init);
      MapResultSuccess(f, init);
      assert forall i :: 0 <= i < |init| ==> init[i] == xs[i];
      if MapResult(f, init).Failure? {
        var i :| 0 <= i < |init| && f(init[i]).Failure? && MapResult(f, init).error == f(init[i]).error
          && forall j :: 0 <= j < i ==> f(init[j]).Success?;
        assert f(xs[i]) == f(init[i]);
      }
    }
  }

  /** Once a prefix fails, the whole list fails with the same error (the loop
      stops at the first exception). */
  lemma {:induction false} MapResultFailureStays<T, U, E>(f: T -> Result<U, E>, xs: seq<T>, k: nat)
    requires k <= |xs| && MapResult(f, xs[..k]).Failure?
    ensures MapResult(f, xs) == MapResult(f, xs[..k])
    decreases |xs| - k
  {
    if k < |xs| {
      assert xs[..k + 1][..k] == xs[..k];
      MapResultFailureStays(f, xs, k + 1);
    } else {
      assert xs[..k] == xs;
    }
  }
}
