/** List transforms shared by transactions and investments: the `reduce`
    sums, the `map` that replaces a record by id and the `filter` that
    drops an id. Records are told apart by a `key` function. */
module Lists {
  import opened Records

  /** `s.reduce((sum, x) => sum + f(x), 0)`: a left fold starting at 0. */
  function Sum<T>(s: seq<T>, f: T -> real): real
  {
    if s == [] then 0.0 else Sum(s[..|s| - 1], f) + f(s[|s| - 1])
  }

  lemma {:induction false} SumConcat<T>(a: seq<T>, b: seq<T>, f: T -> real)
    ensures Sum(a + b, f) == Sum(a, f) + Sum(b, f)
    decreases |b|
  {
    if b == [] {
      assert a + b == a;
    } else {
      var c := a + b;
      assert c[..|c| - 1] == a + b[..|b| - 1];
      SumConcat(a, b[..|b| - 1], f);
    }
  }

  /** Overwriting one element changes the fold by exactly the difference. */
  lemma {:induction false} SumUpdate<T>(s: seq<T>, i: nat, x: T, f: T -> real)
    requires i < |s|
    ensures Sum(s[i := x], f) == Sum(s, f) - f(s[i]) + f(x)
    decreases |s|
  {
    var n := |s| - 1;
    if i == n {
      assert s[i := x][..n] == s[..n];
    } else {
      assert s[i := x][..n] == s[..n][i := x];
      SumUpdate(s[..n], i, x, f);
    }
  }

  /** Number of records in `s` whose key is `id`. */
  function CountId<T>(s: seq<T>, key: T -> Id, id: Id): (n: nat)
    ensures n <= |s|
    ensures n == 0 <==> forall i :: 0 <= i < |s| ==> key(s[i]) != id
  {
    if s == [] then 0 else (if key(s[0]) == id then 1 else 0) + CountId(s[1..], key, id)
  }

  /** `r` is `s` with some elements dropped and the rest in their order
      (greedy matching from the front decides this). */
  predicate Subsequence<T(==)>(r: seq<T>, s: seq<T>)
    decreases |s|
  {
    if r == [] then true
    else if s == [] then false
    else if r[0] == s[0] then Subsequence(r[1..], s[1..])
    else Subsequence(r, s[1..])
  }

  predicate UniqueIds<T>(s: seq<T>, key: T -> Id)
  {
    forall i, j :: 0 <= i < j < |s| ==> key(s[i]) != key(s[j])
  }

  /** `prev.map(r => r.id === x.id ? x : r)` */
  function ReplaceById<T>(s: seq<T>, key: T -> Id, x: T): (r: seq<T>)
    ensures |r| == |s|
    ensures forall i :: 0 <= i < |s| ==> r[i] == (if key(s[i]) == key(x) then x else s[i])
    ensures forall i :: 0 <= i < |s| ==> key(r[i]) == key(s[i])
  {
    if s == [] then []
    else [if key(s[0]) == key(x) then x else s[0]] + ReplaceById(s[1..], key, x)
  }

  /** Updating an id that no record carries leaves the list identical. */
  lemma ReplaceUnknownIsIdentity<T>(s: seq<T>, key: T -> Id, x: T)
    requires forall y :: y in s ==> key(y) != key(x)
    ensures ReplaceById(s, key, x) == s
  {
    var r := ReplaceById(s, key, x);
    assert forall i :: 0 <= i < |s| ==> r[i] == s[i];
  }

  /** Replacement keeps every id in place, so distinct ids stay distinct. */
  lemma ReplaceKeepsUnique<T>(s: seq<T>, key: T -> Id, x: T)
    requires UniqueIds(s, key)
    ensures UniqueIds(ReplaceById(s, key, x), key)
  {
  }

  /** `prev.filter(r => r.id !== id)` */
  function RemoveById<T>(s: seq<T>, key: T -> Id, id: Id): (r: seq<T>)
    ensures |r| == |s| - CountId(s, key, id)
    ensures forall i :: 0 <= i < |r| ==> r[i] in s && key(r[i]) != id
    ensures forall i :: 0 <= i < |s| && key(s[i]) != id ==> s[i] in r
  {
    if s == [] then []
    else (if key(s[0]) == id then [] else [s[0]]) + RemoveById(s[1..], key, id)
  }

  /** The survivors of a delete are the old list with entries dropped and
      the rest in their old order. */
  lemma {:induction false} RemoveIsSubsequence<T>(s: seq<T>, key: T -> Id, id: Id)
    ensures Subsequence(RemoveById(s, key, id), s)
    decreases |s|
  {
    if s != [] {
      RemoveIsSubsequence(s[1..], key, id);
      var rest := RemoveById(s[1..], key, id);
      if key(s[0]) == id {
        assert RemoveById(s, key, id) == rest;
        assert rest != [] ==> rest[0] in rest && key(rest[0]) != key(s[0]);
      } else {
        assert RemoveById(s, key, id) == [s[0]] + rest;
        assert ([s[0]] + rest)[1..] == rest;
      }
    }
  }

  /** Removal works piecewise, so the survivors keep their relative order. */
  lemma {:induction false} RemoveConcat<T>(a: seq<T>, b: seq<T>, key: T -> Id, id: Id)
    ensures RemoveById(a + b, key, id) == RemoveById(a, key, id) + RemoveById(b, key, id)
    decreases |a|
  {
    if a == [] {
      assert a + b == b;
    } else {
      assert (a + b)[0] == a[0];
      assert (a + b)[1..] == a[1..] + b;
      RemoveConcat(a[1..], b, key, id);
    }
  }

  /** Deleting an id that no record carries is a no-op. */
  lemma {:induction false} RemoveUnknownIsIdentity<T>(s: seq<T>, key: T -> Id, id: Id)
    requires forall i :: 0 <= i < |s| ==> key(s[i]) != id
    ensures RemoveById(s, key, id) == s
    decreases |s|
  {
    if s != [] {
      var rest := s[1..];
      assert forall i :: 0 <= i < |rest| ==> rest[i] == s[i + 1];
      RemoveUnknownIsIdentity(rest, key, id);
      calc {
        RemoveById(s, key, id);
        [s[0]] + RemoveById(rest, key, id);
        [s[0]] + rest;
        s;
      }
    }
  }

  /** The tail of a list with distinct ids has distinct ids, none of them
      the head's. */
  lemma UniqueTail<T>(s: seq<T>, key: T -> Id)
    requires s != [] && UniqueIds(s, key)
    ensures UniqueIds(s[1..], key)
    ensures forall y :: y in s[1..] ==> key(y) != key(s[0])
  {
    forall i, j | 0 <= i < j < |s[1..]|
      ensures key(s[1..][i]) != key(s[1..][j])
    {
      assert s[1..][i] == s[i + 1] && s[1..][j] == s[j + 1];
    }
    forall y | y in s[1..] ensures key(y) != key(s[0]) {
      var k :| 0 <= k < |s[1..]| && s[1..][k] == y;
      assert s[k + 1] == y;
    }
  }

  lemma {:induction false} CountUnique<T>(s: seq<T>, key: T -> Id, id: Id)
    requires UniqueIds(s, key)
    ensures CountId(s, key, id) <= 1
    decreases |s|
  {
    if s != [] {
      UniqueTail(s, key);
      CountUnique(s[1..], key, id);
    }
  }

  /** With distinct ids, deleting a known id removes exactly one record. */
  lemma RemoveKnownDropsOne<T>(s: seq<T>, key: T -> Id, id: Id)
    requires UniqueIds(s, key)
    requires exists y :: y in s && key(y) == id
    ensures |RemoveById(s, key, id)| == |s| - 1
  {
    CountUnique(s, key, id);
  }

  lemma {:induction false} RemoveKeepsUnique<T>(s: seq<T>, key: T -> Id, id: Id)
    requires UniqueIds(s, key)
    ensures UniqueIds(RemoveById(s, key, id), key)
    decreases |s|
  {
    if s != [] {
      UniqueTail(s, key);
      RemoveKeepsUnique(s[1..], key, id);
      var rest := RemoveById(s[1..], key, id);
      if key(s[0]) != id {
        assert forall y :: y in rest ==> y in s[1..];
        PrependFreshKeepsUnique(s[0], rest, key);
      }
    }
  }

  /** Prepending a record with a fresh id keeps the ids distinct. */
  lemma PrependFreshKeepsUnique<T>(x: T, s: seq<T>, key: T -> Id)
    requires UniqueIds(s, key)
    requires forall y :: y in s ==> key(y) != key(x)
    ensures UniqueIds([x] + s, key)
  {
    var r := [x] + s;
    forall i, j | 0 <= i < j < |r| ensures key(r[i]) != key(r[j]) {
      assert r[j] == s[j - 1] && r[j] in s;
      if i > 0 { assert r[i] == s[i - 1]; }
    }
  }
}
