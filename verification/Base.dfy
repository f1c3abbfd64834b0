// Vocabulary shared by the sender and the router: addresses, optional values and duplicate-free lists.
module Base {

  // An IPv6 address. The model only compares addresses, apart from module Checksum, which reads their bytes.
  type Addr = nat

  datatype Option<+T> = None | Some(value: T)

  predicate Distinct<T(==)>(s: seq<T>) {
    forall i, j :: 0 <= i < j < |s| ==> s[i] != s[j]
  }

  // `s` without the first occurrence of `x`.
  function Remove<T(==)>(s: seq<T>, x: T): (r: seq<T>)
    ensures x !in s ==> r == s
    ensures forall y :: y in r ==> y in s
    ensures forall y :: y in s && y != x ==> y in r
  {
    if s == [] then []
    else if s[0] == x then s[1..]
    else
      var r := Remove(s[1..], x);
      assert forall y :: y in s ==> y == s[0] || y in s[1..];
      [s[0]] + r
  }

  // `s` without its element at position `k`.
  function WithoutAt<T>(s: seq<T>, k: nat): seq<T>
    requires k < |s|
  {
    s[..k] + s[k + 1..]
  }

  lemma WithoutTail<T>(s: seq<T>, k: nat)
    requires 0 < k < |s|
    ensures WithoutAt(s, k) == [s[0]] + WithoutAt(s[1..], k - 1)
  {
    assert s[..k] == [s[0]] + s[1..][..k - 1];
    assert s[k + 1..] == s[1..][k..];
  }

  lemma DistinctTail<T>(s: seq<T>)
    requires Distinct(s) && s != []
    ensures Distinct(s[1..]) && s[0] !in s[1..]
  {
  }

  lemma {:induction false} RemoveAt<T>(s: seq<T>, k: nat)
    requires Distinct(s) && k < |s|
    ensures Remove(s, s[k]) == s[..k] + s[k + 1..]
    ensures Distinct(Remove(s, s[k])) && s[k] !in Remove(s, s[k])
  {
    RemoveWithout(s, k);
    DistinctWithout(s, k);
  }

  lemma {:induction false} RemoveWithout<T>(s: seq<T>, k: nat)
    requires Distinct(s) && k < |s|
    ensures Remove(s, s[k]) == WithoutAt(s, k)
  {
    hide Distinct, WithoutAt;
    DistinctTail(s);
    if k > 0 {
      assert s[1..][k - 1] == s[k];
      RemoveWithout(s[1..], k - 1);
      WithoutTail(s, k);
    } else {
      WithoutHead(s);
    }
  }

  lemma WithoutHead<T>(s: seq<T>)
    requires s != []
    ensures WithoutAt(s, 0) == s[1..]
  {
  }

  lemma DistinctWithout<T>(s: seq<T>, k: nat)
    requires Distinct(s) && k < |s|
    ensures Distinct(s[..k] + s[k + 1..]) && s[k] !in s[..k] + s[k + 1..]
  {
  }

  // Removing from a duplicate-free list removes exactly that element.
  lemma RemoveDistinct<T>(s: seq<T>, x: T)
    requires Distinct(s)
    ensures Distinct(Remove(s, x)) && x !in Remove(s, x)
    ensures |Remove(s, x)| == if x in s then |s| - 1 else |s|
  {
    if x in s {
      var k :| 0 <= k < |s| && s[k] == x;
      RemoveAt(s, k);
    }
  }

  lemma DistinctConcat<T>(a: seq<T>, b: seq<T>)
    requires Distinct(a) && Distinct(b) && (forall x :: x in a ==> x !in b)
    ensures Distinct(a + b)
  {
    forall i, j | 0 <= i < j < |a + b| ensures (a + b)[i] != (a + b)[j] {
      if i < |a| <= j {
        assert (a + b)[i] in a && (a + b)[j] in b;
      }
    }
  }

  // A duplicate-free list of all members of `m` holds every member exactly once.
  lemma {:induction false} OnceEach<T>(s: seq<T>, m: set<T>)
    requires Distinct(s)
    requires forall x :: x in s <==> x in m
    ensures multiset(s) == multiset(m)
  {
    if s == [] {
      assert m == {};
    } else {
      var x := s[0];
      assert s == [x] + s[1..];
      assert forall y :: y in s[1..] <==> y in m - {x} by {
        assert forall y :: y in s ==> y == x || y in s[1..];
      }
      OnceEach(s[1..], m - {x});
      assert m == (m - {x}) + {x};
    }
  }
}
