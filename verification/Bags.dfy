// Lists that hold the same elements in different orders.
module Bags {
  lemma Around<T>(ys: seq<T>, j: nat)
    requires j < |ys|
    ensures multiset(ys) == multiset(ys[..j]) + multiset{ys[j]} + multiset(ys[j + 1..])
  {
    assert ys == ys[..j] + [ys[j]] + ys[j + 1..];
  }

  lemma FirstOff<T>(xs: seq<T>)
    requires xs != []
    ensures multiset(xs) == multiset{xs[0]} + multiset(xs[1..])
  {
    assert xs == [xs[0]] + xs[1..];
  }

  lemma WithoutOne<T>(ys: seq<T>, j: nat)
    requires j < |ys|
    ensures multiset(ys) == multiset{ys[j]} + multiset(ys[..j] + ys[j + 1..])
  {
    Around(ys, j);
  }

  lemma Cancel<T>(m: multiset<T>, x: T, r1: multiset<T>, r2: multiset<T>)
    requires m == multiset{x} + r1 && m == multiset{x} + r2
    ensures r1 == r2
  {
    forall a ensures r1[a] == r2[a] {
      assert m[a] == multiset{x}[a] + r1[a] && m[a] == multiset{x}[a] + r2[a];
    }
  }

  lemma IndexOf<T>(xs: seq<T>, ys: seq<T>) returns (j: nat)
    requires multiset(xs) == multiset(ys) && xs != []
    ensures j < |ys| && ys[j] == xs[0]
  {
    assert xs[0] in multiset(ys);
    j :| j < |ys| && ys[j] == xs[0];
  }

  // The rest of the one list, and of the other without the same element.
  lemma RestsAgree<T>(xs: seq<T>, ys: seq<T>, j: nat)
    requires multiset(xs) == multiset(ys) && xs != []
    requires j < |ys| && ys[j] == xs[0]
    ensures multiset(xs[1..]) == multiset(ys[..j] + ys[j + 1..])
  {
    WithoutOne(ys, j);
    FirstOff(xs);
    Cancel(multiset(xs), xs[0], multiset(xs[1..]), multiset(ys[..j] + ys[j + 1..]));
  }

  lemma SameMembers<T>(xs: seq<T>, ys: seq<T>)
    requires multiset(xs) == multiset(ys)
    ensures forall a :: a in xs <==> a in ys
  {
    forall a ensures a in xs <==> a in ys {
      assert (a in xs <==> a in multiset(xs)) && (a in ys <==> a in multiset(ys));
    }
  }

  lemma InsertedBag<T>(a: seq<T>, b: seq<T>, j: nat)
    requires |b| == |a| + 1 && j < |b|
    requires forall i :: 0 <= i < j ==> b[i] == a[i]
    requires forall i :: j < i < |b| ==> b[i] == a[i - 1]
    ensures multiset(b) == multiset(a) + multiset{b[j]}
  {
    assert a == a[..j] + a[j..];
    assert b == a[..j] + [b[j]] + a[j..];
  }

  ghost predicate Pairwise<T>(r: (T, T) -> bool, xs: seq<T>) {
    forall i, j :: 0 <= i < j < |xs| ==> r(xs[i], xs[j])
  }

  lemma TwiceIn<T>(xs: seq<T>, i: nat, j: nat)
    requires i < j < |xs| && xs[i] == xs[j]
    ensures multiset(xs)[xs[i]] >= 2
  {
    assert xs == xs[..i] + [xs[i]] + xs[i + 1..j] + [xs[j]] + xs[j + 1..];
  }

  lemma {:induction false} Twice<T>(xs: seq<T>, a: T) returns (k: nat, l: nat)
    requires multiset(xs)[a] >= 2
    ensures k < l < |xs| && xs[k] == a && xs[l] == a
  {
    FirstOff(xs);
    if xs[0] == a {
      assert a in multiset(xs[1..]);
      k, l :| k == 0 && 1 <= l < |xs| && xs[l] == a;
    } else {
      k, l := Twice(xs[1..], a);
      k, l := k + 1, l + 1;
    }
  }

  // Whether all pairs are related does not depend on the order.
  lemma PairwiseReordered<T>(r: (T, T) -> bool, xs: seq<T>, ys: seq<T>)
    requires Pairwise(r, xs) && multiset(xs) == multiset(ys)
    requires forall a, b :: r(a, b) ==> r(b, a)
    ensures Pairwise(r, ys)
  {
    forall i, j | 0 <= i < j < |ys| ensures r(ys[i], ys[j]) {
      var a, b := ys[i], ys[j];
      if a == b {
        TwiceIn(ys, i, j);
        var k, l := Twice(xs, a);
        assert r(xs[k], xs[l]);
      } else {
        assert a in multiset(xs) && b in multiset(xs);
        var k :| 0 <= k < |xs| && xs[k] == a;
        var l :| 0 <= l < |xs| && xs[l] == b;
        if k < l {
          assert r(xs[k], xs[l]);
        } else {
          assert r(xs[l], xs[k]);
        }
      }
    }
  }
}
