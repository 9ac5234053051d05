/** Sums and selections over rows, and the ORDER BY of a reload. */
module Rows {
  import opened Wrappers

  type Id = nat
  type Time = int

  // ---------- sums and selections over a list ----------

  function Sum<T>(xs: seq<T>, f: T -> int): int {
    if xs == [] then 0 else f(xs[0]) + Sum(xs[1..], f)
  }

  /** `xs.filter(..).map(..)`: `f` gives the mapped row, or nothing for a row filtered out. */
  function Collect<T, U>(xs: seq<T>, f: T -> Option<U>): (ys: seq<U>)
    ensures |ys| <= |xs|
  {
    if xs == [] then []
    else (match f(xs[0]) case None => [] case Some(y) => [y]) + Collect(xs[1..], f)
  }

  lemma {:induction false} SumConcat<T>(a: seq<T>, b: seq<T>, f: T -> int)
    ensures Sum(a + b, f) == Sum(a, f) + Sum(b, f)
  {
    if a == [] {
      assert a + b == b;
    } else {
      assert (a + b)[1..] == a[1..] + b;
      SumConcat(a[1..], b, f);
    }
  }

  lemma SumAppend<T>(xs: seq<T>, x: T, f: T -> int)
    ensures Sum(xs + [x], f) == Sum(xs, f) + f(x)
  {
    SumConcat(xs, [x], f);
    assert [x][1..] == [];
  }

  lemma {:induction false} CollectConcat<T, U>(a: seq<T>, b: seq<T>, f: T -> Option<U>)
    ensures Collect(a + b, f) == Collect(a, f) + Collect(b, f)
  {
    if a == [] {
      assert a + b == b;
    } else {
      assert (a + b)[1..] == a[1..] + b;
      CollectConcat(a[1..], b, f);
    }
  }

  lemma {:induction false} SumNonNegative<T>(xs: seq<T>, f: T -> int)
    requires forall x :: x in xs ==> f(x) >= 0
    ensures Sum(xs, f) >= 0
  {
    if xs != [] {
      SumNonNegative(xs[1..], f);
    }
  }

  lemma {:induction false} SumAgrees<T>(xs: seq<T>, f: T -> int, g: T -> int)
    requires forall x :: x in xs ==> f(x) == g(x)
    ensures Sum(xs, f) == Sum(xs, g)
  {
    if xs != [] {
      SumAgrees(xs[1..], f, g);
    }
  }

  lemma {:induction false} SumPlus<T>(xs: seq<T>, f: T -> int, g: T -> int, h: T -> int)
    requires forall x :: x in xs ==> h(x) == f(x) + g(x)
    ensures Sum(xs, h) == Sum(xs, f) + Sum(xs, g)
  {
    if xs != [] {
      SumPlus(xs[1..], f, g, h);
    }
  }

  /** Taking one occurrence of `x` out of a list. */
  function Without<T(==)>(xs: seq<T>, x: T): (ys: seq<T>)
    requires x in xs
    ensures multiset(ys) == multiset(xs) - multiset{x}
    ensures multiset(xs) == multiset(ys) + multiset{x}
  {
    var i := IndexOf(xs, x);
    assert xs == xs[..i] + [x] + xs[i + 1..];
    xs[..i] + xs[i + 1..]
  }

  function IndexOf<T(==)>(xs: seq<T>, x: T): (i: nat)
    requires x in xs
    ensures i < |xs| && xs[i] == x
  {
    if xs[0] == x then 0 else 1 + IndexOf(xs[1..], x)
  }

  lemma SumWithout<T>(xs: seq<T>, x: T, f: T -> int)
    requires x in xs
    ensures Sum(xs, f) == f(x) + Sum(Without(xs, x), f)
  {
    var i := IndexOf(xs, x);
    assert xs == xs[..i] + ([x] + xs[i + 1..]);
    SumConcat(xs[..i], [x] + xs[i + 1..], f);
    SumConcat(xs[..i], xs[i + 1..], f);
  }

  lemma CollectWithout<T, U>(xs: seq<T>, x: T, f: T -> Option<U>)
    requires x in xs
    ensures multiset(Collect(xs, f)) == multiset(Collect([x], f)) + multiset(Collect(Without(xs, x), f))
  {
    var i := IndexOf(xs, x);
    assert xs == xs[..i] + ([x] + xs[i + 1..]);
    CollectConcat(xs[..i], [x] + xs[i + 1..], f);
    CollectConcat([x], xs[i + 1..], f);
    CollectConcat(xs[..i], xs[i + 1..], f);
  }

  lemma HeadOut<T>(xs: seq<T>)
    requires xs != []
    ensures multiset(xs[1..]) == multiset(xs) - multiset{xs[0]}
  {
    assert xs == [xs[0]] + xs[1..];
  }

  /** A sum does not depend on the order of the rows. */
  lemma {:induction false} SumPermutation<T>(xs: seq<T>, ys: seq<T>, f: T -> int)
    requires multiset(xs) == multiset(ys)
    ensures Sum(xs, f) == Sum(ys, f)
  {
    if xs == [] {
      assert |multiset(ys)| == 0;
    } else {
      HeadOut(xs);
      assert xs[0] in multiset(ys);
      SumWithout(ys, xs[0], f);
      SumPermutation(xs[1..], Without(ys, xs[0]), f);
    }
  }

  /** Nor does what is selected. */
  lemma {:induction false} CollectPermutation<T, U>(xs: seq<T>, ys: seq<T>, f: T -> Option<U>)
    requires multiset(xs) == multiset(ys)
    ensures multiset(Collect(xs, f)) == multiset(Collect(ys, f))
  {
    if xs == [] {
      assert |multiset(ys)| == 0;
    } else {
      HeadOut(xs);
      assert xs == [xs[0]] + xs[1..];
      assert xs[0] in multiset(ys);
      CollectConcat([xs[0]], xs[1..], f);
      CollectWithout(ys, xs[0], f);
      CollectPermutation(xs[1..], Without(ys, xs[0]), f);
    }
  }

  lemma PermutationMembers<T>(xs: seq<T>, ys: seq<T>)
    requires multiset(xs) == multiset(ys)
    ensures |xs| == |ys|
    ensures forall x :: x in xs <==> x in ys
  {
    assert |multiset(xs)| == |multiset(ys)|;
    assert forall x :: x in xs <==> x in multiset(xs);
    assert forall x :: x in ys <==> x in multiset(ys);
  }

  lemma {:induction false} CollectMembers<T, U>(xs: seq<T>, f: T -> Option<U>, y: U)
    ensures y in Collect(xs, f) <==> exists x :: x in xs && f(x) == Some(y)
  {
    if xs != [] {
      CollectMembers(xs[1..], f, y);
      assert forall x :: x in xs <==> x == xs[0] || x in xs[1..];
    }
  }

  // ---------- totals over a map ----------

  /** The sum of `f` over the values of a map. */
  ghost function Total<V>(m: map<Id, V>, f: V -> int): int {
    if m == map[] then 0
    else
      var k :| k in m;
      f(m[k]) + Total(m - {k}, f)
  }

  lemma {:induction false} TotalRemove<V>(m: map<Id, V>, k: Id, f: V -> int)
    requires k in m
    ensures Total(m, f) == f(m[k]) + Total(m - {k}, f)
    decreases |m|
  {
    var first :| first in m && Total(m, f) == f(m[first]) + Total(m - {first}, f);
    if first != k {
      TotalRemove(m - {first}, k, f);
      TotalRemove(m - {k}, first, f);
      assert m - {first} - {k} == m - {k} - {first};
    }
  }

  /** Replacing or adding one value changes the total by the difference. */
  lemma TotalUpdate<V>(m: map<Id, V>, k: Id, v: V, f: V -> int)
    ensures Total(m[k := v], f) == Total(m, f) + f(v) - (if k in m then f(m[k]) else 0)
  {
    TotalRemove(m[k := v], k, f);
    if k in m {
      TotalRemove(m, k, f);
      assert m[k := v] - {k} == m - {k};
    } else {
      assert m[k := v] - {k} == m;
    }
  }

  lemma {:induction false} TotalPlus<V>(m: map<Id, V>, f: V -> int, g: V -> int, h: V -> int)
    requires forall k :: k in m ==> h(m[k]) == f(m[k]) + g(m[k])
    ensures Total(m, h) == Total(m, f) + Total(m, g)
    decreases |m|
  {
    if m != map[] {
      var k :| k in m;
      TotalRemove(m, k, f);
      TotalRemove(m, k, g);
      TotalRemove(m, k, h);
      TotalPlus(m - {k}, f, g, h);
    }
  }

  // ---------- distinct keys ----------

  ghost predicate DistinctBy<T>(xs: seq<T>, key: T -> Id) {
    forall i, j :: 0 <= i < j < |xs| ==> key(xs[i]) != key(xs[j])
  }

  lemma SameKey<T>(xs: seq<T>, a: T, b: T, key: T -> Id)
    requires DistinctBy(xs, key) && a in xs && b in xs && key(a) == key(b)
    ensures a == b
  {
    var p, q := IndexOf(xs, a), IndexOf(xs, b);
    assert !(p < q) && !(q < p);
  }

  /** A selection that keeps the keys keeps them distinct. */
  lemma {:induction false} CollectDistinct<T, U>(xs: seq<T>, f: T -> Option<U>, key: T -> Id, key': U -> Id)
    requires DistinctBy(xs, key) && forall x :: x in xs && f(x).Some? ==> key'(f(x).value) == key(x)
    ensures DistinctBy(Collect(xs, f), key')
  {
    if xs != [] {
      var rest := Collect(xs[1..], f);
      CollectDistinct(xs[1..], f, key, key');
      if f(xs[0]).Some? {
        forall j | 0 <= j < |rest| ensures key'(rest[j]) != key(xs[0]) {
          CollectMembers(xs[1..], f, rest[j]);
          var x :| x in xs[1..] && f(x) == Some(rest[j]);
          var i := IndexOf(xs[1..], x);
          assert key(xs[0]) != key(xs[i + 1]);
        }
      }
    }
  }

  function Members<T>(xs: seq<T>): set<T> {
    set x | x in xs
  }

  lemma HeadIsNew<T>(xs: seq<T>, key: T -> Id)
    requires xs != [] && DistinctBy(xs, key)
    ensures xs[0] !in xs[1..] && DistinctBy(xs[1..], key)
  {
    forall k | 0 <= k < |xs| - 1 ensures xs[1..][k] != xs[0] {
      assert key(xs[0]) != key(xs[k + 1]);
    }
  }

  lemma OneMoreMember<T>(xs: seq<T>, x: T)
    requires x !in xs
    ensures multiset(Members([x] + xs)) == multiset(Members(xs)) + multiset{x}
  {
    assert Members([x] + xs) == Members(xs) + {x};
  }

  lemma {:induction false} MembersOnce<T>(xs: seq<T>, key: T -> Id)
    requires DistinctBy(xs, key)
    ensures multiset(Members(xs)) == multiset(xs)
  {
    if xs == [] {
      assert Members(xs) == {};
    } else {
      HeadIsNew(xs, key);
      MembersOnce(xs[1..], key);
      OneMoreMember(xs[1..], xs[0]);
      hide DistinctBy, Members;
      assert xs == [xs[0]] + xs[1..];
    }
  }

  /** Distinct keys survive reordering. */
  lemma DistinctPermutation<T>(xs: seq<T>, ys: seq<T>, key: T -> Id)
    requires multiset(xs) == multiset(ys) && DistinctBy(xs, key)
    ensures DistinctBy(ys, key)
  {
    MembersOnce(xs, key);
    PermutationMembers(xs, ys);
    forall i, j | 0 <= i < j < |ys| ensures key(ys[i]) != key(ys[j]) {
      assert ys[i] in xs && ys[j] in xs;
      var p, q := IndexOf(xs, ys[i]), IndexOf(xs, ys[j]);
      assert ys[i] != ys[j] by {
        assert multiset(ys[..j] + ys[j..]) == multiset(ys[..j]) + multiset(ys[j..]);
        assert ys == ys[..j] + ys[j..];
        assert ys[i] in ys[..j] && ys[j] in ys[j..];
        assert multiset(Members(xs))[ys[j]] <= 1;
      }
      assert p < q || q < p;
    }
  }

  // ---------- ORDER BY time ASC, id ASC ----------

  predicate Before(a: (Time, Id), b: (Time, Id)) {
    a.0 < b.0 || (a.0 == b.0 && a.1 <= b.1)
  }

  lemma {:induction false} FirstExists<T(!new)>(rows: set<T>, key: T -> (Time, Id))
    requires rows != {}
    ensures exists x :: x in rows && forall y :: y in rows ==> Before(key(x), key(y))
  {
    var x :| x in rows;
    var others := rows - {x};
    assert rows == others + {x};
    if others == {} {
      assert forall y :: y in rows ==> Before(key(x), key(y));
    } else {
      FirstExists(others, key);
      var m :| m in others && forall y :: y in others ==> Before(key(m), key(y));
      var best := if Before(key(x), key(m)) then x else m;
      assert forall y :: y in rows ==> y == x || y in others;
      assert forall y :: y in rows ==> Before(key(best), key(y));
    }
  }

  ghost function First<T(!new)>(rows: set<T>, key: T -> (Time, Id)): (x: T)
    requires rows != {}
    ensures x in rows && forall y :: y in rows ==> Before(key(x), key(y))
  {
    FirstExists(rows, key);
    var x :| x in rows && forall y :: y in rows ==> Before(key(x), key(y));
    x
  }

  /** The rows of a SELECT in ORDER BY order. */
  ghost function OrderBy<T(!new)>(rows: set<T>, key: T -> (Time, Id)): seq<T> {
    if rows == {} then []
    else
      var x := First(rows, key);
      [x] + OrderBy(rows - {x}, key)
  }

  lemma {:induction false} OrderByRows<T(!new)>(rows: set<T>, key: T -> (Time, Id))
    ensures multiset(OrderBy(rows, key)) == multiset(rows)
  {
    if rows != {} {
      var x := First(rows, key);
      OrderByRows(rows - {x}, key);
      assert rows == (rows - {x}) + {x};
    }
  }

  /** Sorted: nothing stands before a row that precedes it. */
  lemma {:induction false} OrderBySorted<T(!new)>(rows: set<T>, key: T -> (Time, Id), i: nat, j: nat)
    requires i <= j < |OrderBy(rows, key)|
    ensures Before(key(OrderBy(rows, key)[i]), key(OrderBy(rows, key)[j]))
  {
    var x := First(rows, key);
    var rest := OrderBy(rows - {x}, key);
    if i > 0 {
      OrderBySorted(rows - {x}, key, i - 1, j - 1);
    } else if j > 0 {
      OrderByRows(rows - {x}, key);
      assert rest[j - 1] in multiset(rest);
      assert rest[j - 1] in rows;
    }
  }

  /** Reordering a list of distinct rows keeps exactly its rows. */
  lemma ReorderKeepsRows<T(!new)>(xs: seq<T>, key: T -> (Time, Id), id: T -> Id)
    requires DistinctBy(xs, id)
    ensures multiset(OrderBy(Members(xs), key)) == multiset(xs)
  {
    MembersOnce(xs, id);
    OrderByRows(Members(xs), key);
  }

  /** Rows already in strict ORDER BY order come back exactly as they were. */
  lemma {:induction false} OrderByIdentity<T(!new)>(xs: seq<T>, key: T -> (Time, Id))
    requires forall i, j :: 0 <= i < j < |xs| ==> !Before(key(xs[j]), key(xs[i]))
    ensures OrderBy(Members(xs), key) == xs
  {
    var rows := Members(xs);
    if xs == [] {
      assert rows == {};
    } else {
      var x, rest := xs[0], xs[1..];
      assert x in rows;
      var first := First(rows, key);
      assert first == x by {
        assert Before(key(first), key(x));
        var k := IndexOf(xs, first);
      }
      assert forall k :: 0 <= k < |rest| ==> !Before(key(rest[k]), key(x));
      assert x !in rest;
      assert rows - {x} == Members(rest);
      OrderByIdentity(rest, key);
    }
  }

  /** No two rows share an ORDER BY key. */
  ghost predicate Keyed<T(!new)>(rows: set<T>, key: T -> (Time, Id)) {
    forall x, y :: x in rows && y in rows && key(x) == key(y) ==> x == y
  }

  lemma DistinctKeyed<T(!new)>(xs: seq<T>, id: T -> Id, key: T -> (Time, Id))
    requires DistinctBy(xs, id) && forall x :: key(x).1 == id(x)
    ensures Keyed(Members(xs), key)
  {
    forall x, y | x in Members(xs) && y in Members(xs) && key(x) == key(y) ensures x == y {
      assert id(x) == key(x).1 && id(y) == key(y).1;
      SameKey(xs, x, y, id);
    }
  }

  /** A SELECT with its ORDER BY; no two rows share a key. */
  method SelectOrdered<T(==, !new)>(rows: set<T>, key: T -> (Time, Id)) returns (ordered: seq<T>)
    requires Keyed(rows, key)
    ensures ordered == OrderBy(rows, key)
  {
    ordered := [];
    var left := rows;
    while left != {}
      invariant left <= rows
      invariant ordered + OrderBy(left, key) == OrderBy(rows, key)
    {
      FirstExists(left, key);
      var x :| x in left && forall y :: y in left ==> Before(key(x), key(y));
      assert x == First(left, key) by {
        assert Before(key(First(left, key)), key(x)) && Before(key(x), key(First(left, key)));
      }
      assert ordered + OrderBy(left, key) == ordered + [x] + OrderBy(left - {x}, key);
      ordered := ordered + [x];
      left := left - {x};
    }
  }
}
