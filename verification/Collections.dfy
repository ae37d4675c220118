/** Finite sums, least elements and sorted enumerations used throughout the model. */
module Collections {

  datatype Option<+T> = None | Some(value: T)

  /** The least element of a non-empty set. */
  function Min(s: set<nat>): (m: nat)
    requires s != {}
    ensures m in s && forall k :: k in s ==> m <= k
  {
    MinExists(s);
    var m :| m in s && forall k :: k in s ==> m <= k;
    m
  }

  lemma {:induction false} MinExists(s: set<nat>)
    requires s != {}
    ensures exists m :: m in s && forall k :: k in s ==> m <= k
  {
    var x :| x in s;
    var rest := s - {x};
    if rest == {} {
      assert s == {x};
    } else {
      MinExists(rest);
      var m :| m in rest && forall k :: k in rest ==> m <= k;
      var least := if x < m then x else m;
      assert forall k :: k in s ==> k == x || k in rest;
      assert least in s && forall k :: k in s ==> least <= k;
    }
  }

  /** The greatest element of a non-empty set. */
  function Max(s: set<nat>): (m: nat)
    requires s != {}
    ensures m in s && forall k :: k in s ==> k <= m
  {
    MaxExists(s);
    var m :| m in s && forall k :: k in s ==> k <= m;
    m
  }

  lemma {:induction false} MaxExists(s: set<nat>)
    requires s != {}
    ensures exists m :: m in s && forall k :: k in s ==> k <= m
  {
    var x :| x in s;
    var rest := s - {x};
    if rest == {} {
      assert s == {x};
    } else {
      MaxExists(rest);
      var m :| m in rest && forall k :: k in rest ==> k <= m;
      var most := if x < m then m else x;
      assert forall k :: k in s ==> k == x || k in rest;
      assert most in s && forall k :: k in s ==> k <= most;
    }
  }

  lemma {:induction false} SubsetSize<T>(a: set<T>, b: set<T>)
    requires a <= b
    ensures |a| <= |b|
  {
    if a != {} {
      var x :| x in a;
      SubsetSize(a - {x}, b - {x});
    }
  }

  lemma EqualSize(a: set<nat>, b: set<nat>)
    requires a <= b
    ensures |a| == |b| <==> a == b
  {
    SubsetSize(a, b);
    if a != b {
      var x :| x in b && x !in a;
      SubsetSize(a + {x}, b);
    }
  }

  function Below(s: set<nat>, h: nat): set<nat> { set k | k in s && k < h }

  function Above(s: set<nat>, h: nat): set<nat> { set k | k in s && h < k }

  predicate Ascending(q: seq<nat>) { forall i, j :: 0 <= i < j < |q| ==> q[i] < q[j] }

  /** The elements of a set in increasing order: what sorting by hash returns. */
  function Sorted(s: set<nat>): (q: seq<nat>)
    ensures |q| == |s|
  {
    if s == {} then [] else [Min(s)] + Sorted(s - {Min(s)})
  }

  lemma {:induction false} SortedElements(s: set<nat>)
    ensures forall k :: k in Sorted(s) <==> k in s
    ensures Ascending(Sorted(s))
  {
    if s != {} {
      var m := Min(s);
      SortedElements(s - {m});
      var rest := Sorted(s - {m});
      assert Sorted(s) == [m] + rest;
      forall j | 0 <= j < |rest| ensures m < rest[j] {
        assert rest[j] in rest;
      }
    }
  }

  /** In a sorted enumeration, an element sits at the index that counts the smaller elements. */
  lemma {:induction false} SortedRank(s: set<nat>, q: seq<nat>, i: nat)
    requires Ascending(q) && i < |q|
    requires forall k :: k in q <==> k in s
    ensures q[i] in s && |Below(s, q[i])| == i
  {
    assert q[i] in q;
    if i == 0 {
      forall k | k in s ensures q[0] <= k {
        assert k in q;
      }
      assert Below(s, q[0]) == {};
    } else {
      SortedRank(s, q, i - 1);
      var smaller := Below(s, q[i - 1]);
      forall k | k in s && k < q[i] ensures k in smaller + {q[i - 1]} {
        assert k in q;
      }
      assert Below(s, q[i]) == smaller + {q[i - 1]};
    }
  }

  /** Two increasing sequences over the same elements are equal. */
  lemma {:induction false} AscendingUnique(p: seq<nat>, q: seq<nat>)
    requires Ascending(p) && Ascending(q)
    requires forall k :: k in p <==> k in q
    ensures p == q
  {
    assert |q| > 0 ==> q[0] in q;
    if p != [] {
      assert p[0] in q;
      assert q[0] in p;
      assert p[0] == q[0];
      forall k ensures k in p[1..] <==> k in q[1..] {
        if k in p[1..] { assert k in p; assert k != p[0]; assert k in q; }
        if k in q[1..] { assert k in q; assert k != q[0]; assert k in p; }
      }
      AscendingUnique(p[1..], q[1..]);
      assert p == [p[0]] + p[1..] && q == [q[0]] + q[1..];
    }
  }

  /** The sum of a map's values. */
  ghost function Sum(m: map<nat, nat>): nat
  {
    if m == map[] then 0 else
      var k :| k in m;
      m[k] + Sum(m - {k})
  }

  lemma SumEmpty()
    ensures Sum(map[]) == 0
  {
  }

  lemma {:induction false} SumRemove(m: map<nat, nat>, k: nat)
    requires k in m
    ensures Sum(m) == m[k] + Sum(m - {k})
    decreases |m|
  {
    var j :| j in m && Sum(m) == m[j] + Sum(m - {j});
    if j != k {
      SumRemove(m - {j}, k);
      SumRemove(m - {k}, j);
      assert m - {j} - {k} == m - {k} - {j};
    }
  }

  /** Binding a fresh key adds its value to the sum. */
  lemma {:induction false} SumAdd(m: map<nat, nat>, k: nat, v: nat)
    requires k !in m
    ensures Sum(m[k := v]) == Sum(m) + v
  {
    SumRemove(m[k := v], k);
    assert m[k := v] - {k} == m;
  }

  /** A map that is pointwise no larger on fewer keys has no larger a sum. */
  lemma {:induction false} SumMonotone(a: map<nat, nat>, b: map<nat, nat>)
    requires a.Keys <= b.Keys
    requires forall k :: k in a ==> a[k] <= b[k]
    ensures Sum(a) <= Sum(b)
    decreases |b|
  {
    if b == map[] {
      assert a == map[];
    } else {
      var k :| k in b;
      SumRemove(b, k);
      if k in a { SumRemove(a, k); }
      assert k !in a ==> a - {k} == a;
      SumMonotone(a - {k}, b - {k});
    }
  }

  /** Pointwise no larger with equal sums over the same keys means equal maps. */
  lemma {:induction false} SumSqueeze(a: map<nat, nat>, b: map<nat, nat>)
    requires a.Keys == b.Keys && Sum(a) == Sum(b)
    requires forall k :: k in a ==> a[k] <= b[k]
    ensures a == b
  {
    forall k | k in a ensures a[k] == b[k] {
      SumRemove(a, k);
      SumRemove(b, k);
      SumMonotone(a - {k}, b - {k});
    }
  }

  /** Entries that are zero do not contribute to the sum. */
  lemma {:induction false} SumWithoutZeros(a: map<nat, nat>, b: map<nat, nat>)
    requires a.Keys <= b.Keys
    requires forall k :: k in b ==> b[k] == if k in a then a[k] else 0
    ensures Sum(a) == Sum(b)
    decreases |b|
  {
    if b == map[] {
      assert a == map[];
    } else {
      var k :| k in b;
      SumRemove(b, k);
      if k in a { SumRemove(a, k); }
      assert k !in a ==> a - {k} == a;
      SumWithoutZeros(a - {k}, b - {k});
    }
  }

  function Members(hs: seq<nat>): set<nat> { set h | h in hs }

  lemma {:induction false} AscendingSize(hs: seq<nat>)
    requires Ascending(hs)
    ensures |Members(hs)| == |hs|
  {
    if hs != [] {
      var p, last := hs[..|hs| - 1], hs[|hs| - 1];
      assert Ascending(p);
      AscendingSize(p);
      assert hs == p + [last];
      assert last !in p;
      hide Ascending;
      assert Members(hs) == Members(p) + {last};
    }
  }

  /** As many distinct elements of a set as it has are all of them. */
  lemma AllOf(hs: seq<nat>, keys: set<nat>)
    requires Ascending(hs) && |hs| == |keys| && forall h :: h in hs ==> h in keys
    ensures forall h :: h in hs <==> h in keys
  {
    AscendingSize(hs);
    EqualSize(Members(hs), keys);
    assert forall h :: h in hs <==> h in Members(hs);
  }

  // ----- Stable sorting by a key -----

  function InsertBy<T>(key: T -> nat, x: T, q: seq<T>): seq<T>
  {
    if q == [] || key(x) <= key(q[0]) then [x] + q else [q[0]] + InsertBy(key, x, q[1..])
  }

  function SortBy<T>(key: T -> nat, q: seq<T>): seq<T>
  {
    if q == [] then [] else InsertBy(key, q[0], SortBy(key, q[1..]))
  }

  predicate NonDecreasing<T>(key: T -> nat, q: seq<T>) { forall i, j :: 0 <= i < j < |q| ==> key(q[i]) <= key(q[j]) }

  lemma {:induction false} InsertElements<T>(key: T -> nat, x: T, q: seq<T>)
    ensures multiset(InsertBy(key, x, q)) == multiset{x} + multiset(q)
  {
    if q != [] && key(q[0]) < key(x) {
      InsertElements(key, x, q[1..]);
      assert q == [q[0]] + q[1..];
    }
  }

  lemma {:induction false} InsertSorted<T>(key: T -> nat, x: T, q: seq<T>)
    requires NonDecreasing(key, q)
    ensures NonDecreasing(key, InsertBy(key, x, q))
  {
    if q != [] && key(q[0]) < key(x) {
      InsertSorted(key, x, q[1..]);
      InsertElements(key, x, q[1..]);
      var rest := InsertBy(key, x, q[1..]);
      forall j | 0 <= j < |rest| ensures key(q[0]) <= key(rest[j]) {
        assert rest[j] in multiset(rest);
        assert rest[j] == x || rest[j] in q[1..];
      }
      hide InsertBy;
      assert NonDecreasing(key, [q[0]] + rest);
    }
  }

  /** Sorting gives the same elements in non-decreasing order of their keys. */
  lemma {:induction false} SortSorted<T>(key: T -> nat, q: seq<T>)
    ensures NonDecreasing(key, SortBy(key, q)) && multiset(SortBy(key, q)) == multiset(q)
  {
    if q != [] {
      SortSorted(key, q[1..]);
      InsertSorted(key, q[0], SortBy(key, q[1..]));
      InsertElements(key, q[0], SortBy(key, q[1..]));
      assert q == [q[0]] + q[1..];
    }
  }
}
