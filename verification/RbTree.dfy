/**
 The red-black trees of libjeffpc, seen as sequences sorted by a three-way
 comparison of keys.  A tree never holds two elements with equal keys.
 */
module RbTree {
  predicate Flips<K>(cmp: (K, K) -> int, a: K, b: K)
  {
    cmp(a, b) < 0 <==> cmp(b, a) > 0
  }

  predicate Chains<K>(cmp: (K, K) -> int, a: K, b: K, c: K)
  {
    (cmp(a, b) < 0 && cmp(b, c) <= 0 ==> cmp(a, c) < 0) &&
    (cmp(a, b) <= 0 && cmp(b, c) < 0 ==> cmp(a, c) < 0)
  }

  /** What the trees need of a comparison function. */
  ghost predicate TotalOrder<K(!new)>(cmp: (K, K) -> int)
  {
    (forall a, b :: Flips(cmp, a, b)) && (forall a, b, c :: Chains(cmp, a, b, c))
  }

  predicate Before<T, K>(s: seq<T>, i: nat, j: nat, key: T -> K, cmp: (K, K) -> int)
    requires i < |s| && j < |s|
  {
    cmp(key(s[i]), key(s[j])) < 0
  }

  ghost predicate Sorted<T, K>(s: seq<T>, key: T -> K, cmp: (K, K) -> int)
  {
    forall i, j {:trigger Before(s, i, j, key, cmp)} :: 0 <= i < j < |s| ==> Before(s, i, j, key, cmp)
  }

  predicate Has<T, K>(s: seq<T>, k: K, key: T -> K, cmp: (K, K) -> int)
  {
    exists i :: 0 <= i < |s| && cmp(key(s[i]), k) == 0
  }

  /** The number of elements before key `k`. */
  function Position<T, K>(s: seq<T>, k: K, key: T -> K, cmp: (K, K) -> int): (p: nat)
    ensures p <= |s|
    ensures forall i :: 0 <= i < p ==> cmp(key(s[i]), k) < 0
    ensures p < |s| ==> cmp(key(s[p]), k) >= 0
  {
    if s == [] || cmp(key(s[0]), k) >= 0 then 0 else 1 + Position(s[1..], k, key, cmp)
  }

  function InsertAt<T>(s: seq<T>, p: nat, x: T): seq<T>
    requires p <= |s|
  {
    s[..p] + [x] + s[p..]
  }

  /** rb_insert of an element whose key is not in the tree. */
  function Insert<T, K>(s: seq<T>, x: T, key: T -> K, cmp: (K, K) -> int): seq<T>
  {
    InsertAt(s, Position(s, key(x), key, cmp), x)
  }

  /** rb_find: the element at the position of the key, if it has that key. */
  lemma FoundAtPosition<T, K(!new)>(s: seq<T>, k: K, key: T -> K, cmp: (K, K) -> int)
    requires TotalOrder(cmp) && Sorted(s, key, cmp)
    ensures var p := Position(s, k, key, cmp);
            Has(s, k, key, cmp) <==> p < |s| && cmp(key(s[p]), k) == 0
  {
    var p := Position(s, k, key, cmp);
    if i :| 0 <= i < |s| && cmp(key(s[i]), k) == 0 {
      assert p <= i;
      assert p < i ==> Before(s, p, i, key, cmp) && Chains(cmp, key(s[p]), key(s[i]), k);
    }
  }

  lemma InsertKeepsSorted<T, K(!new)>(s: seq<T>, x: T, key: T -> K, cmp: (K, K) -> int)
    requires TotalOrder(cmp) && Sorted(s, key, cmp) && !Has(s, key(x), key, cmp)
    ensures Sorted(Insert(s, x, key, cmp), key, cmp)
  {
    var p := Position(s, key(x), key, cmp);
    var t := Insert(s, x, key, cmp);
    forall i, j | 0 <= i < j < |t|
      ensures Before(t, i, j, key, cmp)
    {
      if i == p {
        After(s, key(x), j - 1, key, cmp);
      } else if j != p {
        assert Before(s, if i < p then i else i - 1, if j < p then j else j - 1, key, cmp);
      }
    }
  }

  /** Everything from the position on comes after a missing key. */
  lemma After<T, K(!new)>(s: seq<T>, k: K, i: nat, key: T -> K, cmp: (K, K) -> int)
    requires TotalOrder(cmp) && Sorted(s, key, cmp) && !Has(s, k, key, cmp)
    requires Position(s, k, key, cmp) <= i < |s|
    ensures cmp(k, key(s[i])) < 0
  {
    var p := Position(s, k, key, cmp);
    assert cmp(key(s[p]), k) != 0;
    assert Flips(cmp, k, key(s[p]));
    assert p < i ==> Before(s, p, i, key, cmp);
    assert Chains(cmp, k, key(s[p]), key(s[i]));
  }

  lemma InsertedElements<T, K>(s: seq<T>, x: T, key: T -> K, cmp: (K, K) -> int)
    ensures forall y :: y in Insert(s, x, key, cmp) <==> y in s || y == x
    ensures multiset(Insert(s, x, key, cmp)) == multiset(s) + multiset{x}
  {
    var p := Position(s, key(x), key, cmp);
    assert s == s[..p] + s[p..];
  }

  datatype Found<+T> = Missing | Present(elem: T)

  /** rb_find */
  function Lookup<T, K>(s: seq<T>, k: K, key: T -> K, cmp: (K, K) -> int): Found<T>
  {
    var p := Position(s, k, key, cmp);
    if p < |s| && cmp(key(s[p]), k) == 0 then Present(s[p]) else Missing
  }

  lemma LookupUnique<T, K(!new)>(s: seq<T>, i: nat, k: K, key: T -> K, cmp: (K, K) -> int)
    requires TotalOrder(cmp) && Sorted(s, key, cmp)
    requires i < |s| && cmp(key(s[i]), k) == 0
    ensures Lookup(s, k, key, cmp) == Present(s[i])
  {
    var p := Position(s, k, key, cmp);
    assert p <= i;
    assert p < i ==> Before(s, p, i, key, cmp) && Chains(cmp, key(s[p]), key(s[i]), k);
  }

  /** Looking up after an insertion. */
  lemma LookupInserted<T, K(!new)>(s: seq<T>, x: T, k: K, key: T -> K, cmp: (K, K) -> int)
    requires TotalOrder(cmp) && Sorted(s, key, cmp) && !Has(s, key(x), key, cmp)
    ensures Lookup(Insert(s, x, key, cmp), k, key, cmp)
         == if cmp(key(x), k) == 0 then Present(x) else Lookup(s, k, key, cmp)
  {
    var p := Position(s, key(x), key, cmp);
    var t := Insert(s, x, key, cmp);
    InsertKeepsSorted(s, x, key, cmp);
    if cmp(key(x), k) == 0 {
      assert t[p] == x;
      LookupUnique(t, p, k, key, cmp);
    } else if Has(s, k, key, cmp) {
      FoundAtPosition(s, k, key, cmp);
      var i := Position(s, k, key, cmp);
      var j := if i < p then i else i + 1;
      assert t[j] == s[i];
      LookupUnique(t, j, k, key, cmp);
    } else {
      FoundAtPosition(s, k, key, cmp);
      FoundAtPosition(t, k, key, cmp);
    }
  }

  // ----- Destruction ------------------------------------------------------------------------

  predicate Distinct<T(==)>(s: seq<T>)
  {
    forall i, j :: 0 <= i < j < |s| ==> s[i] != s[j]
  }

  function RemoveAt<T>(s: seq<T>, i: nat): seq<T>
    requires i < |s|
  {
    s[..i] + s[i + 1..]
  }

  lemma RemovedElements<T>(s: seq<T>, i: nat)
    requires i < |s| && Distinct(s)
    ensures Distinct(RemoveAt(s, i))
    ensures forall x :: x in RemoveAt(s, i) <==> x in s && x != s[i]
  {
    var t := RemoveAt(s, i);
    forall x | x in s && x != s[i]
      ensures x in t
    {
      var k :| 0 <= k < |s| && s[k] == x;
      assert t[if k < i then k else k - 1] == x;
    }
  }

  lemma SortedDistinct<T, K(!new)>(s: seq<T>, key: T -> K, cmp: (K, K) -> int)
    requires TotalOrder(cmp) && Sorted(s, key, cmp)
    ensures Distinct(s)
  {
    forall i, j | 0 <= i < j < |s|
      ensures s[i] != s[j]
    {
      assert Before(s, i, j, key, cmp);
      assert Flips(cmp, key(s[i]), key(s[j]));
    }
  }
}
