/**
  Small sequence helpers shared by the user and product handlers: the
  `indexOf` / `splice(i, 1)` idiom the controllers use to drop one id
  from an id list, and the no-duplicates property those lists keep.
*/
module Lists {

  /**
    Position of the first occurrence of `x` in `s`. Every caller first checks
    with a `find` that `x` is present, so the absent case (where `indexOf`
    gives -1) is never reached; this function gives `|s|` there only to be
    total.
  */
  function IndexOf<T(==)>(s: seq<T>, x: T): (k: nat)
    ensures k <= |s|
    ensures k < |s| <==> x in s
    ensures k < |s| ==> s[k] == x
    ensures x !in s[..k]
  {
    if s == [] then 0
    else if s[0] == x then 0
    else
      var k' := IndexOf(s[1..], x);
      assert s[1..][..k'] == s[1..k' + 1];
      1 + k'
  }

  /** `s.splice(s.indexOf(x), 1)` for an `x` the caller has checked is present. */
  function RemoveFirst<T(==)>(s: seq<T>, x: T): (r: seq<T>)
    requires x in s
    ensures |r| == |s| - 1
    ensures multiset(r) + multiset{x} == multiset(s)
    ensures exists k :: 0 <= k < |s| && s[k] == x && x !in s[..k] && r == s[..k] + s[k + 1..]
  {
    var k := IndexOf(s, x);
    assert s == s[..k] + [s[k]] + s[k + 1..];
    s[..k] + s[k + 1..]
  }

  predicate NoDuplicates<T(==)>(s: seq<T>) {
    forall i, j :: 0 <= i < j < |s| ==> s[i] != s[j]
  }

  /** Removing the one occurrence of `x` from a duplicate-free list removes `x` entirely. */
  lemma RemoveFirstOfDistinct<T>(s: seq<T>, x: T)
    requires x in s && NoDuplicates(s)
    ensures NoDuplicates(RemoveFirst(s, x))
    ensures forall y :: y in RemoveFirst(s, x) <==> y in s && y != x
  {
    var r := RemoveFirst(s, x);
    var k := IndexOf(s, x);
    assert r == s[..k] + s[k + 1..];
    assert forall i :: 0 <= i < |r| ==> r[i] == s[if i < k then i else i + 1];
    forall i, j | 0 <= i < j < |r| ensures r[i] != r[j] {
      assert r[i] == s[if i < k then i else i + 1];
      assert r[j] == s[if j < k then j else j + 1];
    }
    forall y | y in r ensures y in s && y != x {
      var i :| 0 <= i < |r| && r[i] == y;
      assert r[i] == s[if i < k then i else i + 1];
    }
    forall y | y in s && y != x ensures y in r {
      var i :| 0 <= i < |s| && s[i] == y;
      if i < k { assert r[i] == y; } else { assert r[i - 1] == y; }
    }
  }

  /** Appending an absent element and then removing it gives the original list back. */
  lemma {:induction false} RemoveFirstAfterAppend<T>(s: seq<T>, x: T)
    requires x !in s
    ensures RemoveFirst(s + [x], x) == s
  {
    var k := IndexOf(s + [x], x);
    assert (s + [x])[k] == x;
    assert k == |s|;
    assert (s + [x])[..|s|] == s;
  }
}
