/** A stable insertion sort by a total preorder: the model of SQL's ORDER BY,
    where rows that the sort key ties may come back in any order. */
module Sorting {
  import opened Seqs

  ghost predicate TotalPreorder<T(!new)>(le: (T, T) -> bool)
  {
    && (forall a, b :: le(a, b) || le(b, a))
    && (forall a, b, c :: le(a, b) && le(b, c) ==> le(a, c))
  }

  predicate SortedBy<T>(s: seq<T>, le: (T, T) -> bool)
  {
    forall i, j :: 0 <= i < j < |s| ==> le(s[i], s[j])
  }

  /** Puts `x` before the first element that it sorts before or equal to. */
  function Insert<T(!new)>(x: T, s: seq<T>, le: (T, T) -> bool): (r: seq<T>)
    ensures multiset(r) == multiset(s) + multiset{x}
  {
    if |s| == 0 then [x]
    else if le(x, s[0]) then [x] + s
    else
      assert s == [s[0]] + s[1..];
      [s[0]] + Insert(x, s[1..], le)
  }

  function SortBy<T(!new)>(s: seq<T>, le: (T, T) -> bool): (r: seq<T>)
    ensures multiset(r) == multiset(s)
  {
    if |s| == 0 then []
    else
      assert s == [s[0]] + s[1..];
      Insert(s[0], SortBy(s[1..], le), le)
  }

  lemma {:induction false} InsertSorted<T(!new)>(x: T, s: seq<T>, le: (T, T) -> bool)
    requires TotalPreorder(le) && SortedBy(s, le)
    ensures SortedBy(Insert(x, s, le), le)
    decreases |s|
  {
    if |s| > 0 && !le(x, s[0]) {
      var t := s[1..];
      InsertSorted(x, t, le);
      var r := Insert(x, t, le);
      assert le(s[0], x);
      forall y | y in r ensures le(s[0], y) {
        assert y in multiset(r);
        assert y == x || y in t;
      }
    }
  }

  /** The output of SortBy is in ORDER BY order. */
  lemma {:induction false} SortBySorted<T(!new)>(s: seq<T>, le: (T, T) -> bool)
    requires TotalPreorder(le)
    ensures SortedBy(SortBy(s, le), le)
    decreases |s|
  {
    if |s| > 0 {
      SortBySorted(s[1..], le);
      InsertSorted(s[0], SortBy(s[1..], le), le);
    }
  }

  /** Reordering a sequence keeps its members. */
  lemma PermutationKeepsMembers<T(!new)>(a: seq<T>, b: seq<T>)
    requires multiset(a) == multiset(b)
    ensures forall x :: x in a <==> x in b
  {
    forall x ensures x in a <==> x in b {
      assert x in a <==> x in multiset(a);
      assert x in b <==> x in multiset(b);
    }
  }

  lemma TwiceCounted<T(!new)>(t: seq<T>, i: nat, j: nat)
    requires i < j < |t| && t[i] == t[j]
    ensures multiset(t)[t[i]] >= 2
  {
    assert t == t[..j] + [t[j]] + t[j + 1..];
    assert t[..j][i] == t[i];
    assert t[i] in multiset(t[..j]);
  }

  lemma TwoPositions<T(!new)>(s: seq<T>, x: T) returns (p: nat, q: nat)
    requires multiset(s)[x] >= 2
    ensures p < q < |s| && s[p] == x && s[q] == x
  {
    assert x in multiset(s);
    p := FirstIndex(s, x);
    assert s == s[..p] + [x] + s[p + 1..];
    assert multiset(s[..p])[x] == 0;
    assert x in multiset(s[p + 1..]);
    var q' := FirstIndex(s[p + 1..], x);
    q := p + 1 + q';
  }

  /** Reordering keeps keys distinct: two places of the reordered sequence
      hold elements that sit at two places of the original one. */
  lemma DistinctKeysPermutation<T(!new), K(!new)>(s: seq<T>, t: seq<T>, key: T -> K)
    requires multiset(s) == multiset(t)
    requires forall p, q :: 0 <= p < q < |s| ==> key(s[p]) != key(s[q])
    ensures forall i, j :: 0 <= i < j < |t| ==> key(t[i]) != key(t[j])
  {
    forall i, j | 0 <= i < j < |t| ensures key(t[i]) != key(t[j]) {
      var p, q;
      if t[i] == t[j] {
        TwiceCounted(t, i, j);
        p, q := TwoPositions(s, t[i]);
      } else {
        assert t[i] in multiset(s) && t[j] in multiset(s);
        p := FirstIndex(s, t[i]);
        q := FirstIndex(s, t[j]);
      }
      assert p != q && s[p] == t[i] && s[q] == t[j];
      if p < q {
        assert key(s[p]) != key(s[q]);
      } else {
        assert key(s[q]) != key(s[p]);
      }
    }
  }
}
