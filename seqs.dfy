/** Folds, filters and groupings over finite sequences: the in-memory
    counterparts of JavaScript's `reduce`, `filter`, `map`, `new Set(...)`
    and of SQL's GROUP BY / SUM. */
module Seqs {

  datatype Option<+T> = None | Some(value: T)

  /** A left fold that adds `f` of every element, in the order of
      `xs.reduce((sum, x) => sum + f(x), 0)`. */
  function SumOf<T(!new)>(s: seq<T>, f: T -> real): real
  {
    if |s| == 0 then 0.0 else SumOf(s[..|s| - 1], f) + f(s[|s| - 1])
  }

  function RealId(x: real): real { x }

  function One<T(!new)>(x: T): real { 1.0 }

  lemma {:induction false} SumOfAppend<T(!new)>(a: seq<T>, b: seq<T>, f: T -> real)
    ensures SumOf(a + b, f) == SumOf(a, f) + SumOf(b, f)
    decreases |b|
  {
    if |b| == 0 {
      assert a + b == a;
    } else {
      assert (a + b)[..|a + b| - 1] == a + b[..|b| - 1];
      SumOfAppend(a, b[..|b| - 1], f);
    }
  }

  lemma SumOfRemoveAt<T(!new)>(b: seq<T>, k: nat, f: T -> real)
    requires k < |b|
    ensures SumOf(b, f) == SumOf(b[..k] + b[k + 1..], f) + f(b[k])
  {
    assert b == b[..k] + [b[k]] + b[k + 1..];
    SumOfAppend(b[..k] + [b[k]], b[k + 1..], f);
    SumOfAppend(b[..k], [b[k]], f);
    SumOfAppend(b[..k], b[k + 1..], f);
    assert SumOf([b[k]], f) == f(b[k]) by {
      assert [b[k]][..0] == [];
    }
  }

  /** The sum does not depend on the order of the elements. */
  lemma {:induction false} SumOfPermutation<T(!new)>(a: seq<T>, b: seq<T>, f: T -> real)
    requires multiset(a) == multiset(b)
    ensures SumOf(a, f) == SumOf(b, f)
    decreases |a|
  {
    if |a| == 0 {
      assert |multiset(b)| == 0;
    } else {
      var x := a[|a| - 1];
      var a' := a[..|a| - 1];
      assert a == a' + [x];
      assert x in multiset(b);
      var k :| 0 <= k < |b| && b[k] == x;
      var b' := b[..k] + b[k + 1..];
      assert b == b[..k] + [x] + b[k + 1..];
      assert multiset(b') == multiset(b) - multiset{x};
      SumOfPermutation(a', b', f);
      SumOfRemoveAt(b, k, f);
    }
  }

  /** Two sums agree when their terms agree position by position. */
  lemma {:induction false} SumOfPointwise<T(!new), U(!new)>(a: seq<T>, f: T -> real, b: seq<U>, g: U -> real)
    requires |a| == |b|
    requires forall i :: 0 <= i < |a| ==> f(a[i]) == g(b[i])
    ensures SumOf(a, f) == SumOf(b, g)
    decreases |a|
  {
    if |a| > 0 {
      SumOfPointwise(a[..|a| - 1], f, b[..|b| - 1], g);
    }
  }

  lemma {:induction false} SumOfNonneg<T(!new)>(s: seq<T>, f: T -> real)
    requires forall x :: x in s ==> f(x) >= 0.0
    ensures SumOf(s, f) >= 0.0
    decreases |s|
  {
    if |s| > 0 {
      assert forall x :: x in s[..|s| - 1] ==> x in s;
      SumOfNonneg(s[..|s| - 1], f);
    }
  }

  /** With non-negative terms the sum is at least any single term. */
  lemma SumOfAtLeastMember<T(!new)>(s: seq<T>, f: T -> real, x: T)
    requires forall y :: y in s ==> f(y) >= 0.0
    requires x in s
    ensures SumOf(s, f) >= f(x)
  {
    var k :| 0 <= k < |s| && s[k] == x;
    SumOfRemoveAt(s, k, f);
    var rest := s[..k] + s[k + 1..];
    assert forall y :: y in rest ==> y in s;
    SumOfNonneg(rest, f);
  }

  /** `s.filter(p)`: the elements that satisfy `p`, in their order. */
  function Filter<T(!new)>(s: seq<T>, p: T -> bool): (r: seq<T>)
    ensures |r| <= |s|
    ensures forall x :: x in r <==> x in s && p(x)
  {
    if |s| == 0 then []
    else
      var last := s[|s| - 1];
      assert forall x :: x in s <==> x in s[..|s| - 1] || x == last by {
        assert s == s[..|s| - 1] + [last];
      }
      Filter(s[..|s| - 1], p) + (if p(last) then [last] else [])
  }

  /** `filter` keeps every satisfying element as often as it occurs, and no other. */
  lemma {:induction false} FilterMultiset<T(!new)>(s: seq<T>, p: T -> bool)
    ensures forall x :: multiset(Filter(s, p))[x] == if p(x) then multiset(s)[x] else 0
    decreases |s|
  {
    if |s| > 0 {
      var last := s[|s| - 1];
      assert s == s[..|s| - 1] + [last];
      FilterMultiset(s[..|s| - 1], p);
    }
  }

  lemma {:induction false} FilterAppend<T(!new)>(a: seq<T>, b: seq<T>, p: T -> bool)
    ensures Filter(a + b, p) == Filter(a, p) + Filter(b, p)
    decreases |b|
  {
    if |b| == 0 {
      assert a + b == a;
    } else {
      assert (a + b)[..|a + b| - 1] == a + b[..|b| - 1];
      FilterAppend(a, b[..|b| - 1], p);
    }
  }

  lemma {:induction false} FilterNone<T(!new)>(s: seq<T>, p: T -> bool)
    requires forall x :: x in s ==> !p(x)
    ensures Filter(s, p) == []
    decreases |s|
  {
    if |s| > 0 {
      assert forall x :: x in s[..|s| - 1] ==> x in s;
      FilterNone(s[..|s| - 1], p);
    }
  }

  lemma {:induction false} FilterAll<T(!new)>(s: seq<T>, p: T -> bool)
    requires forall x :: x in s ==> p(x)
    ensures Filter(s, p) == s
    decreases |s|
  {
    if |s| > 0 {
      var init, last := s[..|s| - 1], s[|s| - 1];
      assert s == init + [last];
      assert p(last);
      forall x | x in init ensures p(x) {
        assert x in s;
      }
      FilterAll(init, p);
    }
  }

  /** `xs.map(f)`. */
  function MapSeq<T(!new), U>(s: seq<T>, f: T -> U): (r: seq<U>)
    ensures |r| == |s| && forall i :: 0 <= i < |s| ==> r[i] == f(s[i])
  {
    seq(|s|, i requires 0 <= i < |s| => f(s[i]))
  }

  /** The members of `s.filter(p).map(f)`, for an `f` whose input `key`
      reads back: the images of the members of `s` that satisfy `p`. */
  lemma MapFilterMembers<T(!new), U(!new)>(s: seq<T>, p: T -> bool, f: T -> U, key: U -> T)
    requires forall x :: key(f(x)) == x
    ensures forall y :: y in MapSeq(Filter(s, p), f) ==> key(y) in s && p(key(y)) && y == f(key(y))
    ensures forall x :: x in s && p(x) ==> f(x) in MapSeq(Filter(s, p), f)
  {
    var t := Filter(s, p);
    forall y | y in MapSeq(t, f) ensures key(y) in s && p(key(y)) && y == f(key(y)) {
      var k := FirstIndex(MapSeq(t, f), y);
      assert t[k] in t;
    }
    forall x | x in s && p(x) ensures f(x) in MapSeq(t, f) {
      var k := FirstIndex(t, x);
      assert MapSeq(t, f)[k] == f(x);
    }
  }

  lemma MapSeqAppend<T(!new), U>(a: seq<T>, b: seq<T>, f: T -> U)
    ensures MapSeq(a + b, f) == MapSeq(a, f) + MapSeq(b, f)
  {
    assert forall i :: 0 <= i < |a| ==> (a + b)[i] == a[i];
    assert forall i :: |a| <= i < |a + b| ==> (a + b)[i] == b[i - |a|];
  }

  /** `k` is among the keys of `s` exactly when a member of `s` has it. */
  lemma KeysMembers<T(!new), K(!new)>(s: seq<T>, keyOf: T -> K, k: K)
    ensures k in MapSeq(s, keyOf) <==> exists x :: x in s && keyOf(x) == k
  {
    if k in MapSeq(s, keyOf) {
      var i := FirstIndex(MapSeq(s, keyOf), k);
      assert s[i] in s;
    }
    if exists x :: x in s && keyOf(x) == k {
      var x :| x in s && keyOf(x) == k;
      var i := FirstIndex(s, x);
      assert MapSeq(s, keyOf)[i] == k;
    }
  }

  /** Filtering rows whose keys are distinct leaves rows whose keys are distinct. */
  lemma {:induction false} FilterKeysNoDup<T(!new), K(!new)>(s: seq<T>, p: T -> bool, keyOf: T -> K)
    requires NoDup(MapSeq(s, keyOf))
    ensures NoDup(MapSeq(Filter(s, p), keyOf))
    decreases |s|
  {
    if |s| > 0 {
      var init, last := s[..|s| - 1], s[|s| - 1];
      var ks := MapSeq(s, keyOf);
      assert MapSeq(init, keyOf) == ks[..|s| - 1];
      FilterKeysNoDup(init, p, keyOf);
      var t := Filter(init, p);
      if p(last) {
        var kt := MapSeq(t + [last], keyOf);
        forall i, j | 0 <= i < j < |kt| ensures kt[i] != kt[j] {
          if j < |t| {
            assert kt[i] == MapSeq(t, keyOf)[i] && kt[j] == MapSeq(t, keyOf)[j];
          } else {
            assert t[i] in init;
            var m := FirstIndex(init, t[i]);
            assert ks[m] == kt[i] && ks[|s| - 1] == kt[j];
          }
        }
      } else {
        assert Filter(s, p) == t;
      }
    }
  }

  predicate NoDup<K(==,!new)>(s: seq<K>)
  {
    forall i, j :: 0 <= i < j < |s| ==> s[i] != s[j]
  }

  /** `Array.from(new Set(xs))`: each value once, in order of first occurrence. */
  function Distinct<K(==,!new)>(s: seq<K>): (r: seq<K>)
    ensures forall x :: x in r <==> x in s
    ensures NoDup(r)
  {
    if |s| == 0 then []
    else
      var d := Distinct(s[..|s| - 1]);
      var last := s[|s| - 1];
      assert forall x :: x in s <==> x in s[..|s| - 1] || x == last by {
        assert s == s[..|s| - 1] + [last];
      }
      if last in d then d else d + [last]
  }

  /** The position of the first occurrence of `x` in `s`. */
  function FirstIndex<K(==,!new)>(s: seq<K>, x: K): (k: nat)
    requires x in s
    ensures k < |s| && s[k] == x && x !in s[..k]
  {
    if s[0] == x then 0
    else
      assert x in s[1..];
      var k := FirstIndex(s[1..], x);
      assert s[..k + 1] == [s[0]] + s[1..][..k];
      k + 1
  }

  lemma {:induction false} FirstIndexOfPrefix<K(!new)>(p: seq<K>, q: seq<K>, x: K)
    requires x in p
    ensures FirstIndex(p + q, x) == FirstIndex(p, x)
    decreases |p|
  {
    if p[0] != x {
      assert (p + q)[1..] == p[1..] + q;
      FirstIndexOfPrefix(p[1..], q, x);
    }
  }

  /** The groups of `Distinct` keep the order in which their values first
      occur in the input. */
  lemma {:induction false} DistinctKeepsFirstOccurrenceOrder<K(!new)>(s: seq<K>)
    ensures forall i, j :: 0 <= i < j < |Distinct(s)| ==>
      FirstIndex(s, Distinct(s)[i]) < FirstIndex(s, Distinct(s)[j])
    decreases |s|
  {
    if |s| > 0 {
      var p := s[..|s| - 1];
      var last := s[|s| - 1];
      var d := Distinct(p);
      assert s == p + [last];
      DistinctKeepsFirstOccurrenceOrder(p);
      forall y | y in d ensures FirstIndex(s, y) == FirstIndex(p, y) && FirstIndex(p, y) < |p| {
        FirstIndexOfPrefix(p, [last], y);
      }
      if last !in d {
        var k := FirstIndex(s, last);
        assert forall i :: 0 <= i < |p| ==> s[i] != last;
        assert k == |p|;
        assert Distinct(s) == d + [last];
      }
    }
  }

  /** The predicate "the key of x is k". */
  function KeyIs<T(!new), K(==,!new)>(keyOf: T -> K, k: K): (p: T -> bool)
    ensures forall x :: p(x) <==> keyOf(x) == k
  {
    x => keyOf(x) == k
  }

  /** The predicate "the key of x is one of keys". */
  function KeyIn<T(!new), K(==,!new)>(keyOf: T -> K, keys: seq<K>): (p: T -> bool)
    ensures forall x :: p(x) <==> keyOf(x) in keys
  {
    x => keyOf(x) in keys
  }

  /** GROUP BY: for every key, in the order of `keys`, the elements of `s`
      whose key it is, in their order. */
  function GroupsOf<T(!new), K(==,!new)>(keys: seq<K>, s: seq<T>, keyOf: T -> K): (gs: seq<seq<T>>)
    ensures |gs| == |keys|
    ensures forall i :: 0 <= i < |keys| ==> gs[i] == Filter(s, KeyIs(keyOf, keys[i]))
  {
    if |keys| == 0 then []
    else GroupsOf(keys[..|keys| - 1], s, keyOf) + [Filter(s, KeyIs(keyOf, keys[|keys| - 1]))]
  }

  function Flatten<T(!new)>(ss: seq<seq<T>>): seq<T>
  {
    if |ss| == 0 then [] else Flatten(ss[..|ss| - 1]) + ss[|ss| - 1]
  }

  lemma {:induction false} FlattenAppend<T(!new)>(a: seq<seq<T>>, b: seq<seq<T>>)
    ensures Flatten(a + b) == Flatten(a) + Flatten(b)
    decreases |b|
  {
    if |b| > 0 {
      var b' := b[..|b| - 1];
      assert a + b == (a + b') + [b[|b| - 1]];
      assert (a + b)[..|a + b| - 1] == a + b';
      assert b[..|b| - 1] == b';
      FlattenAppend(a, b');
    } else {
      assert a + b == a;
    }
  }

  lemma MultisetRemoveAt<T>(s: seq<T>, k: nat)
    requires k < |s|
    ensures multiset(s[..k] + s[k + 1..]) == multiset(s) - multiset{s[k]}
  {
    assert s == s[..k] + [s[k]] + s[k + 1..];
  }

  /** Reordering the parts keeps the multiset of the flattened whole. */
  lemma {:induction false} FlattenPermutation<T(!new)>(ss: seq<seq<T>>, tt: seq<seq<T>>)
    requires multiset(ss) == multiset(tt)
    ensures multiset(Flatten(ss)) == multiset(Flatten(tt))
    decreases |ss|
  {
    if |ss| == 0 {
      assert |tt| == |multiset(tt)| == 0;
    } else {
      var x := ss[|ss| - 1];
      var ss' := ss[..|ss| - 1];
      assert ss == ss' + [x];
      assert x in multiset(tt);
      var k := FirstIndex(tt, x);
      var tt' := tt[..k] + tt[k + 1..];
      MultisetRemoveAt(ss, |ss| - 1);
      MultisetRemoveAt(tt, k);
      assert ss[..|ss| - 1] + ss[|ss|..] == ss';
      FlattenPermutation(ss', tt');
      FlattenRemoveAt(tt, k);
    }
  }

  lemma FlattenRemoveAt<T(!new)>(tt: seq<seq<T>>, k: nat)
    requires k < |tt|
    ensures multiset(Flatten(tt)) == multiset(Flatten(tt[..k] + tt[k + 1..])) + multiset(tt[k])
  {
    var x, a, b := tt[k], tt[..k], tt[k + 1..];
    assert tt[..k + 1] == a + [x];
    assert tt == tt[..k + 1] + b;
    FlattenRemoveMiddle(a, x, b);
  }

  lemma FlattenRemoveMiddle<T(!new)>(a: seq<seq<T>>, x: seq<T>, b: seq<seq<T>>)
    ensures multiset(Flatten((a + [x]) + b)) == multiset(Flatten(a + b)) + multiset(x)
  {
    var fa, fb := Flatten(a), Flatten(b);
    FlattenAppend(a + [x], b);
    FlattenSnoc(a, x);
    FlattenAppend(a, b);
    MultisetOfThree(fa, x, fb);
  }

  lemma FlattenSnoc<T(!new)>(a: seq<seq<T>>, x: seq<T>)
    ensures Flatten(a + [x]) == Flatten(a) + x
  {
    assert (a + [x])[..|a|] == a;
  }

  lemma MultisetOfThree<T>(a: seq<T>, b: seq<T>, c: seq<T>)
    ensures multiset((a + b) + c) == multiset(a + c) + multiset(b)
  {
  }

  /** The sum of `f` over one group, as a function of the group. */
  function SumWith<T(!new)>(f: T -> real): seq<T> -> real
  {
    g => SumOf(g, f)
  }

  /** The arithmetic mean of `f` over `s`, and 0 for an empty `s`
      (SQL's `COALESCE(AVG(...), 0)`, or JavaScript's `avg || 0`). */
  function Mean<T(!new)>(s: seq<T>, f: T -> real): real
  {
    if |s| == 0 then 0.0 else SumOf(s, f) / (|s| as real)
  }

  /** The elements whose key is among `ks + [k]`, for a new key `k`, are those
      whose key is among `ks` and those whose key is `k`. */
  lemma KeyInSnoc<T(!new), K(!new)>(ks: seq<K>, k: K, s: seq<T>, keyOf: T -> K)
    requires k !in ks
    ensures multiset(Filter(s, KeyIn(keyOf, ks + [k])))
      == multiset(Filter(s, KeyIn(keyOf, ks))) + multiset(Filter(s, KeyIs(keyOf, k)))
  {
    var keys := ks + [k];
    FilterMultiset(s, KeyIn(keyOf, ks));
    FilterMultiset(s, KeyIs(keyOf, k));
    FilterMultiset(s, KeyIn(keyOf, keys));
    forall x ensures multiset(Filter(s, KeyIn(keyOf, keys)))[x]
      == multiset(Filter(s, KeyIn(keyOf, ks)))[x] + multiset(Filter(s, KeyIs(keyOf, k)))[x]
    {
      assert keyOf(x) in keys <==> keyOf(x) in ks || keyOf(x) == k;
    }
  }

  /** Grouping by distinct keys neither loses nor repeats an element: the
      groups together hold exactly the elements whose key is listed. */
  lemma {:induction false} GroupsPartition<T(!new), K(!new)>(keys: seq<K>, s: seq<T>, keyOf: T -> K)
    requires NoDup(keys)
    ensures multiset(Flatten(GroupsOf(keys, s, keyOf))) == multiset(Filter(s, KeyIn(keyOf, keys)))
    decreases |keys|
  {
    if |keys| > 0 {
      var ks := keys[..|keys| - 1];
      var k := keys[|keys| - 1];
      assert keys == ks + [k];
      assert NoDup(ks);
      GroupsPartition(ks, s, keyOf);
      var gs := GroupsOf(keys, s, keyOf);
      assert gs[..|gs| - 1] == GroupsOf(ks, s, keyOf);
      KeyInSnoc(ks, k, s, keyOf);
    } else {
      FilterNone(s, KeyIn(keyOf, keys));
    }
  }

  lemma {:induction false} SumOfFlatten<T(!new)>(ss: seq<seq<T>>, f: T -> real)
    ensures SumOf(Flatten(ss), f) == SumOf(ss, SumWith(f))
    decreases |ss|
  {
    if |ss| > 0 {
      SumOfFlatten(ss[..|ss| - 1], f);
      SumOfAppend(Flatten(ss[..|ss| - 1]), ss[|ss| - 1], f);
    }
  }

  /** Summing group by group gives the sum over every element whose key is
      listed. */
  lemma GroupSums<T(!new), K(!new)>(keys: seq<K>, s: seq<T>, keyOf: T -> K, f: T -> real)
    requires NoDup(keys)
    ensures SumOf(GroupsOf(keys, s, keyOf), SumWith(f)) == SumOf(Filter(s, KeyIn(keyOf, keys)), f)
  {
    GroupsPartition(keys, s, keyOf);
    SumOfFlatten(GroupsOf(keys, s, keyOf), f);
    SumOfPermutation(Flatten(GroupsOf(keys, s, keyOf)), Filter(s, KeyIn(keyOf, keys)), f);
  }
}
