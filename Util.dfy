/** Generic list operations shared by every page of the application:
    `Array.prototype.filter`, `reduce` to a sum, `slice(0, k)`, and the
    notion of an order-preserving subsequence used to state what a filter keeps. */
module Util {

  datatype Option<+T> = None | Some(value: T)

  /** `o ?? default`: the default for a possibly missing value. */
  function GetOr<T>(o: Option<T>, default: T): T
  {
    match o
    case Some(v) => v
    case None => default
  }

  /** `s.filter(p)`: the elements of `s` satisfying `p`, in their original order. */
  function Filter<T>(s: seq<T>, p: T -> bool): (r: seq<T>)
    ensures |r| <= |s|
    ensures forall x :: x in r ==> x in s && p(x)
  {
    if s == [] then []
    else Filter(s[..|s| - 1], p) + (if p(s[|s| - 1]) then [s[|s| - 1]] else [])
  }

  /** `s.reduce((sum, x) => sum + f(x), 0)`. */
  function SumOf<T>(s: seq<T>, f: T -> real): real
  {
    if s == [] then 0.0 else SumOf(s[..|s| - 1], f) + f(s[|s| - 1])
  }

  function Min(a: int, b: int): int
  {
    if a <= b then a else b
  }

  /** `s.slice(0, k)` for a non-negative `k`. */
  function Take<T>(s: seq<T>, k: nat): (r: seq<T>)
    ensures |r| == Min(k, |s|)
    ensures forall i :: 0 <= i < |r| ==> r[i] == s[i]
  {
    s[..Min(k, |s|)]
  }

  /** A prefix holds no element more often than the whole sequence. */
  lemma TakeSubMultiset<T>(s: seq<T>, k: nat)
    ensures multiset(Take(s, k)) <= multiset(s)
  {
    assert s == Take(s, k) + s[Min(k, |s|)..];
  }

  /** `s.map(f)`. */
  function MapSeq<A, B>(s: seq<A>, f: A -> B): (r: seq<B>)
    ensures |r| == |s|
    ensures forall i :: 0 <= i < |s| ==> r[i] == f(s[i])
  {
    if s == [] then [] else MapSeq(s[..|s| - 1], f) + [f(s[|s| - 1])]
  }

  lemma MapSeqAppend<A, B>(a: seq<A>, b: seq<A>, f: A -> B)
    ensures MapSeq(a + b, f) == MapSeq(a, f) + MapSeq(b, f)
  {
    assert MapSeq(a + b, f) == MapSeq(a, f) + MapSeq(b, f);
  }

  /** `r` is obtained from `s` by deleting elements, without reordering. */
  predicate IsSubseq<T(==)>(r: seq<T>, s: seq<T>)
    decreases |s|
  {
    if r == [] then true
    else if s == [] then false
    else if r[|r| - 1] == s[|s| - 1] then IsSubseq(r[..|r| - 1], s[..|s| - 1])
    else IsSubseq(r, s[..|s| - 1])
  }

  lemma {:induction false} SubseqExtend<T>(r: seq<T>, s: seq<T>, x: T)
    requires IsSubseq(r, s)
    ensures IsSubseq(r, s + [x])
    decreases |s|, 1
  {
    var t := s + [x];
    assert t[..|t| - 1] == s;
    if r != [] && r[|r| - 1] == x {
      SubseqDropLast(r, s);
    }
  }

  lemma {:induction false} SubseqDropLast<T>(r: seq<T>, s: seq<T>)
    requires r != [] && IsSubseq(r, s)
    ensures IsSubseq(r[..|r| - 1], s)
    decreases |s|, 0
  {
    var s' := s[..|s| - 1];
    assert s == s' + [s[|s| - 1]];
    if r[|r| - 1] == s[|s| - 1] {
      SubseqExtend(r[..|r| - 1], s', s[|s| - 1]);
    } else {
      SubseqDropLast(r, s');
      SubseqExtend(r[..|r| - 1], s', s[|s| - 1]);
    }
  }

  /** A filter keeps an order-preserving subsequence of its input. */
  lemma {:induction false} FilterIsSubseq<T>(s: seq<T>, p: T -> bool)
    ensures IsSubseq(Filter(s, p), s)
  {
    if s != [] {
      var s' := s[..|s| - 1];
      var x := s[|s| - 1];
      assert s == s' + [x];
      FilterIsSubseq(s', p);
      if p(x) {
        var r := Filter(s, p);
        assert r[..|r| - 1] == Filter(s', p);
      } else {
        assert Filter(s, p) == Filter(s', p);
        SubseqExtend(Filter(s', p), s', x);
      }
    }
  }

  /** Everything in `s` that satisfies `p` is kept. */
  lemma {:induction false} FilterKeeps<T>(s: seq<T>, p: T -> bool, x: T)
    requires x in s && p(x)
    ensures x in Filter(s, p)
  {
    var s' := s[..|s| - 1];
    assert s == s' + [s[|s| - 1]];
    if x != s[|s| - 1] {
      FilterKeeps(s', p, x);
    }
  }

  lemma FilterMembership<T>(s: seq<T>, p: T -> bool, x: T)
    ensures x in Filter(s, p) <==> x in s && p(x)
  {
    if x in s && p(x) {
      FilterKeeps(s, p, x);
    }
  }

  /** Filtering distributes over concatenation: together with the one-element
      case this pins the order of the result down completely. */
  lemma {:induction false} FilterAppend<T>(a: seq<T>, b: seq<T>, p: T -> bool)
    ensures Filter(a + b, p) == Filter(a, p) + Filter(b, p)
    decreases |b|
  {
    if b == [] {
      assert a + b == a;
    } else {
      var b' := b[..|b| - 1];
      assert (a + b)[..|a + b| - 1] == a + b';
      FilterAppend(a, b', p);
    }
  }

  /** When every element satisfies `p`, the filter is the identity. */
  lemma {:induction false} FilterAll<T>(s: seq<T>, p: T -> bool)
    requires forall x :: x in s ==> p(x)
    ensures Filter(s, p) == s
  {
    if s != [] {
      var s' := s[..|s| - 1];
      assert s == s' + [s[|s| - 1]];
      FilterAll(s', p);
    }
  }

  /** When no element satisfies `p`, the filter is empty. */
  lemma {:induction false} FilterNone<T>(s: seq<T>, p: T -> bool)
    requires forall x :: x in s ==> !p(x)
    ensures Filter(s, p) == []
  {
    if s != [] {
      var s' := s[..|s| - 1];
      assert s == s' + [s[|s| - 1]];
      FilterNone(s', p);
    }
  }

  /** If `q` implies `p` on `s`, filtering by `q` equals filtering by `p`
      and then by `q`: the `q`-list is a sub-list of the `p`-list. */
  lemma {:induction false} FilterNarrowing<T>(s: seq<T>, p: T -> bool, q: T -> bool)
    requires forall x :: x in s && q(x) ==> p(x)
    ensures Filter(Filter(s, p), q) == Filter(s, q)
    ensures IsSubseq(Filter(s, q), Filter(s, p))
  {
    FilterTwice(s, p, q);
    FilterIsSubseq(Filter(s, p), q);
  }

  lemma {:induction false} FilterTwice<T>(s: seq<T>, p: T -> bool, q: T -> bool)
    requires forall x :: x in s && q(x) ==> p(x)
    ensures Filter(Filter(s, p), q) == Filter(s, q)
  {
    if s != [] {
      var s' := s[..|s| - 1];
      var x := s[|s| - 1];
      assert s == s' + [x];
      FilterTwice(s', p, q);
      if p(x) {
        assert Filter(s, p) == Filter(s', p) + [x];
        FilterAppend(Filter(s', p), [x], q);
        assert Filter([x], q) == (if q(x) then [x] else []) by {
          assert [x][..0] == [];
        }
      } else {
        assert Filter(s, p) == Filter(s', p);
        assert !q(x);
      }
    }
  }

  /** Two predicates that agree on every element filter the same way. */
  lemma {:induction false} FilterCongruent<T>(s: seq<T>, p: T -> bool, q: T -> bool)
    requires forall x :: x in s ==> (p(x) <==> q(x))
    ensures Filter(s, p) == Filter(s, q)
  {
    if s != [] {
      var s' := s[..|s| - 1];
      assert s == s' + [s[|s| - 1]];
      FilterCongruent(s', p, q);
    }
  }

  /** A subsequence is no longer than the list it comes from. */
  lemma {:induction false} SubseqLength<T>(r: seq<T>, s: seq<T>)
    requires IsSubseq(r, s)
    ensures |r| <= |s|
    decreases |s|
  {
    if r != [] {
      if r[|r| - 1] == s[|s| - 1] {
        SubseqLength(r[..|r| - 1], s[..|s| - 1]);
      } else {
        SubseqLength(r, s[..|s| - 1]);
      }
    }
  }

  /** Filtering by `p` and by its negation splits the list: the two parts
      together have exactly the length of the input. */
  lemma {:induction false} FilterPartitionLength<T>(s: seq<T>, p: T -> bool, q: T -> bool)
    requires forall x :: x in s ==> (q(x) <==> !p(x))
    ensures |Filter(s, p)| + |Filter(s, q)| == |s|
  {
    if s != [] {
      var s' := s[..|s| - 1];
      assert s == s' + [s[|s| - 1]];
      FilterPartitionLength(s', p, q);
    }
  }

  lemma {:induction false} SumOfAppend<T>(a: seq<T>, b: seq<T>, f: T -> real)
    ensures SumOf(a + b, f) == SumOf(a, f) + SumOf(b, f)
    decreases |b|
  {
    if b == [] {
      assert a + b == a;
    } else {
      var b' := b[..|b| - 1];
      assert (a + b)[..|a + b| - 1] == a + b';
      SumOfAppend(a, b', f);
    }
  }

  /** The sum over the elements kept by `p` plus the sum over those kept by
      its negation is the sum over the whole list. */
  lemma {:induction false} SumOfPartition<T>(s: seq<T>, f: T -> real, p: T -> bool, q: T -> bool)
    requires forall x :: x in s ==> (q(x) <==> !p(x))
    ensures SumOf(Filter(s, p), f) + SumOf(Filter(s, q), f) == SumOf(s, f)
  {
    if s != [] {
      var s' := s[..|s| - 1];
      var x := s[|s| - 1];
      assert s == s' + [x];
      SumOfPartition(s', f, p, q);
      SumOfAppend(Filter(s', p), if p(x) then [x] else [], f);
      SumOfAppend(Filter(s', q), if q(x) then [x] else [], f);
      assert SumOf([x], f) == f(x) by {
        assert [x][..0] == [];
      }
    }
  }

  lemma {:induction false} SumOfNonNegative<T>(s: seq<T>, f: T -> real)
    requires forall x :: x in s ==> f(x) >= 0.0
    ensures SumOf(s, f) >= 0.0
  {
    if s != [] {
      var s' := s[..|s| - 1];
      assert s == s' + [s[|s| - 1]];
      SumOfNonNegative(s', f);
    }
  }

  /** Two functions that agree on every element have the same sum. */
  lemma {:induction false} SumOfCongruent<T>(s: seq<T>, f: T -> real, g: T -> real)
    requires forall x :: x in s ==> f(x) == g(x)
    ensures SumOf(s, f) == SumOf(s, g)
  {
    if s != [] {
      var s' := s[..|s| - 1];
      assert s == s' + [s[|s| - 1]];
      SumOfCongruent(s', f, g);
    }
  }

  /** The sum splits around any position. */
  lemma SumOfSplit<T>(s: seq<T>, i: int, f: T -> real)
    requires 0 <= i < |s|
    ensures SumOf(s, f) == SumOf(s[..i], f) + f(s[i]) + SumOf(s[i + 1..], f)
  {
    assert s == s[..i] + [s[i]] + s[i + 1..];
    SumOfAppend(s[..i] + [s[i]], s[i + 1..], f);
    SumOfAppend(s[..i], [s[i]], f);
    assert SumOf([s[i]], f) == f(s[i]) by {
      assert [s[i]][..0] == [];
    }
  }

  /** Replacing one element changes the sum by the difference of the two. */
  lemma SumOfUpdate<T>(s: seq<T>, i: int, x: T, f: T -> real)
    requires 0 <= i < |s|
    ensures SumOf(s[i := x], f) == SumOf(s, f) - f(s[i]) + f(x)
  {
    var t := s[i := x];
    SumOfSplit(s, i, f);
    SumOfSplit(t, i, f);
    assert t[..i] == s[..i];
    assert t[i + 1..] == s[i + 1..];
  }
}
