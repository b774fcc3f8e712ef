/** Sequence operations that the pages build their lists with: JavaScript's
    Array.prototype.filter, slice(0, n), and de-duplication through a Set
    (which keeps first-occurrence order). */
module Seqs {

  datatype Option<+T> = None | Some(value: T) {
    /** `x ?? fallback`: the value, or the fallback when there is none */
    function GetOr(fallback: T): T {
      match this
      case Some(v) => v
      case None => fallback
    }
  }

  /** Array.prototype.filter: the elements of s that satisfy p, in order */
  function Filter<T>(s: seq<T>, p: T -> bool): (r: seq<T>)
    ensures |r| <= |s|
    ensures forall i :: 0 <= i < |r| ==> p(r[i])
  {
    if s == [] then [] else (if p(s[0]) then [s[0]] else []) + Filter(s[1..], p)
  }

  /** Array.prototype.map */
  function Map<A, B>(s: seq<A>, f: A -> B): (r: seq<B>)
    ensures |r| == |s|
    ensures forall i :: 0 <= i < |s| ==> r[i] == f(s[i])
  {
    if s == [] then [] else [f(s[0])] + Map(s[1..], f)
  }

  /** r can be obtained from s by deleting elements (relative order is kept) */
  predicate IsSubseq<T(==)>(r: seq<T>, s: seq<T>)
    decreases |s|
  {
    if r == [] then true
    else if s == [] then false
    else if r[0] == s[0] then IsSubseq(r[1..], s[1..])
    else IsSubseq(r, s[1..])
  }

  /** no element occurs twice */
  predicate Distinct<T(==)>(s: seq<T>) {
    forall i, j :: 0 <= i < j < |s| ==> s[i] != s[j]
  }

  /** index of the first occurrence of x in s */
  function FirstIndex<T(==)>(s: seq<T>, x: T): (k: nat)
    requires x in s
    ensures k < |s| && s[k] == x
    ensures forall i :: 0 <= i < k ==> s[i] != x
  {
    if s[0] == x then 0 else 1 + FirstIndex(s[1..], x)
  }

  /** `[...new Set(s)]`: each element once, in the order of its first occurrence */
  function Dedup<T(==)>(s: seq<T>): (r: seq<T>)
    ensures |r| <= |s|
  {
    if s == [] then []
    else
      var d := Dedup(s[..|s| - 1]);
      if s[|s| - 1] in d then d else d + [s[|s| - 1]]
  }

  /** `s.slice(0, n)` */
  function Take<T>(s: seq<T>, n: nat): (r: seq<T>)
    ensures |r| == if |s| <= n then |s| else n
    ensures forall i :: 0 <= i < |r| ==> r[i] == s[i]
  {
    if |s| <= n then s else s[..n]
  }

  // ---------------------------------------------------------------- Filter

  lemma {:induction false} FilterMembers<T>(s: seq<T>, p: T -> bool, x: T)
    ensures x in Filter(s, p) <==> x in s && p(x)
  {
    if s != [] {
      FilterMembers(s[1..], p, x);
      assert s == [s[0]] + s[1..];
    }
  }

  lemma {:induction false} FilterIsSubseq<T>(s: seq<T>, p: T -> bool)
    ensures IsSubseq(Filter(s, p), s)
  {
    if s != [] {
      FilterIsSubseq(s[1..], p);
      var rest := Filter(s[1..], p);
      if p(s[0]) {
        assert Filter(s, p) == [s[0]] + rest;
        assert ([s[0]] + rest)[1..] == rest;
      } else {
        assert Filter(s, p) == rest;
        SubseqDropHead(rest, s);
      }
    }
  }

  /** Filtering keeps everything exactly when every element passes */
  lemma {:induction false} FilterAll<T>(s: seq<T>, p: T -> bool)
    requires forall i :: 0 <= i < |s| ==> p(s[i])
    ensures Filter(s, p) == s
  {
    if s != [] {
      FilterAll(s[1..], p);
    }
  }

  /** Two successive filters are one filter by the conjunction */
  lemma {:induction false} FilterFilter<T>(s: seq<T>, p: T -> bool, q: T -> bool, pq: T -> bool)
    requires forall x :: pq(x) == (p(x) && q(x))
    ensures Filter(Filter(s, p), q) == Filter(s, pq)
  {
    if s != [] {
      FilterFilter(s[1..], p, q, pq);
      var rest := Filter(s[1..], p);
      if p(s[0]) {
        assert Filter(s, p) == [s[0]] + rest;
        assert ([s[0]] + rest)[1..] == rest;
      } else {
        assert Filter(s, p) == rest;
        assert !pq(s[0]);
      }
    }
  }

  /** Filtering by predicates that agree everywhere gives the same list */
  lemma {:induction false} FilterSamePredicate<T>(s: seq<T>, p: T -> bool, q: T -> bool)
    requires forall x :: p(x) == q(x)
    ensures Filter(s, p) == Filter(s, q)
  {
    if s != [] {
      FilterSamePredicate(s[1..], p, q);
    }
  }

  /** The pages' `if (criterion) filtered = filtered.filter(p)` step is a
      filter by "criterion inactive, or p" */
  lemma {:induction false} FilterWhen<T>(s: seq<T>, active: bool, p: T -> bool, q: T -> bool)
    requires forall x :: q(x) == (!active || p(x))
    ensures (if active then Filter(s, p) else s) == Filter(s, q)
  {
    if active {
      FilterSamePredicate(s, p, q);
    } else {
      FilterAll(s, q);
    }
  }

  /** Filtering keeps the order in which kept elements first occur */
  lemma {:induction false} FilterFirstIndexOrder<T>(s: seq<T>, p: T -> bool, x: T, y: T)
    requires x in Filter(s, p) && y in Filter(s, p)
    requires FirstIndex(Filter(s, p), x) < FirstIndex(Filter(s, p), y)
    ensures x in s && y in s && FirstIndex(s, x) < FirstIndex(s, y)
  {
    FilterMembers(s, p, x);
    FilterMembers(s, p, y);
    var rest := Filter(s[1..], p);
    if p(s[0]) {
      assert Filter(s, p) == [s[0]] + rest;
      if s[0] != x {
        assert ([s[0]] + rest)[1..] == rest;
        assert s[0] != y;
        FilterFirstIndexOrder(s[1..], p, x, y);
      }
    } else {
      assert Filter(s, p) == rest;
      FilterFirstIndexOrder(s[1..], p, x, y);
    }
  }

  // ------------------------------------------------------------- IsSubseq

  lemma {:induction false} SubseqDropHead<T>(r: seq<T>, s: seq<T>)
    requires s != [] && IsSubseq(r, s[1..])
    ensures IsSubseq(r, s)
    decreases |s|, 0
  {
    if r != [] && r[0] == s[0] {
      // r[1..] is a subsequence of s[1..] because r is one of s[1..]
      SubseqTail(r, s[1..]);
    }
  }

  /** a subsequence's tail is a subsequence too */
  lemma {:induction false} SubseqTail<T>(r: seq<T>, s: seq<T>)
    requires r != [] && IsSubseq(r, s)
    ensures IsSubseq(r[1..], s)
    decreases |s|, 1
  {
    if r[0] == s[0] {
      if r[1..] != [] {
        SubseqDropHead(r[1..], s);
      }
    } else {
      SubseqTail(r, s[1..]);
      if r[1..] != [] {
        SubseqDropHead(r[1..], s);
      }
    }
  }

  lemma {:induction false} SubseqRefl<T>(s: seq<T>)
    ensures IsSubseq(s, s)
  {
    if s != [] {
      SubseqRefl(s[1..]);
    }
  }

  /** a prefix is a subsequence */
  lemma {:induction false} TakeIsSubseq<T>(s: seq<T>, n: nat)
    ensures IsSubseq(Take(s, n), s)
  {
    var r := Take(s, n);
    if r != [] {
      assert r[0] == s[0];
      assert r[1..] == Take(s[1..], n - 1);
      TakeIsSubseq(s[1..], n - 1);
    }
  }

  lemma {:induction false} SubseqTrans<T>(a: seq<T>, b: seq<T>, c: seq<T>)
    requires IsSubseq(a, b) && IsSubseq(b, c)
    ensures IsSubseq(a, c)
    decreases |c|
  {
    if a != [] {
      assert b != [] && c != [];
      if b[0] == c[0] {
        if a[0] == b[0] {
          SubseqTrans(a[1..], b[1..], c[1..]);
        } else {
          SubseqTrans(a, b[1..], c[1..]);
        }
      } else {
        SubseqTrans(a, b, c[1..]);
        SubseqDropHead(a, c);
      }
    }
  }

  /** appending one element on the right of s keeps r a subsequence */
  lemma {:induction false} SubseqAppendRight<T>(r: seq<T>, s: seq<T>, y: T)
    requires IsSubseq(r, s)
    ensures IsSubseq(r, s + [y])
    decreases |s|
  {
    if r != [] {
      assert (s + [y])[1..] == s[1..] + [y];
      if r[0] == s[0] {
        SubseqAppendRight(r[1..], s[1..], y);
      } else {
        SubseqAppendRight(r, s[1..], y);
      }
    }
  }

  /** appending the same element to both keeps the relation */
  lemma {:induction false} SubseqAppendBoth<T>(r: seq<T>, s: seq<T>, y: T)
    requires IsSubseq(r, s)
    ensures IsSubseq(r + [y], s + [y])
    decreases |s|
  {
    if r == [] {
      SubseqSingleton(s + [y], |s|);
      assert r + [y] == [(s + [y])[|s|]];
    } else {
      assert (s + [y])[1..] == s[1..] + [y];
      assert (r + [y])[1..] == r[1..] + [y];
      if r[0] == s[0] {
        SubseqAppendBoth(r[1..], s[1..], y);
      } else {
        SubseqAppendBoth(r, s[1..], y);
      }
    }
  }

  lemma {:induction false} SubseqSingleton<T>(s: seq<T>, k: nat)
    requires k < |s|
    ensures IsSubseq([s[k]], s)
  {
    if s[0] != s[k] {
      SubseqSingleton(s[1..], k - 1);
    }
  }

  /** every element of a subsequence occurs in the sequence */
  lemma {:induction false} SubseqMembers<T>(r: seq<T>, s: seq<T>, x: T)
    requires IsSubseq(r, s) && x in r
    ensures x in s
    decreases |s|
  {
    if r[0] == s[0] {
      if x != r[0] {
        assert x in r[1..];
        SubseqMembers(r[1..], s[1..], x);
      }
    } else {
      SubseqMembers(r, s[1..], x);
    }
  }

  // ---------------------------------------------------------------- Dedup

  lemma {:induction false} DedupMembers<T>(s: seq<T>, x: T)
    ensures x in Dedup(s) <==> x in s
  {
    if s != [] {
      var init := s[..|s| - 1];
      DedupMembers(init, x);
      assert s == init + [s[|s| - 1]];
    }
  }

  lemma {:induction false} DedupDistinct<T>(s: seq<T>)
    ensures Distinct(Dedup(s))
  {
    if s != [] {
      DedupDistinct(s[..|s| - 1]);
    }
  }

  lemma {:induction false} DedupIsSubseq<T>(s: seq<T>)
    ensures IsSubseq(Dedup(s), s)
  {
    if s != [] {
      var init, last := s[..|s| - 1], s[|s| - 1];
      DedupIsSubseq(init);
      assert s == init + [last];
      if last in Dedup(init) {
        SubseqAppendRight(Dedup(init), init, last);
      } else {
        SubseqAppendBoth(Dedup(init), init, last);
      }
    }
  }

  /** every element of r occurs in s, and r lists them in the order of their
      first occurrence in s */
  predicate InFirstOccurrenceOrder<T(==)>(r: seq<T>, s: seq<T>) {
    && (forall i :: 0 <= i < |r| ==> r[i] in s)
    && (forall i, j :: 0 <= i < j < |r| ==> FirstIndex(s, r[i]) < FirstIndex(s, r[j]))
  }

  /** Dedup lists its elements in the order of their first occurrence in s */
  lemma {:induction false} DedupFirstOccurrenceOrder<T>(s: seq<T>, i: nat, j: nat)
    requires i < j < |Dedup(s)|
    ensures Dedup(s)[i] in s && Dedup(s)[j] in s
    ensures FirstIndex(s, Dedup(s)[i]) < FirstIndex(s, Dedup(s)[j])
  {
    var d := Dedup(s);
    DedupMembers(s, d[i]);
    DedupMembers(s, d[j]);
    var init, last := s[..|s| - 1], s[|s| - 1];
    var di := Dedup(init);
    assert s == init + [last];
    DedupMembers(init, d[i]);
    if last in di || j < |di| {
      DedupFirstOccurrenceOrder(init, i, j);
      FirstIndexExtend(init, last, d[i]);
      FirstIndexExtend(init, last, d[j]);
    } else {
      // d[j] is last, which first occurs at the end; d[i] occurs earlier
      assert d[j] == last && last !in init by { DedupMembers(init, last); }
      FirstIndexExtend(init, last, d[i]);
    }
  }

  lemma {:induction false} FirstIndexExtend<T>(s: seq<T>, y: T, x: T)
    requires x in s
    ensures x in s + [y] && FirstIndex(s + [y], x) == FirstIndex(s, x)
  {
    if s[0] != x {
      assert (s + [y])[1..] == s[1..] + [y];
      FirstIndexExtend(s[1..], y, x);
    }
  }
}
