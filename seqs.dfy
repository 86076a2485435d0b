/** Sequence helpers shared by the editor and the generators: JavaScript's
    `Array.prototype.filter` and the "no duplicates" invariant. */
module Seqs {

  /** The elements of `s` that `keep` accepts, in their original order. */
  function Filter<T(==,!new)>(s: seq<T>, keep: T -> bool): (r: seq<T>)
    ensures |r| <= |s|
    ensures forall x :: x in r <==> x in s && keep(x)
  {
    if s == [] then []
    else (if keep(s[0]) then [s[0]] else []) + Filter(s[1..], keep)
  }

  /** No element occurs twice. */
  predicate Distinct<T(==)>(s: seq<T>) {
    forall i, j :: 0 <= i < j < |s| ==> s[i] != s[j]
  }

  /** Filtering distributes over concatenation: this is what "keeps the
      original order" means. */
  lemma {:induction false} FilterConcat<T(!new)>(a: seq<T>, b: seq<T>, keep: T -> bool)
    ensures Filter(a + b, keep) == Filter(a, keep) + Filter(b, keep)
  {
    if a == [] {
      assert a + b == b;
    } else {
      assert (a + b)[0] == a[0];
      assert (a + b)[1..] == a[1..] + b;
      FilterConcat(a[1..], b, keep);
    }
  }

  /** When every element is kept, filtering changes nothing. */
  lemma {:induction false} FilterKeepsAll<T(!new)>(s: seq<T>, keep: T -> bool)
    requires forall i :: 0 <= i < |s| ==> keep(s[i])
    ensures Filter(s, keep) == s
  {
    if s != [] {
      FilterKeepsAll(s[1..], keep);
    }
  }

  /** When no element is kept, filtering gives the empty sequence. */
  lemma {:induction false} FilterDropsAll<T(!new)>(s: seq<T>, keep: T -> bool)
    requires forall i :: 0 <= i < |s| ==> !keep(s[i])
    ensures Filter(s, keep) == []
  {
    if s != [] {
      FilterDropsAll(s[1..], keep);
    }
  }

  /** When the kept elements form one block, filtering gives that block. */
  lemma FilterBlock<T(!new)>(pre: seq<T>, mid: seq<T>, post: seq<T>, keep: T -> bool)
    requires forall i :: 0 <= i < |pre| ==> !keep(pre[i])
    requires forall i :: 0 <= i < |mid| ==> keep(mid[i])
    requires forall i :: 0 <= i < |post| ==> !keep(post[i])
    ensures Filter(pre + mid + post, keep) == mid
  {
    FilterConcat(pre + mid, post, keep);
    FilterConcat(pre, mid, keep);
    FilterDropsAll(pre, keep);
    FilterKeepsAll(mid, keep);
    FilterDropsAll(post, keep);
  }

  /** Filtering a duplicate-free sequence leaves it duplicate-free. */
  lemma {:induction false} FilterKeepsDistinct<T(!new)>(s: seq<T>, keep: T -> bool)
    requires Distinct(s)
    ensures Distinct(Filter(s, keep))
  {
    if s != [] {
      DistinctTail(s);
      FilterKeepsDistinct(s[1..], keep);
      if keep(s[0]) {
        PrependKeepsDistinct(s[0], Filter(s[1..], keep));
      }
    }
  }

  /** The tail of a duplicate-free sequence is duplicate-free and does not
      contain the head. */
  lemma DistinctTail<T>(s: seq<T>)
    requires Distinct(s) && s != []
    ensures Distinct(s[1..]) && s[0] !in s[1..]
  {
    forall i, j | 0 <= i < j < |s[1..]| ensures s[1..][i] != s[1..][j] {
      assert s[1..][i] == s[i + 1] && s[1..][j] == s[j + 1];
    }
    forall k | 0 <= k < |s[1..]| ensures s[1..][k] != s[0] {
      assert s[1..][k] == s[k + 1];
    }
  }

  /** Putting a new element in front keeps a sequence duplicate-free. */
  lemma PrependKeepsDistinct<T>(x: T, s: seq<T>)
    requires Distinct(s) && x !in s
    ensures Distinct([x] + s)
  {
    var r := [x] + s;
    forall i, j | 0 <= i < j < |r| ensures r[i] != r[j] {
      if i == 0 {
        assert r[j] == s[j - 1];
      } else {
        assert r[i] == s[i - 1] && r[j] == s[j - 1];
      }
    }
  }

  /** Appending an element that is not yet present keeps a sequence duplicate-free. */
  lemma AppendKeepsDistinct<T>(s: seq<T>, x: T)
    requires x !in s
    ensures Distinct(s) ==> Distinct(s + [x])
  {
    var r := s + [x];
    forall i, j | Distinct(s) && 0 <= i < j < |r| ensures r[i] != r[j] {
      if j == |s| {
        assert r[i] == s[i];
      } else {
        assert r[i] == s[i] && r[j] == s[j];
      }
    }
  }
}
