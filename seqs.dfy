/**
 * `Array.prototype.filter` over immutable sequences, and what it guarantees: every
 * survivor passes the test, nothing that passes is lost, and the survivors keep their
 * input order (they form a subsequence of the input).
 */
module Seqs {

  /** `s.filter(keep)` */
  function Filter<T>(s: seq<T>, keep: T -> bool): (r: seq<T>)
    ensures |r| == Count(s, keep) <= |s|
    ensures forall i :: 0 <= i < |r| ==> keep(r[i])
  {
    if s == [] then []
    else if keep(s[0]) then [s[0]] + Filter(s[1..], keep)
    else Filter(s[1..], keep)
  }

  /** How many elements of `s` pass `keep`. */
  function Count<T>(s: seq<T>, keep: T -> bool): nat {
    if s == [] then 0 else (if keep(s[0]) then 1 else 0) + Count(s[1..], keep)
  }

  /** `r` is obtained from `s` by deleting elements, without reordering. */
  ghost predicate IsSubsequence<T>(r: seq<T>, s: seq<T>)
    decreases |s|
  {
    |r| <= |s| &&
    (r == [] || (r[0] == s[0] && IsSubsequence(r[1..], s[1..])) || IsSubsequence(r, s[1..]))
  }

  lemma {:induction false} FilterIsSubsequence<T>(s: seq<T>, keep: T -> bool)
    ensures IsSubsequence(Filter(s, keep), s)
  {
    if s != [] {
      FilterIsSubsequence(s[1..], keep);
    }
  }

  /** Exactly the elements that pass survive. */
  lemma {:induction false} FilterMembers<T>(s: seq<T>, keep: T -> bool)
    ensures forall i :: 0 <= i < |Filter(s, keep)| ==> Filter(s, keep)[i] in s
    ensures forall i :: 0 <= i < |s| && keep(s[i]) ==> s[i] in Filter(s, keep)
  {
    if s != [] {
      FilterMembers(s[1..], keep);
    }
  }

  /** Filtering a sequence all of whose elements pass changes nothing. */
  lemma {:induction false} FilterAllKept<T>(s: seq<T>, keep: T -> bool)
    requires forall i :: 0 <= i < |s| ==> keep(s[i])
    ensures Filter(s, keep) == s
  {
    if s != [] {
      FilterAllKept(s[1..], keep);
    }
  }

  /** A relation that holds between every earlier and later element of `s` still holds
      between every earlier and later element of a subsequence. */
  lemma {:induction false} SubsequenceKeepsPairwise<T>(r: seq<T>, s: seq<T>, rel: (T, T) -> bool)
    requires IsSubsequence(r, s)
    requires forall i, j :: 0 <= i < j < |s| ==> rel(s[i], s[j])
    ensures forall i, j :: 0 <= i < j < |r| ==> rel(r[i], r[j])
    decreases |s|
  {
    if r != [] {
      if r[0] == s[0] && IsSubsequence(r[1..], s[1..]) {
        SubsequenceKeepsPairwise(r[1..], s[1..], rel);
        SubsequenceMembers(r[1..], s[1..]);
        forall i, j | 0 <= i < j < |r| ensures rel(r[i], r[j]) {
          if i > 0 {
            assert rel(r[1..][i - 1], r[1..][j - 1]);
          } else {
            var k :| 0 <= k < |s[1..]| && s[1..][k] == r[1..][j - 1];
            assert rel(s[0], s[k + 1]);
          }
        }
      } else {
        SubsequenceKeepsPairwise(r, s[1..], rel);
      }
    }
  }

  lemma {:induction false} SubsequenceMembers<T>(r: seq<T>, s: seq<T>)
    requires IsSubsequence(r, s)
    ensures forall i :: 0 <= i < |r| ==> r[i] in s
    decreases |s|
  {
    if r != [] {
      if r[0] == s[0] && IsSubsequence(r[1..], s[1..]) {
        SubsequenceMembers(r[1..], s[1..]);
        assert r == [r[0]] + r[1..];
      } else {
        SubsequenceMembers(r, s[1..]);
      }
    }
  }

  /** Filtering distributes over concatenation. */
  lemma {:induction false} FilterAppend<T>(a: seq<T>, b: seq<T>, keep: T -> bool)
    ensures Filter(a + b, keep) == Filter(a, keep) + Filter(b, keep)
  {
    if a != [] {
      FilterAppend(a[1..], b, keep);
      assert (a + b)[1..] == a[1..] + b;
    } else {
      assert a + b == b;
    }
  }

  /** Filtering a sequence none of whose elements pass leaves nothing. */
  lemma {:induction false} FilterNoneKept<T>(s: seq<T>, keep: T -> bool)
    requires forall i :: 0 <= i < |s| ==> !keep(s[i])
    ensures Filter(s, keep) == []
  {
    if s != [] {
      FilterNoneKept(s[1..], keep);
    }
  }

  /** Filtering removes exactly one failing element from among passing ones. */
  lemma {:induction false} FilterDropsOne<T>(pre: seq<T>, x: T, post: seq<T>, keep: T -> bool)
    requires forall i :: 0 <= i < |pre| ==> keep(pre[i])
    requires forall i :: 0 <= i < |post| ==> keep(post[i])
    requires !keep(x)
    ensures Filter(pre + [x] + post, keep) == pre + post
  {
    var s := pre + [x] + post;
    if pre == [] {
      assert s[0] == x && s[1..] == post;
      FilterAllKept(post, keep);
    } else {
      assert s[0] == pre[0] && s[1..] == pre[1..] + [x] + post;
      FilterDropsOne(pre[1..], x, post, keep);
      assert pre + post == [pre[0]] + (pre[1..] + post);
    }
  }

  /** A property every element has, every survivor has. */
  lemma {:induction false} FilterKeepsProperty<T>(s: seq<T>, keep: T -> bool, p: T -> bool)
    requires forall i :: 0 <= i < |s| ==> p(s[i])
    ensures forall i :: 0 <= i < |Filter(s, keep)| ==> p(Filter(s, keep)[i])
  {
    if s != [] {
      FilterKeepsProperty(s[1..], keep, p);
    }
  }
}
