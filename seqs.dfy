/**
 * The array operations the application builds its filters and lookups from:
 * `filter`, `findIndex` and `find`, plus the notion of an in-order subsequence.
 */
module Seqs {
  import opened Wrappers

  /** `s.filter(p)` */
  function Filter<T>(s: seq<T>, p: T -> bool): (r: seq<T>)
    ensures |r| <= |s|
    ensures forall k :: 0 <= k < |r| ==> p(r[k])
    ensures forall x <- r :: x in s
    ensures forall i :: 0 <= i < |s| && p(s[i]) ==> s[i] in r
  {
    if s == [] then [] else (if p(s[0]) then [s[0]] else []) + Filter(s[1..], p)
  }

  /** The elements of `s` whose flag in `keep` is set, in order. */
  function Select<T>(s: seq<T>, keep: seq<bool>): (r: seq<T>)
    requires |keep| == |s|
  {
    if s == [] then [] else (if keep[0] then [s[0]] else []) + Select(s[1..], keep[1..])
  }

  /** `r` is obtained from `s` by dropping elements, keeping the order of the rest. */
  ghost predicate IsSubsequence<T>(r: seq<T>, s: seq<T>) {
    exists keep: seq<bool> :: |keep| == |s| && Select(s, keep) == r
  }

  lemma {:induction false} SelectMembers<T>(s: seq<T>, keep: seq<bool>)
    requires |keep| == |s|
    ensures forall x :: x in Select(s, keep) <==> exists i :: 0 <= i < |s| && keep[i] && s[i] == x
  {
    if s != [] {
      SelectMembers(s[1..], keep[1..]);
      forall x ensures x in Select(s, keep) <==> exists i :: 0 <= i < |s| && keep[i] && s[i] == x {
        if x in Select(s[1..], keep[1..]) {
          var j :| 0 <= j < |s| - 1 && keep[1..][j] && s[1..][j] == x;
          assert keep[j + 1] && s[j + 1] == x;
        }
        if i :| 0 <= i < |s| && keep[i] && s[i] == x {
          if i > 0 {
            assert keep[1..][i - 1] && s[1..][i - 1] == x;
          }
        }
      }
    }
  }

  lemma {:induction false} SelectAll<T>(s: seq<T>, keep: seq<bool>)
    requires |keep| == |s|
    requires forall i :: 0 <= i < |keep| ==> keep[i]
    ensures Select(s, keep) == s
  {
    if s != [] {
      SelectAll(s[1..], keep[1..]);
    }
  }

  lemma {:induction false} SelectNone<T>(s: seq<T>, keep: seq<bool>)
    requires |keep| == |s|
    requires forall i :: 0 <= i < |keep| ==> !keep[i]
    ensures Select(s, keep) == []
  {
    if s != [] {
      SelectNone(s[1..], keep[1..]);
    }
  }

  lemma {:induction false} EmptyIsSubsequence<T>(s: seq<T>)
    ensures IsSubsequence([], s)
  {
    var none := seq(|s|, i => false);
    SelectNone(s, none);
  }

  /** The flags `p` sets on each element of `s`. */
  function Mask<T>(s: seq<T>, p: T -> bool): (keep: seq<bool>)
    ensures |keep| == |s|
  {
    seq(|s|, i requires 0 <= i < |s| => p(s[i]))
  }

  lemma {:induction false} FilterIsSelect<T>(s: seq<T>, p: T -> bool)
    ensures Filter(s, p) == Select(s, Mask(s, p))
  {
    if s != [] {
      FilterIsSelect(s[1..], p);
      assert Mask(s, p)[1..] == Mask(s[1..], p);
    }
  }

  /** `filter` keeps the order of what it keeps. */
  lemma FilterIsSubsequence<T>(s: seq<T>, p: T -> bool)
    ensures IsSubsequence(Filter(s, p), s)
  {
    FilterIsSelect(s, p);
  }

  /** Filtering a selection is a selection with both conditions. */
  lemma {:induction false} FilterSelect<T>(s: seq<T>, keep: seq<bool>, p: T -> bool, both: seq<bool>)
    requires |keep| == |s| == |both|
    requires forall i :: 0 <= i < |s| ==> both[i] == (keep[i] && p(s[i]))
    ensures Filter(Select(s, keep), p) == Select(s, both)
  {
    if s != [] {
      FilterSelect(s[1..], keep[1..], p, both[1..]);
      FilterConcat((if keep[0] then [s[0]] else []), Select(s[1..], keep[1..]), p);
    }
  }

  /** `filter` distributes over concatenation, which pins down the order of its result. */
  lemma {:induction false} FilterConcat<T>(a: seq<T>, b: seq<T>, p: T -> bool)
    ensures Filter(a + b, p) == Filter(a, p) + Filter(b, p)
  {
    if a != [] {
      assert (a + b)[0] == a[0];
      assert (a + b)[1..] == a[1..] + b;
      FilterConcat(a[1..], b, p);
    } else {
      assert a + b == b;
    }
  }

  lemma {:induction false} FilterKeepsAll<T>(s: seq<T>, p: T -> bool)
    requires forall i :: 0 <= i < |s| ==> p(s[i])
    ensures Filter(s, p) == s
  {
    if s != [] {
      FilterKeepsAll(s[1..], p);
    }
  }

  /**
   * `s.findIndex(p)`: the index of the first element satisfying `p`, or -1.
   */
  function FindIndex<T>(s: seq<T>, p: T -> bool): (k: int)
    ensures -1 <= k < |s|
    ensures k >= 0 ==> p(s[k]) && forall j :: 0 <= j < k ==> !p(s[j])
    ensures k < 0 ==> forall j :: 0 <= j < |s| ==> !p(s[j])
  {
    if s == [] then -1
    else if p(s[0]) then 0
    else
      var k := FindIndex(s[1..], p);
      if k < 0 then -1 else k + 1
  }

  /** `s.find(p)`: the first element satisfying `p`, or `undefined`. */
  function Find<T>(s: seq<T>, p: T -> bool): (r: Option<T>)
    ensures r.Some? <==> exists i :: 0 <= i < |s| && p(s[i])
    ensures r.Some? ==> p(r.value) && r.value == s[FindIndex(s, p)]
  {
    var k := FindIndex(s, p);
    if k < 0 then None else Some(s[k])
  }
}
