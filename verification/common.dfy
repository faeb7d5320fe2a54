/**
 * Generic sequence helpers shared by the store and the admin views:
 * an Option type, the order-preserving `filter` of JavaScript arrays,
 * the subsequence relation it establishes, and first-occurrence deduplication.
 */
module Common {

  datatype Option<+T> = None | Some(value: T)

  /** `s` can be obtained from `t` by deleting elements, keeping the order of the rest. */
  predicate IsSubsequence<T(==)>(s: seq<T>, t: seq<T>)
    decreases |t|
  {
    if t == [] then s == []
    else IsSubsequence(s, t[1..]) || (s != [] && s[0] == t[0] && IsSubsequence(s[1..], t[1..]))
  }

  /** `Array.prototype.filter`: the elements of `s` satisfying `p`, in their original order. */
  function Filter<T(==,!new)>(s: seq<T>, p: T -> bool): (r: seq<T>)
    ensures |r| <= |s|
    ensures IsSubsequence(r, s)
    ensures forall i :: 0 <= i < |r| ==> p(r[i])
    ensures forall x :: x in r <==> x in s && p(x)
  {
    if s == [] then []
    else if p(s[0]) then [s[0]] + Filter(s[1..], p)
    else Filter(s[1..], p)
  }

  /** Filtering distributes over concatenation. */
  lemma {:induction false} FilterAppend<T(!new)>(s: seq<T>, t: seq<T>, p: T -> bool)
    ensures Filter(s + t, p) == Filter(s, p) + Filter(t, p)
  {
    if s == [] {
      assert s + t == t;
    } else {
      assert (s + t)[0] == s[0];
      assert (s + t)[1..] == s[1..] + t;
      FilterAppend(s[1..], t, p);
    }
  }

  /** When every element passes, filtering keeps the whole sequence. */
  lemma {:induction false} FilterAll<T(!new)>(s: seq<T>, p: T -> bool)
    requires forall i :: 0 <= i < |s| ==> p(s[i])
    ensures Filter(s, p) == s
  {
    if s != [] {
      FilterAll(s[1..], p);
    }
  }

  /** When no element passes, filtering yields the empty sequence. */
  lemma {:induction false} FilterNone<T(!new)>(s: seq<T>, p: T -> bool)
    requires forall i :: 0 <= i < |s| ==> !p(s[i])
    ensures Filter(s, p) == []
  {
    if s != [] {
      FilterNone(s[1..], p);
    }
  }

  /** Two filters whose predicates never hold together select at most |s| elements in all. */
  lemma {:induction false} FilterDisjointCount<T(!new)>(s: seq<T>, p: T -> bool, q: T -> bool)
    requires forall i :: 0 <= i < |s| ==> !(p(s[i]) && q(s[i]))
    ensures |Filter(s, p)| + |Filter(s, q)| <= |s|
  {
    if s != [] {
      FilterDisjointCount(s[1..], p, q);
    }
  }

  /** A filter keeps each value exactly as often as it occurs, when it passes, and drops it otherwise. */
  lemma {:induction false} FilterMultiset<T(!new)>(s: seq<T>, p: T -> bool)
    ensures forall x :: multiset(Filter(s, p))[x] == if p(x) then multiset(s)[x] else 0
  {
    if s != [] {
      FilterMultiset(s[1..], p);
      assert s == [s[0]] + s[1..];
    }
  }

  /** A filter keeps any order that holds between every earlier and later element. */
  lemma {:induction false} FilterKeepsOrder<T(!new)>(s: seq<T>, p: T -> bool, before: (T, T) -> bool)
    requires forall i, j :: 0 <= i < j < |s| ==> before(s[i], s[j])
    ensures forall i, j :: 0 <= i < j < |Filter(s, p)| ==> before(Filter(s, p)[i], Filter(s, p)[j])
  {
    if s != [] {
      var rest := s[1..];
      forall i, j | 0 <= i < j < |rest|
        ensures before(rest[i], rest[j])
      {
        assert rest[i] == s[i + 1] && rest[j] == s[j + 1];
      }
      FilterKeepsOrder(rest, p, before);
      var t := Filter(rest, p);
      if p(s[0]) {
        var r := Filter(s, p);
        assert r == [s[0]] + t;
        forall i, j | 0 <= i < j < |r|
          ensures before(r[i], r[j])
        {
          if i == 0 {
            FilterFrom(rest, p, j - 1);
            var k :| 0 <= k < |rest| && rest[k] == t[j - 1];
            assert r[0] == s[0] && r[j] == t[j - 1] && rest[k] == s[k + 1];
            assert before(s[0], s[k + 1]);
          } else {
            assert r[i] == t[i - 1] && r[j] == t[j - 1];
          }
        }
      }
    }
  }

  /** Every element a filter keeps sits at some position of the original sequence. */
  lemma FilterFrom<T(!new)>(s: seq<T>, p: T -> bool, j: nat)
    requires j < |Filter(s, p)|
    ensures exists k :: 0 <= k < |s| && s[k] == Filter(s, p)[j]
  {
    assert Filter(s, p)[j] in s;
  }

  /** The first element a filter keeps is the first element of `s` that passes. */
  lemma {:induction false} FilterFirst<T(!new)>(s: seq<T>, p: T -> bool, j: nat)
    requires j < |s| && p(s[j])
    requires forall i :: 0 <= i < j ==> !p(s[i])
    ensures Filter(s, p) != [] && Filter(s, p)[0] == s[j]
  {
    if j > 0 {
      FilterFirst(s[1..], p, j - 1);
    }
  }

  /** The first occurrence of every value of `xs`, in order of first appearance. */
  function Dedup<T(==,!new)>(xs: seq<T>): (r: seq<T>)
    ensures forall x :: x in r <==> x in xs
    ensures forall i, j :: 0 <= i < j < |r| ==> r[i] != r[j]
  {
    if xs == [] then []
    else
      var d := Dedup(xs[..|xs| - 1]);
      var x := xs[|xs| - 1];
      assert xs == xs[..|xs| - 1] + [x];
      if x in d then d else d + [x]
  }
}
