/** The list operations the components build on: `Array.prototype.filter`,
    `filter(...).length`, the replace-by-id `map` of the store, and
    `Array.prototype.sort` with a comparator. */
module Seqs {

  /** `r` is `s` with some elements dropped and the rest kept in order. */
  predicate IsSubsequence<T(==)>(r: seq<T>, s: seq<T>)
    decreases |s|
  {
    if r == [] then true
    else if s == [] then false
    else if r[0] == s[0] then IsSubsequence(r[1..], s[1..])
    else IsSubsequence(r, s[1..])
  }

  /** `s.filter(p)`: the elements satisfying `p`, in their original order. */
  function Filter<T>(s: seq<T>, p: T -> bool): (r: seq<T>)
    ensures |r| <= |s|
    ensures forall x :: x in r ==> x in s && p(x)
    ensures forall x :: x in s && p(x) ==> x in r
  {
    if s == [] then []
    else
      assert s == [s[0]] + s[1..];
      if p(s[0]) then [s[0]] + Filter(s[1..], p) else Filter(s[1..], p)
  }

  lemma {:induction false} FilterIsSubsequence<T>(s: seq<T>, p: T -> bool)
    ensures IsSubsequence(Filter(s, p), s)
  {
    if s != [] {
      FilterIsSubsequence(s[1..], p);
      var f := Filter(s, p);
      if p(s[0]) {
        assert f[0] == s[0] && f[1..] == Filter(s[1..], p);
      } else {
        SubsequenceOfTail(f, s);
      }
    }
  }

  /** Dropping the head of `s` never helps: whatever is a subsequence of the
      tail is a subsequence of the whole. */
  lemma {:induction false} SubsequenceOfTail<T>(r: seq<T>, s: seq<T>)
    requires s != [] && IsSubsequence(r, s[1..])
    ensures IsSubsequence(r, s)
    decreases |s|, 0
  {
    if r != [] && r[0] == s[0] {
      SubsequenceDropHead(r, s[1..]);
    }
  }

  /** If `r` is a subsequence of `s`, so is `r` without its head. */
  lemma {:induction false} SubsequenceDropHead<T>(r: seq<T>, s: seq<T>)
    requires r != [] && IsSubsequence(r, s)
    ensures IsSubsequence(r[1..], s)
    decreases |s|, 1
  {
    if r[1..] != [] {
      if r[0] != s[0] {
        SubsequenceDropHead(r, s[1..]);
      }
      SubsequenceOfTail(r[1..], s);
    }
  }

  /** A filter that keeps everything returns its input. */
  lemma {:induction false} FilterAll<T>(s: seq<T>, p: T -> bool)
    requires forall x :: x in s ==> p(x)
    ensures Filter(s, p) == s
  {
    if s != [] {
      FilterAll(s[1..], p);
    }
  }

  /** A filter never adds copies: each element occurs in the result at most
      as often as in the input. */
  lemma {:induction false} FilterMultiset<T>(s: seq<T>, p: T -> bool)
    ensures multiset(Filter(s, p)) <= multiset(s)
  {
    if s != [] {
      FilterMultiset(s[1..], p);
      assert s == [s[0]] + s[1..];
    }
  }

  /** The filter keeps every copy of an element it accepts and no copy of
      one it rejects. */
  lemma {:induction false} FilterMultiplicity<T>(s: seq<T>, p: T -> bool)
    ensures forall x :: multiset(Filter(s, p))[x] == if p(x) then multiset(s)[x] else 0
  {
    if s != [] {
      FilterMultiplicity(s[1..], p);
      assert s == [s[0]] + s[1..];
    }
  }

  /** `Filter` of a list given by its head and its tail. */
  lemma FilterCons<T>(y: T, s: seq<T>, p: T -> bool)
    ensures Filter([y] + s, p) == if p(y) then [y] + Filter(s, p) else Filter(s, p)
  {
    assert ([y] + s)[0] == y && ([y] + s)[1..] == s;
  }

  /** Appending an element the filter rejects does not change the result. */
  lemma {:induction false} FilterAppendRejected<T>(s: seq<T>, x: T, p: T -> bool)
    requires !p(x)
    ensures Filter(s + [x], p) == Filter(s, p)
  {
    if s == [] {
      assert s + [x] == [x];
    } else {
      FilterAppendRejected(s[1..], x, p);
      assert s == [s[0]] + s[1..];
      assert s + [x] == [s[0]] + (s[1..] + [x]);
      FilterCons(s[0], s[1..] + [x], p);
      FilterCons(s[0], s[1..], p);
    }
  }

  /** A filter keeps something exactly when some element satisfies it. */
  lemma FilterNonEmptyIff<T>(s: seq<T>, p: T -> bool)
    ensures |Filter(s, p)| > 0 <==> exists x :: x in s && p(x)
  {
    if |Filter(s, p)| > 0 {
      assert Filter(s, p)[0] in Filter(s, p);
    }
  }

  /** Counting by two predicates that split the elements of `s` between them:
      the counts add up to the count of their disjunction. */
  lemma {:induction false} CountSplit<T>(s: seq<T>, p: T -> bool, q: T -> bool, both: T -> bool)
    requires forall x :: x in s ==> (both(x) <==> p(x) || q(x))
    requires forall x :: x in s ==> !(p(x) && q(x))
    ensures |Filter(s, both)| == |Filter(s, p)| + |Filter(s, q)|
  {
    if s != [] {
      CountSplit(s[1..], p, q, both);
    }
  }

  /** A predicate and its complement together count every element. */
  lemma CountComplement<T>(s: seq<T>, p: T -> bool, q: T -> bool)
    requires forall x :: x in s ==> (q(x) <==> !p(x))
    ensures |Filter(s, p)| + |Filter(s, q)| == |s|
  {
    CountSplit(s, p, q, _ => true);
    FilterAll(s, _ => true);
  }

  /** `xs.map(y => key(y) === key(x) ? x : y)`: every element with the same
      key as `x` is replaced by `x`; nothing is inserted or removed. */
  function ReplaceById<T>(xs: seq<T>, x: T, key: T -> int): (r: seq<T>)
    ensures |r| == |xs|
    ensures forall i :: 0 <= i < |xs| ==> r[i] == (if key(xs[i]) == key(x) then x else xs[i])
  {
    if xs == [] then []
    else [if key(xs[0]) == key(x) then x else xs[0]] + ReplaceById(xs[1..], x, key)
  }

  /** No element carries the key: the list comes back unchanged (no upsert). */
  lemma ReplaceAbsentIsIdentity<T>(xs: seq<T>, x: T, key: T -> int)
    requires forall y :: y in xs ==> key(y) != key(x)
    ensures ReplaceById(xs, x, key) == xs
  {
    var r := ReplaceById(xs, x, key);
    forall i | 0 <= i < |xs| ensures r[i] == xs[i] {
      assert xs[i] in xs;
    }
  }

  /** `x` is in the result exactly when it was there already or some element
      carried its key. */
  lemma ReplaceMembership<T>(xs: seq<T>, x: T, key: T -> int)
    ensures x in ReplaceById(xs, x, key) <==> exists i :: 0 <= i < |xs| && key(xs[i]) == key(x)
  {
    var r := ReplaceById(xs, x, key);
    if x in r {
      var i :| 0 <= i < |r| && r[i] == x;
      assert key(xs[i]) == key(x);
    }
  }

  /** Replacing twice with the same record is the same as replacing once. */
  lemma ReplaceIdempotent<T>(xs: seq<T>, x: T, key: T -> int)
    ensures ReplaceById(ReplaceById(xs, x, key), x, key) == ReplaceById(xs, x, key)
  {
  }

  /** `leq(a, b)` is the comparator's "a may come before b":
      `cmp(a, b) <= 0`. */
  ghost predicate TotalPreorder<T(!new)>(leq: (T, T) -> bool)
  {
    && (forall a, b :: leq(a, b) || leq(b, a))
    && (forall a, b, c :: leq(a, b) && leq(b, c) ==> leq(a, c))
  }

  predicate Sorted<T>(s: seq<T>, leq: (T, T) -> bool)
  {
    forall i, j :: 0 <= i < j < |s| ==> leq(s[i], s[j])
  }

  /** Insert `x` before the first element it may precede; equal elements keep
      `x` in front, which makes `Sort` stable. */
  function Insert<T>(x: T, s: seq<T>, leq: (T, T) -> bool): (r: seq<T>)
    ensures multiset(r) == multiset(s) + multiset{x}
  {
    if s == [] || leq(x, s[0]) then [x] + s
    else
      assert s == [s[0]] + s[1..];
      [s[0]] + Insert(x, s[1..], leq)
  }

  /** A stable sort by `leq`, standing for the engine's `Array.prototype.sort`
      (stable since ES2019). */
  function Sort<T>(s: seq<T>, leq: (T, T) -> bool): (r: seq<T>)
    ensures multiset(r) == multiset(s)
  {
    if s == [] then []
    else
      assert s == [s[0]] + s[1..];
      Insert(s[0], Sort(s[1..], leq), leq)
  }

  lemma {:induction false} InsertSorted<T(!new)>(x: T, s: seq<T>, leq: (T, T) -> bool)
    requires TotalPreorder(leq) && Sorted(s, leq)
    ensures Sorted(Insert(x, s, leq), leq)
  {
    if s == [] || leq(x, s[0]) {
      var r := [x] + s;
      forall i, j | 0 <= i < j < |r| ensures leq(r[i], r[j]) {
        if i == 0 && j > 1 {
          assert leq(s[0], s[j - 1]);
        }
      }
    } else {
      InsertSorted(x, s[1..], leq);
      var tail := Insert(x, s[1..], leq);
      var r := [s[0]] + tail;
      forall k | 0 <= k < |tail| ensures leq(s[0], tail[k]) {
        assert tail[k] in multiset(tail);
        assert tail[k] == x || tail[k] in multiset(s[1..]);
        if tail[k] != x {
          var m :| 0 <= m < |s[1..]| && s[1..][m] == tail[k];
          assert s[m + 1] == tail[k];
        }
      }
      forall i, j | 0 <= i < j < |r| ensures leq(r[i], r[j]) {
        if i == 0 {
          assert r[j] == tail[j - 1];
        } else {
          assert r[i] == tail[i - 1] && r[j] == tail[j - 1];
        }
      }
    }
  }

  lemma {:induction false} SortSorted<T(!new)>(s: seq<T>, leq: (T, T) -> bool)
    requires TotalPreorder(leq)
    ensures Sorted(Sort(s, leq), leq)
  {
    if s != [] {
      SortSorted(s[1..], leq);
      InsertSorted(s[0], Sort(s[1..], leq), leq);
    }
  }
}
