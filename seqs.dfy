/** Order-preserving filtering and counting, the `Array.prototype.filter` the pages use. */
module Seqs {

  function Filter<T(!new)>(s: seq<T>, p: T -> bool): (r: seq<T>)
    ensures |r| <= |s|
    ensures forall x :: x in r <==> x in s && p(x)
    ensures forall i :: 0 <= i < |r| ==> p(r[i])
  {
    if s == [] then []
    else if p(s[0]) then [s[0]] + Filter(s[1..], p)
    else Filter(s[1..], p)
  }

  /** Filtering distributes over concatenation, so the kept elements stay in their original order. */
  lemma {:induction false} FilterAppend<T(!new)>(a: seq<T>, b: seq<T>, p: T -> bool)
    ensures Filter(a + b, p) == Filter(a, p) + Filter(b, p)
  {
    if a != [] {
      var ab := a + b;
      assert ab[0] == a[0] && ab[1..] == a[1..] + b;
      FilterAppend(a[1..], b, p);
      if p(a[0]) {
        calc {
          Filter(ab, p);
          [a[0]] + Filter(a[1..] + b, p);
          [a[0]] + (Filter(a[1..], p) + Filter(b, p));
          ([a[0]] + Filter(a[1..], p)) + Filter(b, p);
        }
      }
    } else {
      assert a + b == b;
    }
  }

  /** An element that passes is kept exactly where it was. */
  lemma {:induction false} FilterKeepsAll<T(!new)>(s: seq<T>, p: T -> bool)
    requires forall i :: 0 <= i < |s| ==> p(s[i])
    ensures Filter(s, p) == s
  {
    if s != [] {
      FilterKeepsAll(s[1..], p);
    }
  }

  /** Putting the same element in front of two lists keeps a relation between their filters. */
  lemma FilterConsStep<T(!new)>(h: T, a: seq<T>, b: seq<T>, c: seq<T>, p: T -> bool)
    requires Filter(a, p) == Filter(b, p) + c
    ensures Filter([h] + a, p) == Filter([h] + b, p) + c
  {
    var fh := Filter([h], p);
    calc {
      Filter([h] + a, p);
      { FilterAppend([h], a, p); }
      fh + (Filter(b, p) + c);
      (fh + Filter(b, p)) + c;
      { FilterAppend([h], b, p); }
      Filter([h] + b, p) + c;
    }
  }

  /** Nothing passes the test, so nothing is kept. */
  lemma {:induction false} FilterNone<T(!new)>(s: seq<T>, p: T -> bool)
    requires forall i :: 0 <= i < |s| ==> !p(s[i])
    ensures Filter(s, p) == []
  {
    if s != [] {
      FilterNone(s[1..], p);
    }
  }

  /** The number of elements that satisfy `p`. */
  function Count<T>(s: seq<T>, p: T -> bool): (n: nat)
    ensures n <= |s|
  {
    if s == [] then 0 else (if p(s[0]) then 1 else 0) + Count(s[1..], p)
  }

  lemma {:induction false} CountIsFilterLength<T(!new)>(s: seq<T>, p: T -> bool)
    ensures Count(s, p) == |Filter(s, p)|
  {
    if s != [] {
      CountIsFilterLength(s[1..], p);
    }
  }

  lemma {:induction false} CountAppend<T>(a: seq<T>, b: seq<T>, p: T -> bool)
    ensures Count(a + b, p) == Count(a, p) + Count(b, p)
  {
    if a != [] {
      assert (a + b)[1..] == a[1..] + b;
      CountAppend(a[1..], b, p);
    } else {
      assert a + b == b;
    }
  }

  /** Two tests that agree on every element count the same elements. */
  lemma {:induction false} CountAgreeing<T>(s: seq<T>, p: T -> bool, q: T -> bool)
    requires forall i :: 0 <= i < |s| ==> p(s[i]) == q(s[i])
    ensures Count(s, p) == Count(s, q)
  {
    if s != [] {
      assert forall i :: 1 <= i < |s| ==> s[1..][i - 1] == s[i];
      CountAgreeing(s[1..], p, q);
    }
  }

  /** Filtering keeps any pairwise relation that held between earlier and later elements. */
  lemma {:induction false} FilterKeepsOrder<T(!new)>(s: seq<T>, p: T -> bool, before: (T, T) -> bool)
    requires forall i, j :: 0 <= i < j < |s| ==> before(s[i], s[j])
    ensures forall i, j :: 0 <= i < j < |Filter(s, p)| ==> before(Filter(s, p)[i], Filter(s, p)[j])
  {
    if s != [] {
      var rest := s[1..];
      FilterKeepsOrder(rest, p, before);
      var tail := Filter(rest, p);
      if p(s[0]) {
        forall y | y in tail ensures before(s[0], y) {
          var k :| 0 <= k < |rest| && rest[k] == y;
          assert s[k + 1] == y;
        }
        var r := [s[0]] + tail;
        assert Filter(s, p) == r;
        forall i, j | 0 <= i < j < |r| ensures before(r[i], r[j]) {
          if i == 0 {
            assert r[j] == tail[j - 1] && r[j] in tail;
          } else {
            assert r[i] == tail[i - 1] && r[j] == tail[j - 1];
          }
        }
      }
    }
  }

  /** The positions of `s` whose element satisfies `p`, in increasing order. */
  function KeptPositions<T>(s: seq<T>, p: T -> bool): (ks: seq<nat>)
    ensures forall k :: 0 <= k < |ks| ==> ks[k] < |s| && p(s[ks[k]])
    ensures forall k, l :: 0 <= k < l < |ks| ==> ks[k] < ks[l]
    ensures forall i :: 0 <= i < |s| && p(s[i]) ==> i in ks
  {
    if s == [] then []
    else
      var n := |s| - 1;
      var front := KeptPositions(s[..n], p);
      assert forall k :: 0 <= k < |front| ==> s[..n][front[k]] == s[front[k]];
      front + (if p(s[n]) then [n] else [])
  }

  /** A one-element list is kept whole or dropped whole. */
  lemma FilterSingleton<T(!new)>(x: T, p: T -> bool)
    ensures Filter([x], p) == if p(x) then [x] else []
  {
    assert [x][1..] == [];
  }

  /** Filtering a non-empty list is filtering all but its last element, then the last one. */
  lemma FilterSnoc<T(!new)>(s: seq<T>, p: T -> bool)
    requires s != []
    ensures var n := |s| - 1;
      Filter(s, p) == Filter(s[..n], p) + (if p(s[n]) then [s[n]] else [])
  {
    var n := |s| - 1;
    var init, last := s[..n], s[n];
    FilterSingleton(last, p);
    calc {
      Filter(s, p);
      { assert s == init + [last]; }
      Filter(init + [last], p);
      { FilterAppend(init, [last], p); }
      Filter(init, p) + Filter([last], p);
    }
  }

  /** A list read off at positions of a prefix is read off at the same positions of the whole. */
  lemma AtPositionsOfPrefix<T>(s: seq<T>, n: nat, r0: seq<T>, ks0: seq<nat>)
    requires n <= |s| && |r0| == |ks0|
    requires forall k :: 0 <= k < |r0| ==> ks0[k] < n && r0[k] == s[..n][ks0[k]]
    ensures forall k :: 0 <= k < |r0| ==> ks0[k] < |s| && r0[k] == s[ks0[k]]
  {
  }

  /** Extending a list read off at positions by the last element, or by nothing, keeps it read off. */
  lemma AtPositionsSnoc<T>(s: seq<T>, r0: seq<T>, ks0: seq<nat>, keep: bool)
    requires s != [] && |r0| == |ks0|
    requires forall k :: 0 <= k < |r0| ==> ks0[k] < |s| && r0[k] == s[ks0[k]]
    ensures var n := |s| - 1;
      var r, ks := r0 + (if keep then [s[n]] else []), ks0 + (if keep then [n] else []);
      |r| == |ks| && forall k :: 0 <= k < |r| ==> ks[k] < |s| && r[k] == s[ks[k]]
  {
  }

  /**
   * Filtering keeps exactly the elements at the kept positions, in the order of those
   * positions: the result is `s` with every other element removed.
   */
  lemma {:induction false} FilterAtKeptPositions<T(!new)>(s: seq<T>, p: T -> bool)
    ensures var r, ks := Filter(s, p), KeptPositions(s, p);
      |r| == |ks| && forall k :: 0 <= k < |r| ==> r[k] == s[ks[k]]
  {
    if s != [] {
      var n := |s| - 1;
      FilterAtKeptPositions(s[..n], p);
      AtPositionsOfPrefix(s, n, Filter(s[..n], p), KeptPositions(s[..n], p));
      AtPositionsSnoc(s, Filter(s[..n], p), KeptPositions(s[..n], p), p(s[n]));
      FilterSnoc(s, p);
    }
  }
}
