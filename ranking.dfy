/** The ordering step of the recommendation function:
    `recommendations.sort((a, b) => b.similarity - a.similarity).slice(0, 5)`.
    Scores stay abstract (ordered reals, never NaN); the sort is described by
    the candidate positions it puts in order. `Array.prototype.sort` is
    stable (section 22.1.3.27 of ECMA-262, 2019 edition), so candidates with
    equal scores keep their relative order. */
module Ranking {

  predicate InRange(order: seq<nat>, n: nat) {
    forall i :: 0 <= i < |order| ==> order[i] < n
  }

  predicate Distinct(order: seq<nat>) {
    forall i, j :: 0 <= i < j < |order| ==> order[i] != order[j]
  }

  /** Descending by score. */
  predicate NonIncreasing(scores: seq<real>, order: seq<nat>)
    requires InRange(order, |scores|)
  {
    forall i, j :: 0 <= i < j < |order| ==> scores[order[i]] >= scores[order[j]]
  }

  /** Equal scores appear in candidate order. */
  predicate TiesInInputOrder(scores: seq<real>, order: seq<nat>)
    requires InRange(order, |scores|)
  {
    forall i, j :: 0 <= i < j < |order| && scores[order[i]] == scores[order[j]] ==> order[i] < order[j]
  }

  /** What a stable sort with the comparator `b - a` produces: every
      candidate position exactly once, descending by score, ties in
      candidate order. */
  predicate IsStableDescendingSort(scores: seq<real>, order: seq<nat>) {
    && |order| == |scores|
    && InRange(order, |scores|)
    && Distinct(order)
    && (forall k :: 0 <= k < |scores| ==> k in order)
    && NonIncreasing(scores, order)
    && TiesInInputOrder(scores, order)
  }

  /** Places candidate `k` after every entry that scores at least as much. */
  function Insert(scores: seq<real>, k: nat, order: seq<nat>): (r: seq<nat>)
    requires k < |scores| && InRange(order, |scores|)
    ensures |r| == |order| + 1 && InRange(r, |scores|)
    ensures forall x :: x in r <==> x == k || x in order
  {
    if order == [] then [k]
    else if scores[order[0]] >= scores[k] then [order[0]] + Insert(scores, k, order[1..])
    else [k] + order
  }

  /** The first `n` candidates in ranked order (insertion sort). */
  function SortPrefix(scores: seq<real>, n: nat): (r: seq<nat>)
    requires n <= |scores|
    ensures |r| == n && InRange(r, n)
    ensures forall x: nat :: x in r <==> x < n
  {
    if n == 0 then []
    else
      var r := Insert(scores, n - 1, SortPrefix(scores, n - 1));
      assert forall i :: 0 <= i < |r| ==> r[i] in r;
      r
  }

  function RankOrder(scores: seq<real>): seq<nat> {
    SortPrefix(scores, |scores|)
  }

  function Min(a: nat, b: nat): nat {
    if a <= b then a else b
  }

  /** The positions of the `k` best candidates, best first. */
  function TopK(scores: seq<real>, k: nat): seq<nat> {
    RankOrder(scores)[..Min(k, |scores|)]
  }

  /** Putting in front an element that differs from, scores at least as
      much as, and on a tie comes before every later entry keeps the order. */
  lemma ConsKeepsOrder(scores: seq<real>, x: nat, r: seq<nat>)
    requires x < |scores| && InRange(r, |scores|)
    requires Distinct(r) && NonIncreasing(scores, r) && TiesInInputOrder(scores, r)
    requires forall j :: 0 <= j < |r| ==>
      x != r[j] && scores[x] >= scores[r[j]] && (scores[x] == scores[r[j]] ==> x < r[j])
    ensures var r' := [x] + r;
      InRange(r', |scores|) && Distinct(r') && NonIncreasing(scores, r') && TiesInInputOrder(scores, r')
  {
    var r' := [x] + r;
    assert forall j :: 0 < j < |r'| ==> r'[j] == r[j - 1];
  }

  /** An ordered list without its head is still ordered, and its head
      comes before every later entry. */
  lemma TailKeepsOrder(scores: seq<real>, order: seq<nat>)
    requires order != [] && InRange(order, |scores|)
    requires Distinct(order) && NonIncreasing(scores, order) && TiesInInputOrder(scores, order)
    ensures var rest := order[1..];
      && InRange(rest, |scores|) && Distinct(rest)
      && NonIncreasing(scores, rest) && TiesInInputOrder(scores, rest)
      && (forall j :: 0 <= j < |rest| ==>
            && order[0] != rest[j] && scores[order[0]] >= scores[rest[j]]
            && (scores[order[0]] == scores[rest[j]] ==> order[0] < rest[j]))
  {
    assert forall j :: 0 <= j < |order[1..]| ==> order[1..][j] == order[j + 1];
  }

  lemma {:induction false} InsertKeepsOrder(scores: seq<real>, k: nat, order: seq<nat>)
    requires k < |scores| && InRange(order, |scores|)
    requires Distinct(order) && NonIncreasing(scores, order) && TiesInInputOrder(scores, order)
    requires forall x :: x in order ==> x < k
    ensures var r := Insert(scores, k, order);
      Distinct(r) && NonIncreasing(scores, r) && TiesInInputOrder(scores, r)
  {
    if order == [] {
    } else if scores[order[0]] >= scores[k] {
      var o0, rest := order[0], order[1..];
      TailKeepsOrder(scores, order);
      assert o0 in order;
      assert forall x :: x in rest ==> x in order;
      InsertKeepsOrder(scores, k, rest);
      var r' := Insert(scores, k, rest);
      forall j | 0 <= j < |r'|
        ensures o0 != r'[j] && scores[o0] >= scores[r'[j]] && (scores[o0] == scores[r'[j]] ==> o0 < r'[j])
      {
        assert r'[j] in r';
        if r'[j] != k {
          var m :| 0 <= m < |rest| && rest[m] == r'[j];
        }
      }
      ConsKeepsOrder(scores, o0, r');
    } else {
      ConsKeepsOrder(scores, k, order);
    }
  }

  lemma {:induction false} SortPrefixOrder(scores: seq<real>, n: nat)
    requires n <= |scores|
    ensures var r := SortPrefix(scores, n);
      Distinct(r) && NonIncreasing(scores, r) && TiesInInputOrder(scores, r)
  {
    if n > 0 {
      var prev := SortPrefix(scores, n - 1);
      SortPrefixOrder(scores, n - 1);
      assert forall x :: x in prev ==> x < n - 1;
      InsertKeepsOrder(scores, n - 1, prev);
      assert SortPrefix(scores, n) == Insert(scores, n - 1, prev);
    }
  }

  /** The insertion sort is a stable descending sort. */
  lemma RankOrderIsStableSort(scores: seq<real>)
    ensures IsStableDescendingSort(scores, RankOrder(scores))
  {
    SortPrefixOrder(scores, |scores|);
  }

  /** The order in which `x` comes before `y` in a stable descending sort. */
  predicate Precedes(scores: seq<real>, x: nat, y: nat)
    requires x < |scores| && y < |scores|
  {
    scores[x] > scores[y] || (scores[x] == scores[y] && x < y)
  }

  /** A stable descending sort is unique: any sort algorithm that is stable,
      whatever the engine uses, yields exactly `RankOrder`. */
  lemma StableSortIsUnique(scores: seq<real>, order: seq<nat>)
    requires IsStableDescendingSort(scores, order)
    ensures order == RankOrder(scores)
  {
    var other := RankOrder(scores);
    RankOrderIsStableSort(scores);
    SortedByPrecedes(scores, order);
    SortedByPrecedes(scores, other);
    assert forall x :: x in order <==> x in other;
    SameChainsAreEqual(scores, order, other);
  }

  lemma SortedByPrecedes(scores: seq<real>, order: seq<nat>)
    requires IsStableDescendingSort(scores, order)
    ensures forall i, j :: 0 <= i < j < |order| ==> Precedes(scores, order[i], order[j])
  {
    forall i, j | 0 <= i < j < |order| ensures Precedes(scores, order[i], order[j]) {
      assert order[i] != order[j];
    }
  }

  lemma ChainHeadComesFirst(scores: seq<real>, a: seq<nat>, x: nat)
    requires InRange(a, |scores|)
    requires forall i, j :: 0 <= i < j < |a| ==> Precedes(scores, a[i], a[j])
    requires x in a
    ensures x == a[0] || Precedes(scores, a[0], x)
  {
    var i :| 0 <= i < |a| && a[i] == x;
    assert i == 0 || Precedes(scores, a[0], a[i]);
  }

  /** Two sequences strictly ordered by `Precedes` with the same elements
      are equal. */
  lemma {:induction false} SameChainsAreEqual(scores: seq<real>, a: seq<nat>, b: seq<nat>)
    requires InRange(a, |scores|) && InRange(b, |scores|)
    requires forall i, j :: 0 <= i < j < |a| ==> Precedes(scores, a[i], a[j])
    requires forall i, j :: 0 <= i < j < |b| ==> Precedes(scores, b[i], b[j])
    requires forall x :: x in a <==> x in b
    ensures a == b
    decreases |a|
  {
    assert b != [] ==> b[0] in b;
    if a != [] {
      assert a[0] in a;
      ChainHeadComesFirst(scores, a, b[0]);
      ChainHeadComesFirst(scores, b, a[0]);
      var a', b' := a[1..], b[1..];
      forall x ensures x in a' <==> x in b' {
        if x in a' {
          var m :| 0 <= m < |a'| && a'[m] == x;
          assert Precedes(scores, a[0], a[m + 1]);
          assert x in b;
        }
        if x in b' {
          var m :| 0 <= m < |b'| && b'[m] == x;
          assert Precedes(scores, b[0], b[m + 1]);
          assert x in a;
        }
      }
      forall i, j | 0 <= i < j < |a'| ensures Precedes(scores, a'[i], a'[j]) {
        assert Precedes(scores, a[i + 1], a[j + 1]);
      }
      forall i, j | 0 <= i < j < |b'| ensures Precedes(scores, b'[i], b'[j]) {
        assert Precedes(scores, b[i + 1], b[j + 1]);
      }
      SameChainsAreEqual(scores, a', b');
      assert a == [a[0]] + a' && b == [b[0]] + b';
    }
  }

  /** The top-k selection: min(k, n) distinct candidates, best first, ties in
      candidate order, and none of them scoring below a candidate that was
      left out. */
  lemma TopKSelects(scores: seq<real>, k: nat)
    ensures var top := TopK(scores, k);
      && |top| == Min(k, |scores|)
      && InRange(top, |scores|) && Distinct(top)
      && NonIncreasing(scores, top) && TiesInInputOrder(scores, top)
      && (forall i, u :: 0 <= i < |top| && 0 <= u < |scores| && u !in top ==> scores[top[i]] >= scores[u])
  {
    var order := RankOrder(scores);
    RankOrderIsStableSort(scores);
    var top := TopK(scores, k);
    forall i, u | 0 <= i < |top| && 0 <= u < |scores| && u !in top ensures scores[top[i]] >= scores[u] {
      LeftOutScoresLower(scores, order, |top|, i, u);
    }
  }

  /** In a sorted order, an entry of the first `t` scores at least as much
      as any candidate not among them. */
  lemma LeftOutScoresLower(scores: seq<real>, order: seq<nat>, t: nat, i: nat, u: nat)
    requires IsStableDescendingSort(scores, order)
    requires i < t <= |order| && u < |scores| && u !in order[..t]
    ensures scores[order[i]] >= scores[u]
  {
    assert u in order;
    var m :| 0 <= m < |order| && order[m] == u;
    assert forall j :: 0 <= j < t ==> order[..t][j] == order[j];
  }
}
