/**
 * The stable argsort that `merge` computes: it pairs each x-value of `t` with
 * its index, sorts the pairs by the x-value alone, and keeps the indices.
 *
 * `Array.prototype.sort` is stable (ECMAScript 2019, section 22.1.3.27), so
 * the comparator on the x-value alone orders equal x-values by their index in
 * `t`. The result is therefore the unique permutation of the indices of `t`
 * that is sorted by the pair (value, index). `Argsort` computes it with an
 * insertion sort on indices; `ArgsortUnique` shows that every stable sort
 * yields the same permutation, so the choice of algorithm does not matter.
 */
module StableArgsort {

  /** Every entry of `p` is an index below `n`. */
  predicate Indexes(p: seq<nat>, n: nat) {
    forall i :: 0 <= i < |p| ==> p[i] < n
  }

  /** `p` is a permutation of 0 .. n-1. */
  predicate IsPermutation(p: seq<nat>, n: nat) {
    && |p| == n
    && Indexes(p, n)
    && (forall k :: 0 <= k < n ==> k in p)
    && (forall i, j :: 0 <= i < j < |p| ==> p[i] != p[j])
  }

  /** In a stable ascending sort of `t`, index `i` goes strictly before index `j`. */
  predicate Before(t: seq<int>, i: nat, j: nat)
    requires i < |t| && j < |t|
  {
    t[i] < t[j] || (t[i] == t[j] && i < j)
  }

  /** `p` lists indices of `t` in stable ascending order. */
  predicate StablySorted(t: seq<int>, p: seq<nat>)
    requires Indexes(p, |t|)
  {
    forall i, j :: 0 <= i < j < |p| ==> Before(t, p[i], p[j])
  }

  /** The sequence whose element `i` is `s[p[i]]`: `sorted(s, p)` as a value. */
  function Apply<T>(s: seq<T>, p: seq<nat>): (r: seq<T>)
    requires Indexes(p, |s|)
    ensures |r| == |p| && forall i :: 0 <= i < |p| ==> r[i] == s[p[i]]
  {
    seq(|p|, i requires 0 <= i < |p| => s[p[i]])
  }

  /** The identity permutation 0 .. n-1. */
  function Range(n: nat): (r: seq<nat>)
    ensures |r| == n && forall i :: 0 <= i < n ==> r[i] == i
  {
    if n == 0 then [] else Range(n - 1) + [n - 1]
  }

  /** Inserts index `k` into `s` in front of the first index it goes before. */
  function Insert(t: seq<int>, k: nat, s: seq<nat>): (r: seq<nat>)
    requires k < |t| && Indexes(s, |t|)
    ensures Indexes(r, |t|)
    ensures multiset(r) == multiset(s) + multiset{k}
    ensures forall x :: x in r ==> x == k || x in s
  {
    if s == [] then [k]
    else if Before(t, k, s[0]) then [k] + s
    else
      assert s == [s[0]] + s[1..];
      [s[0]] + Insert(t, k, s[1..])
  }

  /** Insertion sort of the indices `idx` of `t`. */
  function SortIndexes(t: seq<int>, idx: seq<nat>): (r: seq<nat>)
    requires Indexes(idx, |t|)
    ensures Indexes(r, |t|)
    ensures multiset(r) == multiset(idx)
  {
    if idx == [] then []
    else
      assert idx == [idx[0]] + idx[1..];
      Insert(t, idx[0], SortIndexes(t, idx[1..]))
  }

  /** The permutation that sorts `t` stably in ascending order. */
  function Argsort(t: seq<int>): (r: seq<nat>)
    ensures |r| == |t| && Indexes(r, |t|)
  {
    var r := SortIndexes(t, Range(|t|));
    assert |r| == |multiset(r)| == |multiset(Range(|t|))| == |t|;
    r
  }

  lemma BeforeTransitive(t: seq<int>, i: nat, j: nat, k: nat)
    requires i < |t| && j < |t| && k < |t|
    requires Before(t, i, j) && Before(t, j, k)
    ensures Before(t, i, k)
  {
  }

  /** A list headed by `a` is stably sorted when its tail is and `a` goes before all of it. */
  lemma SortedCons(t: seq<int>, a: nat, s: seq<nat>)
    requires a < |t| && Indexes(s, |t|) && StablySorted(t, s)
    requires forall j :: 0 <= j < |s| ==> Before(t, a, s[j])
    ensures StablySorted(t, [a] + s)
  {
    var r := [a] + s;
    forall i, j | 0 <= i < j < |r| ensures Before(t, r[i], r[j]) {
      if i > 0 {
        assert r[i] == s[i - 1] && r[j] == s[j - 1];
      }
    }
  }

  /** Inserting an index that is not yet present keeps the order stable. */
  lemma {:induction false} InsertSorted(t: seq<int>, k: nat, s: seq<nat>)
    requires k < |t| && Indexes(s, |t|) && StablySorted(t, s) && k !in s
    ensures StablySorted(t, Insert(t, k, s))
  {
    if s == [] {
    } else if Before(t, k, s[0]) {
      forall j | 0 <= j < |s| ensures Before(t, k, s[j]) {
        if j > 0 {
          BeforeTransitive(t, k, s[0], s[j]);
        }
      }
      SortedCons(t, k, s);
    } else {
      var tail := Insert(t, k, s[1..]);
      InsertSorted(t, k, s[1..]);
      assert Before(t, s[0], k);
      forall j | 0 <= j < |tail| ensures Before(t, s[0], tail[j]) {
        assert tail[j] in tail;
        if tail[j] != k {
          assert tail[j] in s[1..];
        }
      }
      SortedCons(t, s[0], tail);
    }
  }

  /** Insertion sort of distinct indices produces a stably sorted list. */
  lemma {:induction false} SortIndexesSorted(t: seq<int>, idx: seq<nat>)
    requires Indexes(idx, |t|)
    requires forall i, j :: 0 <= i < j < |idx| ==> idx[i] != idx[j]
    ensures StablySorted(t, SortIndexes(t, idx))
  {
    if idx != [] {
      var rest := SortIndexes(t, idx[1..]);
      SortIndexesSorted(t, idx[1..]);
      forall m | 0 <= m < |idx[1..]| ensures idx[1..][m] != idx[0] {
        assert idx[1..][m] == idx[m + 1];
      }
      assert idx[0] !in multiset(idx[1..]);
      assert idx[0] !in multiset(rest);
      InsertSorted(t, idx[0], rest);
    }
  }

  /** A stably sorted list never repeats an index. */
  lemma SortedDistinct(t: seq<int>, p: seq<nat>)
    requires Indexes(p, |t|) && StablySorted(t, p)
    ensures forall i, j :: 0 <= i < j < |p| ==> p[i] != p[j]
  {
    forall i, j | 0 <= i < j < |p| ensures p[i] != p[j] {
      assert Before(t, p[i], p[j]);
    }
  }

  /**
   * The argsort is a permutation of the indices of `t`; gathering `t` through
   * it gives a non-decreasing list; and equal values keep their index order.
   */
  lemma ArgsortCorrect(t: seq<int>)
    ensures IsPermutation(Argsort(t), |t|)
    ensures StablySorted(t, Argsort(t))
    ensures forall i, j :: 0 <= i < j < |t| ==> t[Argsort(t)[i]] <= t[Argsort(t)[j]]
    ensures forall i, j :: 0 <= i < j < |t| && t[Argsort(t)[i]] == t[Argsort(t)[j]] ==>
                             Argsort(t)[i] < Argsort(t)[j]
  {
    var r := Argsort(t);
    var ids := Range(|t|);
    SortIndexesSorted(t, ids);
    SortedDistinct(t, r);
    forall k | 0 <= k < |t| ensures k in r {
      assert ids[k] == k;
      assert k in multiset(ids);
    }
    forall i, j | 0 <= i < j < |t| ensures t[r[i]] <= t[r[j]] {
      assert Before(t, r[i], r[j]);
    }
  }

  /**
   * With the same members, the same head and no repetitions, the tails of two
   * lists have the same members.
   */
  lemma TailMember(p: seq<nat>, q: seq<nat>, x: nat)
    requires p != [] && q != [] && p[0] == q[0] && x in p[1..]
    requires forall y :: y in p <==> y in q
    requires forall i, j :: 0 <= i < j < |p| ==> p[i] != p[j]
    ensures x in q[1..]
  {
    var a :| 0 <= a < |p[1..]| && p[1..][a] == x;
    assert p[a + 1] == x && x != p[0];
    assert x in p;
    var b :| 0 <= b < |q| && q[b] == x;
    assert q[1..][b - 1] == x;
  }

  /** Two stably sorted lists with the same indices are the same list. */
  lemma {:induction false} SortedSameIndexesEqual(t: seq<int>, p: seq<nat>, q: seq<nat>)
    requires Indexes(p, |t|) && Indexes(q, |t|)
    requires StablySorted(t, p) && StablySorted(t, q)
    requires forall x :: x in p <==> x in q
    ensures p == q
  {
    assert p != [] ==> p[0] in q;
    assert q != [] ==> q[0] in p;
    if p == [] || q == [] {
    } else {
      assert p[0] in q;
      var m :| 0 <= m < |q| && q[m] == p[0];
      assert q[0] in p;
      var l :| 0 <= l < |p| && p[l] == q[0];
      assert m == 0;
      SortedDistinct(t, p);
      SortedDistinct(t, q);
      forall x ensures x in p[1..] <==> x in q[1..] {
        if x in p[1..] {
          TailMember(p, q, x);
        }
        if x in q[1..] {
          TailMember(q, p, x);
        }
      }
      SortedSameIndexesEqual(t, p[1..], q[1..]);
      assert p == [p[0]] + p[1..] && q == [q[0]] + q[1..];
    }
  }

  /**
   * Any permutation that sorts `t` stably is `Argsort(t)`: every stable sort
   * of the index-value pairs yields the same argsort.
   */
  lemma ArgsortUnique(t: seq<int>, p: seq<nat>)
    requires IsPermutation(p, |t|) && StablySorted(t, p)
    ensures p == Argsort(t)
  {
    ArgsortCorrect(t);
    SortedSameIndexesEqual(t, p, Argsort(t));
  }

  lemma ApplyCons<T>(s: seq<T>, a: nat, p: seq<nat>)
    requires a < |s| && Indexes(p, |s|)
    ensures Apply(s, [a] + p) == [s[a]] + Apply(s, p)
  {
  }

  /** Gathering through an insertion adds the inserted index's value. */
  lemma {:induction false} ApplyInsert(t: seq<int>, k: nat, s: seq<nat>)
    requires k < |t| && Indexes(s, |t|)
    ensures multiset(Apply(t, Insert(t, k, s))) == multiset(Apply(t, s)) + multiset{t[k]}
  {
    if s == [] {
      assert Apply(t, [k]) == [t[k]];
    } else if Before(t, k, s[0]) {
      assert Insert(t, k, s) == [k] + s;
      ApplyCons(t, k, s);
    } else {
      ApplyInsert(t, k, s[1..]);
      ApplyInsertBehind(t, k, s);
    }
  }

  /** The step of `ApplyInsert` where `k` goes behind the head of `s`. */
  lemma ApplyInsertBehind(t: seq<int>, k: nat, s: seq<nat>)
    requires k < |t| && Indexes(s, |t|) && s != [] && !Before(t, k, s[0])
    requires multiset(Apply(t, Insert(t, k, s[1..]))) == multiset(Apply(t, s[1..])) + multiset{t[k]}
    ensures multiset(Apply(t, Insert(t, k, s))) == multiset(Apply(t, s)) + multiset{t[k]}
  {
    var tail := Insert(t, k, s[1..]);
    assert Insert(t, k, s) == [s[0]] + tail;
    ApplyCons(t, s[0], tail);
    ApplyCons(t, s[0], s[1..]);
    assert [s[0]] + s[1..] == s;
  }

  lemma {:induction false} ApplySortIndexes(t: seq<int>, idx: seq<nat>)
    requires Indexes(idx, |t|)
    ensures multiset(Apply(t, SortIndexes(t, idx))) == multiset(Apply(t, idx))
  {
    if idx != [] {
      var rest := SortIndexes(t, idx[1..]);
      assert SortIndexes(t, idx) == Insert(t, idx[0], rest);
      ApplySortIndexes(t, idx[1..]);
      ApplyInsert(t, idx[0], rest);
      ApplyCons(t, idx[0], idx[1..]);
      assert [idx[0]] + idx[1..] == idx;
      assert multiset(Apply(t, idx)) == multiset{t[idx[0]]} + multiset(Apply(t, idx[1..]));
    }
  }

  /** `sorted(t, argsort)` holds exactly the values of `t`, in ascending order. */
  lemma SortedValues(t: seq<int>)
    ensures multiset(Apply(t, Argsort(t))) == multiset(t)
    ensures forall i, j :: 0 <= i < j < |t| ==> Apply(t, Argsort(t))[i] <= Apply(t, Argsort(t))[j]
  {
    ApplySortIndexes(t, Range(|t|));
    assert Apply(t, Range(|t|)) == t;
    ArgsortCorrect(t);
  }
}
