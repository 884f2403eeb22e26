/**
 * The multi-series aligner that `uplot_multixy` embeds in its page as
 * JavaScript: `sorted`, `merge` and `build_data`.
 *
 * The input `[x1, y1, x2, y2, ...]` is a list of groups; the output is uPlot's
 * data array `[x, y1, y2, ...]`, here an `Aligned` value with the x column
 * apart from the y columns. x-values are integers (only their order
 * matters); a y-cell is a value or the hole JavaScript leaves when an array
 * is lengthened, which uPlot reads as "no point here".
 */
module Aligner {
  import opened StableArgsort

  /**
   * One y-cell: an input number, or `Missing` for a hole that `merge`
   * creates when it lengthens a column.
   */
  datatype Cell = Missing | Val(v: int)

  /** One (x, y) pair of lists of the input `[x1, y1, x2, y2, ...]`. */
  datatype Group = Group(x: seq<int>, y: seq<Cell>)

  /** uPlot's data array: the shared x column and one y column per series. */
  datatype Aligned = Aligned(x: seq<int>, cols: seq<seq<Cell>>)

  /** Every group's x-list and y-list have the same length. */
  predicate WellFormed(d: seq<Group>) {
    forall g :: 0 <= g < |d| ==> |d[g].y| == |d[g].x|
  }

  /** Every y column is as long as the x column. */
  predicate Rectangular(a: Aligned) {
    forall k :: 0 <= k < |a.cols| ==> |a.cols[k]| == |a.x|
  }

  /** `n` holes: what `new Array(n)` and `y1.length += n` produce. */
  function Missings(n: nat): (r: seq<Cell>)
    ensures |r| == n && forall i :: 0 <= i < n ==> r[i] == Missing
  {
    seq(n, _ => Missing)
  }

  // ---------------------------------------------------------------------
  // The JavaScript functions
  // ---------------------------------------------------------------------

  /** `sorted(input, argsort)`: fills a fresh array with `input[argsort[i]]`. */
  method SortedBy<T(0)>(input: seq<T>, argsort: seq<nat>) returns (out: seq<T>)
    requires Indexes(argsort, |input|)
    ensures |out| == |argsort|
    ensures forall i :: 0 <= i < |argsort| ==> out[i] == input[argsort[i]]
  {
    var sorted := new T[|argsort|];
    for i := 0 to |argsort|
      invariant forall j :: 0 <= j < i ==> sorted[j] == input[argsort[j]]
    {
      sorted[i] := input[argsort[i]];
    }
    out := sorted[..];
  }

  /**
   * What `merge(a, b)` returns: the concatenated x-lists sorted stably; each
   * existing y column padded at the end and the new y-list padded at the
   * front with holes, all reordered by the same argsort.
   */
  function Merged(a: Aligned, b: Group): (r: Aligned)
    requires Rectangular(a) && |b.y| == |b.x|
    ensures |r.cols| == |a.cols| + 1
    ensures |r.x| == |a.x| + |b.x| && Rectangular(r)
  {
    var t := a.x + b.x;
    var argsort := Argsort(t);
    Aligned(Apply(t, argsort),
            seq(|a.cols|, k requires 0 <= k < |a.cols| => Apply(a.cols[k] + Missings(|b.x|), argsort))
            + [Apply(Missings(|a.x|) + b.y, argsort)])
  }

  /** `merge(a, b)`: pushes one reordered column per existing series, then the new one. */
  method Merge(a: Aligned, b: Group) returns (data: Aligned)
    requires Rectangular(a) && |b.y| == |b.x|
    ensures data == Merged(a, b)
  {
    var t := a.x + b.x;
    var argsort := Argsort(t);
    t := SortedBy(t, argsort);
    var cols: seq<seq<Cell>> := [];
    for i := 0 to |a.cols|
      invariant |cols| == i
      invariant forall k :: 0 <= k < i ==> cols[k] == Apply(a.cols[k] + Missings(|b.x|), argsort)
    {
      var y1 := a.cols[i];
      y1 := y1 + Missings(|b.x|);
      var s := SortedBy(y1, argsort);
      cols := cols + [s];
    }
    var y2 := Missings(|a.x|) + b.y;
    var s := SortedBy(y2, argsort);
    data := Aligned(t, cols + [s]);
    ghost var want := Merged(a, b);
    assert t == want.x;
    assert s == want.cols[|a.cols|];
    assert forall k :: 0 <= k < |a.cols| ==> data.cols[k] == want.cols[k];
  }

  /** `build_data(d)`: starts from the first group and merges in the others one by one. */
  method BuildData(d: seq<Group>) returns (data: Aligned)
    requires |d| >= 1 && WellFormed(d)
    ensures |d| == 1 ==> data == Aligned(d[0].x, [d[0].y])
    ensures |d| >= 2 ==> data == AlignAll(d)
  {
    data := Aligned(d[0].x, [d[0].y]);
    if |d| > 1 {
      var i := 1;
      while i < |d|
        invariant 1 <= i <= |d|
        invariant data == Partial(d, i)
      {
        PartialStep(d, i);
        data := Merge(data, d[i]);
        i := i + 1;
      }
      assert i == |d| && d[..i] == d;
    }
  }

  // ---------------------------------------------------------------------
  // Properties of one merge
  // ---------------------------------------------------------------------

  /**
   * Row `i` of a merge comes from position `argsort[i]` of the concatenated
   * x-lists: an old column holds its own cell there if that position is
   * old, a hole otherwise; the new column the other way round.
   */
  lemma MergedRow(a: Aligned, b: Group, i: nat)
    requires Rectangular(a) && |b.y| == |b.x| && i < |a.x| + |b.x|
    ensures var p, r := Argsort(a.x + b.x), Merged(a, b);
      && r.x[i] == (if p[i] < |a.x| then a.x[p[i]] else b.x[p[i] - |a.x|])
      && (forall k :: 0 <= k < |a.cols| ==>
            r.cols[k][i] == if p[i] < |a.x| then a.cols[k][p[i]] else Missing)
      && r.cols[|a.cols|][i] == if p[i] < |a.x| then Missing else b.y[p[i] - |a.x|]
  {
  }

  /** The merged x column is the concatenated x-lists, sorted ascending. */
  lemma MergedSorted(a: Aligned, b: Group)
    requires Rectangular(a) && |b.y| == |b.x|
    ensures multiset(Merged(a, b).x) == multiset(a.x + b.x)
    ensures forall i, j :: 0 <= i < j < |a.x| + |b.x| ==> Merged(a, b).x[i] <= Merged(a, b).x[j]
  {
    SortedValues(a.x + b.x);
  }

  /** Row `i` of `r` carries old row `j` of `a`, with a hole in the new column. */
  predicate OldRowAt(a: Aligned, r: Aligned, i: nat, j: nat)
    requires Rectangular(a) && Rectangular(r) && |r.cols| == |a.cols| + 1
    requires i < |r.x| && j < |a.x|
  {
    && r.x[i] == a.x[j]
    && (forall k :: 0 <= k < |a.cols| ==> r.cols[k][i] == a.cols[k][j])
    && r.cols[|a.cols|][i] == Missing
  }

  /** Row `i` of `r` carries point `j` of `b`, with a hole in every old column. */
  predicate NewRowAt(a: Aligned, b: Group, r: Aligned, i: nat, j: nat)
    requires Rectangular(r) && |r.cols| == |a.cols| + 1 && |b.y| == |b.x|
    requires i < |r.x| && j < |b.x|
  {
    && r.x[i] == b.x[j]
    && (forall k :: 0 <= k < |a.cols| ==> r.cols[k][i] == Missing)
    && r.cols[|a.cols|][i] == b.y[j]
  }

  /** Every old row reappears, with all its cells, in some row of the merge. */
  lemma MergedKeepsOldRow(a: Aligned, b: Group, j: nat)
    requires Rectangular(a) && |b.y| == |b.x| && j < |a.x|
    ensures exists i :: 0 <= i < |a.x| + |b.x| && OldRowAt(a, Merged(a, b), i, j)
  {
    var p := Argsort(a.x + b.x);
    ArgsortCorrect(a.x + b.x);
    assert j in p;
    var i :| 0 <= i < |p| && p[i] == j;
    MergedRow(a, b, i);
    assert OldRowAt(a, Merged(a, b), i, j);
  }

  /** Every point of the new group reappears, with its y-cell, in some row of the merge. */
  lemma MergedKeepsNewPoint(a: Aligned, b: Group, j: nat)
    requires Rectangular(a) && |b.y| == |b.x| && j < |b.x|
    ensures exists i :: 0 <= i < |a.x| + |b.x| && NewRowAt(a, b, Merged(a, b), i, j)
  {
    var p := Argsort(a.x + b.x);
    ArgsortCorrect(a.x + b.x);
    assert |a.x| + j in p;
    var i :| 0 <= i < |p| && p[i] == |a.x| + j;
    MergedRow(a, b, i);
    assert NewRowAt(a, b, Merged(a, b), i, j);
  }

  // ---------------------------------------------------------------------
  // A reference definition of the whole alignment
  // ---------------------------------------------------------------------

  /** All x-lists concatenated in input order. */
  function AllX(d: seq<Group>): seq<int> {
    if d == [] then [] else AllX(d[..|d| - 1]) + d[|d| - 1].x
  }

  /** Where group `g`'s x-list starts in `AllX(d)`. */
  function Offset(d: seq<Group>, g: nat): nat
    requires g <= |d|
  {
    |AllX(d[..g])|
  }

  /** The cell series `g` has for position `k` of `AllX(d)`: its own y-value, or a hole. */
  function CellOf(d: seq<Group>, g: nat, k: nat): Cell
    requires WellFormed(d) && g < |d|
  {
    var o := Offset(d, g);
    if o <= k < o + |d[g].x| then d[g].y[k - o] else Missing
  }

  /** The data array whose row `i` is position `p[i]` of the concatenated input. */
  function Layout(d: seq<Group>, p: seq<nat>): (r: Aligned)
    requires WellFormed(d) && Indexes(p, |AllX(d)|)
    ensures |r.x| == |p| && |r.cols| == |d| && Rectangular(r)
  {
    Aligned(Apply(AllX(d), p),
            seq(|d|, g requires 0 <= g < |d| =>
              seq(|p|, i requires 0 <= i < |p| => CellOf(d, g, p[i]))))
  }

  /**
   * The alignment in one step: every point of every group, stably sorted by
   * x across the whole concatenated input.
   */
  function AlignAll(d: seq<Group>): (r: Aligned)
    requires WellFormed(d)
    ensures |r.cols| == |d| && |r.x| == |AllX(d)| && Rectangular(r)
  {
    Layout(d, Argsort(AllX(d)))
  }

  lemma AllXSnoc(e: seq<Group>, b: Group)
    ensures AllX(e + [b]) == AllX(e) + b.x
  {
    assert (e + [b])[..|e|] == e;
  }

  lemma OffsetSnoc(e: seq<Group>, b: Group, g: nat)
    requires g <= |e|
    ensures Offset(e + [b], g) == Offset(e, g)
  {
    assert (e + [b])[..g] == e[..g];
  }

  lemma OffsetNext(d: seq<Group>, g: nat)
    requires g < |d|
    ensures Offset(d, g + 1) == Offset(d, g) + |d[g].x|
  {
    assert d[..g + 1] == d[..g] + [d[g]];
    AllXSnoc(d[..g], d[g]);
  }

  lemma {:induction false} OffsetMonotone(d: seq<Group>, g: nat, h: nat)
    requires g <= h <= |d|
    ensures Offset(d, g) <= Offset(d, h)
    decreases h - g
  {
    if g < h {
      OffsetNext(d, g);
      OffsetMonotone(d, g + 1, h);
    }
  }

  lemma OffsetEnd(d: seq<Group>)
    ensures Offset(d, |d|) == |AllX(d)|
  {
    assert d[..|d|] == d;
  }

  /** Position `Offset(d, g) + j` of the concatenation holds point `j` of group `g`. */
  lemma {:induction false} AllXAt(d: seq<Group>, g: nat, j: nat)
    requires g < |d| && j < |d[g].x|
    ensures Offset(d, g) + j < |AllX(d)|
    ensures AllX(d)[Offset(d, g) + j] == d[g].x[j]
  {
    var e := d[..|d| - 1];
    assert d == e + [d[|d| - 1]];
    AllXSnoc(e, d[|d| - 1]);
    if g == |d| - 1 {
      assert d[..g] == e;
    } else {
      OffsetSnoc(e, d[|d| - 1], g);
      AllXAt(e, g, j);
    }
  }

  /** Each position of the concatenation lies in the x-list of some group. */
  lemma {:induction false} GroupOf(d: seq<Group>, k: nat)
    requires k < |AllX(d)|
    ensures exists g :: 0 <= g < |d| && Offset(d, g) <= k < Offset(d, g) + |d[g].x|
  {
    var e := d[..|d| - 1];
    assert d == e + [d[|d| - 1]];
    AllXSnoc(e, d[|d| - 1]);
    if k < |AllX(e)| {
      GroupOf(e, k);
      var g :| 0 <= g < |e| && Offset(e, g) <= k < Offset(e, g) + |e[g].x|;
      OffsetSnoc(e, d[|d| - 1], g);
      assert Offset(d, g) <= k < Offset(d, g) + |d[g].x|;
    } else {
      OffsetEnd(e);
      OffsetSnoc(e, d[|d| - 1], |e|);
      assert Offset(d, |e|) <= k < Offset(d, |e|) + |d[|e|].x|;
    }
  }

  /** A position inside group `g`'s range is a hole for every other series. */
  lemma OthersMissing(d: seq<Group>, g: nat, h: nat, k: nat)
    requires WellFormed(d) && g < |d| && h < |d| && g != h
    requires Offset(d, g) <= k < Offset(d, g) + |d[g].x|
    ensures CellOf(d, h, k) == Missing
  {
    if h < g {
      OffsetNext(d, h);
      OffsetMonotone(d, h + 1, g);
    } else {
      OffsetNext(d, g);
      OffsetMonotone(d, g + 1, h);
    }
  }

  // ---------------------------------------------------------------------
  // A merge extends the reference layout
  // ---------------------------------------------------------------------

  /** The origin of row `i` after merging into a layout with origin `p` by the argsort `q`. */
  function Compose(p: seq<nat>, q: seq<nat>, n: nat, m: nat): (c: seq<nat>)
    requires IsPermutation(p, n) && Indexes(q, n + m)
    ensures |c| == |q| && Indexes(c, n + m)
  {
    seq(|q|, i requires 0 <= i < |q| => if q[i] < n then p[q[i]] else q[i])
  }

  lemma ComposePermutation(p: seq<nat>, q: seq<nat>, n: nat, m: nat)
    requires IsPermutation(p, n) && IsPermutation(q, n + m)
    ensures IsPermutation(Compose(p, q, n, m), n + m)
  {
    var c := Compose(p, q, n, m);
    forall k | 0 <= k < n + m ensures k in c {
      if k < n {
        assert k in p;
        var j :| 0 <= j < |p| && p[j] == k;
        assert j in q;
        var i :| 0 <= i < |q| && q[i] == j;
        assert c[i] == k;
      } else {
        assert k in q;
        var i :| 0 <= i < |q| && q[i] == k;
        assert c[i] == k;
      }
    }
  }

  /** Merging a stably sorted layout by the stable argsort gives a stably sorted layout. */
  lemma ComposeStable(xs: seq<int>, ys: seq<int>, p: seq<nat>)
    requires IsPermutation(p, |xs|) && StablySorted(xs, p)
    ensures var q := Argsort(Apply(xs, p) + ys);
      StablySorted(xs + ys, Compose(p, q, |xs|, |ys|))
  {
    var t := Apply(xs, p) + ys;
    var q := Argsort(t);
    ArgsortCorrect(t);
    var n := |xs|;
    var c := Compose(p, q, n, |ys|);
    forall i, j | 0 <= i < j < |c| ensures Before(xs + ys, c[i], c[j]) {
      assert Before(t, q[i], q[j]);
      if q[i] < n && q[j] < n {
        if q[i] < q[j] {
          assert Before(xs, p[q[i]], p[q[j]]);
        } else {
          assert Before(xs, p[q[j]], p[q[i]]);
        }
      }
    }
  }

  lemma MergeLayoutX(e: seq<Group>, b: Group, p: seq<nat>)
    requires WellFormed(e) && |b.y| == |b.x| && IsPermutation(p, |AllX(e)|)
    ensures var a := Layout(e, p);
      var c := Compose(p, Argsort(a.x + b.x), |AllX(e)|, |b.x|);
      AllX(e + [b]) == AllX(e) + b.x && Merged(a, b).x == Apply(AllX(e + [b]), c)
  {
    AllXSnoc(e, b);
  }

  /** An old series has no cells at the positions a new group adds. */
  lemma CellOfSnocOld(e: seq<Group>, b: Group, g: nat, k: nat)
    requires WellFormed(e) && |b.y| == |b.x| && g < |e|
    ensures WellFormed(e + [b])
    ensures CellOf(e + [b], g, k) == CellOf(e, g, k)
    ensures k >= |AllX(e)| ==> CellOf(e, g, k) == Missing
  {
    OffsetSnoc(e, b, g);
    OffsetNext(e, g);
    OffsetMonotone(e, g + 1, |e|);
    OffsetEnd(e);
  }

  /** The new series has cells only at the positions its own group adds. */
  lemma CellOfSnocNew(e: seq<Group>, b: Group, k: nat)
    requires WellFormed(e) && |b.y| == |b.x|
    ensures WellFormed(e + [b])
    ensures CellOf(e + [b], |e|, k) ==
      if k < |AllX(e)| then Missing
      else if k < |AllX(e)| + |b.x| then b.y[k - |AllX(e)|]
      else Missing
  {
    OffsetSnoc(e, b, |e|);
    OffsetEnd(e);
  }

  lemma MergeLayoutOldAt(e: seq<Group>, b: Group, p: seq<nat>, g: nat, i: nat)
    requires WellFormed(e) && |b.y| == |b.x| && IsPermutation(p, |AllX(e)|) && g < |e|
    requires i < |AllX(e)| + |b.x|
    ensures var a := Layout(e, p);
      var c := Compose(p, Argsort(a.x + b.x), |AllX(e)|, |b.x|);
      AllX(e + [b]) == AllX(e) + b.x && WellFormed(e + [b]) &&
      Merged(a, b).cols[g][i] == Layout(e + [b], c).cols[g][i]
  {
    AllXSnoc(e, b);
    var a := Layout(e, p);
    var n := |AllX(e)|;
    var q := Argsort(a.x + b.x);
    var c := Compose(p, q, n, |b.x|);
    MergedRow(a, b, i);
    CellOfSnocOld(e, b, g, c[i]);
    if q[i] < n {
      assert a.cols[g][q[i]] == CellOf(e, g, p[q[i]]);
    }
  }

  lemma MergeLayoutNewAt(e: seq<Group>, b: Group, p: seq<nat>, i: nat)
    requires WellFormed(e) && |b.y| == |b.x| && IsPermutation(p, |AllX(e)|)
    requires i < |AllX(e)| + |b.x|
    ensures var a := Layout(e, p);
      var c := Compose(p, Argsort(a.x + b.x), |AllX(e)|, |b.x|);
      AllX(e + [b]) == AllX(e) + b.x && WellFormed(e + [b]) &&
      Merged(a, b).cols[|e|][i] == Layout(e + [b], c).cols[|e|][i]
  {
    AllXSnoc(e, b);
    var a := Layout(e, p);
    var n := |AllX(e)|;
    var q := Argsort(a.x + b.x);
    var c := Compose(p, q, n, |b.x|);
    MergedRow(a, b, i);
    CellOfSnocNew(e, b, c[i]);
    assert |a.cols| == |e| && |a.x| == n;
    assert Layout(e + [b], c).cols[|e|][i] == CellOf(e + [b], |e|, c[i]);
    if q[i] < n {
      assert c[i] == p[q[i]] < n;
    } else {
      assert c[i] == q[i];
    }
  }

  /** Merging a group into a layout of `e` yields a layout of `e + [b]`. */
  lemma MergeLayout(e: seq<Group>, b: Group, p: seq<nat>)
    requires WellFormed(e) && |b.y| == |b.x| && IsPermutation(p, |AllX(e)|)
    ensures var a := Layout(e, p);
      var c := Compose(p, Argsort(a.x + b.x), |AllX(e)|, |b.x|);
      AllX(e + [b]) == AllX(e) + b.x && WellFormed(e + [b]) &&
      Merged(a, b) == Layout(e + [b], c)
  {
    var a := Layout(e, p);
    var c := Compose(p, Argsort(a.x + b.x), |AllX(e)|, |b.x|);
    MergeLayoutX(e, b, p);
    AllXSnoc(e, b);
    var r := Merged(a, b);
    var l := Layout(e + [b], c);
    assert |r.cols| == |l.cols| == |e| + 1;
    forall g | 0 <= g <= |e| ensures r.cols[g] == l.cols[g] {
      assert |r.cols[g]| == |l.cols[g]| == |c|;
      forall i | 0 <= i < |c| ensures r.cols[g][i] == l.cols[g][i] {
        if g < |e| {
          MergeLayoutOldAt(e, b, p, g, i);
        } else {
          MergeLayoutNewAt(e, b, p, i);
        }
      }
    }
    assert r.x == l.x;
  }

  /** `build_data`'s starting point is the layout of its first group in input order. */
  lemma FirstLayout(g: Group)
    requires |g.y| == |g.x|
    ensures AllX([g]) == g.x && Indexes(Range(|g.x|), |AllX([g])|)
    ensures Layout([g], Range(|g.x|)) == Aligned(g.x, [g.y])
  {
    assert [g][..0] == [];
    assert AllX([g]) == g.x;
    var r := Layout([g], Range(|g.x|));
    assert r.cols[0] == g.y;
  }

  /** The first merge of `build_data` gives the reference alignment of two groups. */
  lemma MergeFirst(g0: Group, g1: Group)
    requires |g0.y| == |g0.x| && |g1.y| == |g1.x|
    ensures Merged(Aligned(g0.x, [g0.y]), g1) == AlignAll([g0, g1])
  {
    var n := |g0.x|;
    var id := Range(n);
    FirstLayout(g0);
    assert IsPermutation(id, n) by {
      forall k | 0 <= k < n ensures k in id {
        assert id[k] == k;
      }
    }
    MergeLayout([g0], g1, id);
    assert [g0] + [g1] == [g0, g1];
    var q := Argsort(g0.x + g1.x);
    assert Compose(id, q, n, |g1.x|) == q;
  }

  /** Every later merge of `build_data` extends the reference alignment by one group. */
  lemma MergeNext(e: seq<Group>, b: Group)
    requires WellFormed(e) && |b.y| == |b.x|
    ensures WellFormed(e + [b]) && Rectangular(AlignAll(e))
    ensures Merged(AlignAll(e), b) == AlignAll(e + [b])
  {
    var xs := AllX(e);
    var p := Argsort(xs);
    ArgsortCorrect(xs);
    MergeLayout(e, b, p);
    var q := Argsort(Apply(xs, p) + b.x);
    ArgsortCorrect(Apply(xs, p) + b.x);
    var c := Compose(p, q, |xs|, |b.x|);
    ComposePermutation(p, q, |xs|, |b.x|);
    ComposeStable(xs, b.x, p);
    ArgsortUnique(xs + b.x, c);
  }

  /** The value of `data` in `build_data` once the first `i` groups are in. */
  function Partial(d: seq<Group>, i: nat): Aligned
    requires WellFormed(d) && 1 <= i <= |d|
  {
    if i == 1 then Aligned(d[0].x, [d[0].y]) else AlignAll(d[..i])
  }

  lemma PartialStep(d: seq<Group>, i: nat)
    requires WellFormed(d) && 1 <= i < |d|
    ensures Rectangular(Partial(d, i))
    ensures Merged(Partial(d, i), d[i]) == Partial(d, i + 1)
  {
    if i == 1 {
      BuildDataFirst(d);
    } else {
      BuildDataNext(d, i);
    }
  }

  /** The first turn of `build_data`'s loop aligns the first two groups. */
  lemma BuildDataFirst(d: seq<Group>)
    requires WellFormed(d) && 2 <= |d|
    ensures WellFormed(d[..2])
    ensures Merged(Aligned(d[0].x, [d[0].y]), d[1]) == AlignAll(d[..2])
  {
    var e := d[..2];
    assert e == [d[0], d[1]];
    MergeFirst(d[0], d[1]);
  }

  /** Every later turn of `build_data`'s loop extends the alignment by group `i`. */
  lemma BuildDataNext(d: seq<Group>, i: nat)
    requires WellFormed(d) && 2 <= i < |d|
    ensures WellFormed(d[..i]) && WellFormed(d[..i + 1]) && Rectangular(AlignAll(d[..i]))
    ensures Merged(AlignAll(d[..i]), d[i]) == AlignAll(d[..i + 1])
  {
    var e := d[..i + 1];
    assert e == d[..i] + [d[i]];
    MergeNext(d[..i], d[i]);
  }

  // ---------------------------------------------------------------------
  // Properties of the alignment
  // ---------------------------------------------------------------------

  /** The aligned x column is all x-lists concatenated, sorted ascending. */
  lemma AlignAllSorted(d: seq<Group>)
    requires WellFormed(d)
    ensures |AlignAll(d).cols| == |d| && Rectangular(AlignAll(d))
    ensures multiset(AlignAll(d).x) == multiset(AllX(d))
    ensures forall i, j :: 0 <= i < j < |AlignAll(d).x| ==> AlignAll(d).x[i] <= AlignAll(d).x[j]
  {
    SortedValues(AllX(d));
  }

  /** The row that holds point `j` of group `g` after alignment. */
  ghost function RowOf(d: seq<Group>, g: nat, j: nat): (i: nat)
    requires WellFormed(d) && g < |d| && j < |d[g].x|
    ensures i < |AlignAll(d).x|
    ensures Argsort(AllX(d))[i] == Offset(d, g) + j
  {
    AllXAt(d, g, j);
    ArgsortCorrect(AllX(d));
    var p := Argsort(AllX(d));
    assert Offset(d, g) + j in p;
    var i :| 0 <= i < |p| && p[i] == Offset(d, g) + j;
    i
  }

  /**
   * Each point survives alignment as one row: its x-value, its y-cell in its
   * own series, and a hole in every other series.
   */
  lemma AlignAllKeepsPoint(d: seq<Group>, g: nat, j: nat)
    requires WellFormed(d) && g < |d| && j < |d[g].x|
    ensures var r, i := AlignAll(d), RowOf(d, g, j);
      && r.x[i] == d[g].x[j]
      && r.cols[g][i] == d[g].y[j]
      && forall h :: 0 <= h < |d| && h != g ==> r.cols[h][i] == Missing
  {
    AllXAt(d, g, j);
    var k := Offset(d, g) + j;
    forall h | 0 <= h < |d| && h != g ensures CellOf(d, h, k) == Missing {
      OthersMissing(d, g, h, k);
    }
  }

  /** Every row of the alignment is the row of some input point. */
  lemma AlignAllRowsArePoints(d: seq<Group>, i: nat)
    requires WellFormed(d) && i < |AlignAll(d).x|
    ensures exists g, j :: 0 <= g < |d| && 0 <= j < |d[g].x| && RowOf(d, g, j) == i
  {
    var p := Argsort(AllX(d));
    ArgsortCorrect(AllX(d));
    GroupOf(d, p[i]);
    var g :| 0 <= g < |d| && Offset(d, g) <= p[i] < Offset(d, g) + |d[g].x|;
    var j := p[i] - Offset(d, g);
    assert p[RowOf(d, g, j)] == p[i];
  }

  /**
   * Points with equal x keep their input order: earlier groups first, and
   * within a group, earlier positions first.
   */
  lemma AlignAllTiesKeepInputOrder(d: seq<Group>, g: nat, j: nat, h: nat, k: nat)
    requires WellFormed(d) && g < |d| && j < |d[g].x| && h < |d| && k < |d[h].x|
    requires g < h || (g == h && j < k)
    requires d[g].x[j] == d[h].x[k]
    ensures RowOf(d, g, j) < RowOf(d, h, k)
  {
    var p := Argsort(AllX(d));
    ArgsortCorrect(AllX(d));
    AllXAt(d, g, j);
    AllXAt(d, h, k);
    if g < h {
      OffsetNext(d, g);
      OffsetMonotone(d, g + 1, h);
    }
    var a, b := RowOf(d, g, j), RowOf(d, h, k);
    assert a != b;
  }

  // ---------------------------------------------------------------------
  // A worked example: two groups whose x-values interleave like
  // [1,2,3] and [2,3,4]
  // ---------------------------------------------------------------------

  /** The argsort keeps the concatenation order of the two shared x-values. */
  lemma InterleavedArgsort(g0: Group, g1: Group)
    requires |g0.x| == 3 && |g1.x| == 3
    requires g0.x[0] < g0.x[1] == g1.x[0] < g0.x[2] == g1.x[1] < g1.x[2]
    ensures Argsort(g0.x + g1.x) == [0, 1, 3, 2, 4, 5]
  {
    var t := g0.x + g1.x;
    var p: seq<nat> := [0, 1, 3, 2, 4, 5];
    assert t[0] == g0.x[0] && t[1] == g0.x[1] && t[2] == g0.x[2];
    assert t[3] == g1.x[0] && t[4] == g1.x[1] && t[5] == g1.x[2];
    assert p[0] == 0 && p[1] == 1 && p[2] == 3 && p[3] == 2 && p[4] == 4 && p[5] == 5;
    assert IsPermutation(p, 6);
    assert StablySorted(t, p);
    ArgsortUnique(t, p);
  }

  /** Gathering six values through the example's argsort swaps the middle two. */
  lemma ApplyInterleaved<T>(s: seq<T>)
    requires |s| == 6
    ensures Indexes([0, 1, 3, 2, 4, 5], |s|)
    ensures Apply(s, [0, 1, 3, 2, 4, 5]) == [s[0], s[1], s[3], s[2], s[4], s[5]]
  {
  }

  /** A merge of one series of three points with three new points, ordered as in the example. */
  lemma MergedInterleavedX(a: Aligned, b: Group)
    requires Rectangular(a) && |a.cols| == 1 && |a.x| == 3 && |b.x| == 3 && |b.y| == 3
    requires Argsort(a.x + b.x) == [0, 1, 3, 2, 4, 5]
    ensures Merged(a, b).x == [a.x[0], a.x[1], b.x[0], a.x[2], b.x[1], b.x[2]]
  {
    var t := a.x + b.x;
    assert Merged(a, b).x == Apply(t, [0, 1, 3, 2, 4, 5]);
    ApplyInterleaved(t);
  }

  /** The old series is padded with holes where the new points land. */
  lemma MergedInterleavedOld(a: Aligned, b: Group)
    requires Rectangular(a) && |a.cols| == 1 && |a.x| == 3 && |b.x| == 3 && |b.y| == 3
    requires Argsort(a.x + b.x) == [0, 1, 3, 2, 4, 5]
    ensures var y := a.cols[0];
      Merged(a, b).cols[0] == [y[0], y[1], Missing, y[2], Missing, Missing]
  {
    var y0 := a.cols[0] + Missings(3);
    assert Merged(a, b).cols[0] == Apply(y0, [0, 1, 3, 2, 4, 5]);
    ApplyInterleaved(y0);
  }

  /** The new series is padded with holes where the old points stay. */
  lemma MergedInterleavedNew(a: Aligned, b: Group)
    requires Rectangular(a) && |a.cols| == 1 && |a.x| == 3 && |b.x| == 3 && |b.y| == 3
    requires Argsort(a.x + b.x) == [0, 1, 3, 2, 4, 5]
    ensures Merged(a, b).cols[1] == [Missing, Missing, b.y[0], Missing, b.y[1], b.y[2]]
  {
    var y1 := Missings(3) + b.y;
    assert Merged(a, b).cols[1] == Apply(y1, [0, 1, 3, 2, 4, 5]);
    ApplyInterleaved(y1);
  }

  /** The whole merge of the example's shape. */
  lemma MergedInterleaved(a: Aligned, b: Group)
    requires Rectangular(a) && |a.cols| == 1 && |a.x| == 3 && |b.x| == 3 && |b.y| == 3
    requires Argsort(a.x + b.x) == [0, 1, 3, 2, 4, 5]
    ensures var y := a.cols[0];
      Merged(a, b) ==
        Aligned([a.x[0], a.x[1], b.x[0], a.x[2], b.x[1], b.x[2]],
                [[y[0], y[1], Missing, y[2], Missing, Missing],
                 [Missing, Missing, b.y[0], Missing, b.y[1], b.y[2]]])
  {
    MergedInterleavedX(a, b);
    MergedInterleavedOld(a, b);
    MergedInterleavedNew(a, b);
    var r := Merged(a, b);
    assert r.cols == [r.cols[0], r.cols[1]];
  }

  /**
   * Two interleaved groups align into six rows; each shared x-value appears
   * twice, the first group's point before the second's, each with a hole in
   * the other series.
   */
  lemma InterleavedRows(g0: Group, g1: Group)
    requires |g0.x| == 3 && |g1.x| == 3 && |g0.y| == 3 && |g1.y| == 3
    requires g0.x[0] < g0.x[1] == g1.x[0] < g0.x[2] == g1.x[1] < g1.x[2]
    ensures AlignAll([g0, g1]) ==
      Aligned([g0.x[0], g0.x[1], g1.x[0], g0.x[2], g1.x[1], g1.x[2]],
              [[g0.y[0], g0.y[1], Missing, g0.y[2], Missing, Missing],
               [Missing, Missing, g1.y[0], Missing, g1.y[1], g1.y[2]]])
  {
    var a := Aligned(g0.x, [g0.y]);
    assert Rectangular(a) && a.cols[0] == g0.y && a.x == g0.x;
    MergeFirst(g0, g1);
    InterleavedArgsort(g0, g1);
    MergedInterleaved(a, g1);
  }

  /** Two groups, [1,2,3]/[10,20,30] and [2,3,4]/[100,200,300]. */
  const Example: seq<Group> := [Group([1, 2, 3], [Val(10), Val(20), Val(30)]),
                                Group([2, 3, 4], [Val(100), Val(200), Val(300)])]

  /** [1,2,3]/[10,20,30] merged with [2,3,4]/[100,200,300]. */
  lemma TwoGroupExample()
    ensures AlignAll(Example) ==
      Aligned([1, 2, 2, 3, 3, 4],
              [[Val(10), Val(20), Missing, Val(30), Missing, Missing],
               [Missing, Missing, Val(100), Missing, Val(200), Val(300)]])
  {
    var d := Example;
    assert [d[0], d[1]] == d;
    InterleavedRows(d[0], d[1]);
  }

  /** `build_data` on the example input gives the example's alignment. */
  method BuildDataExample() returns (data: Aligned)
    ensures data ==
      Aligned([1, 2, 2, 3, 3, 4],
              [[Val(10), Val(20), Missing, Val(30), Missing, Missing],
               [Missing, Missing, Val(100), Missing, Val(200), Val(300)]])
  {
    data := BuildData(Example);
    TwoGroupExample();
  }
}
