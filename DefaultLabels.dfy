/**
 * The default `labels=[]` of `build_uplot_options` is one list, made when
 * the function is defined and shared by every call that omits `labels`.
 * `labels += extra` extends that shared list, so a later call without
 * labels starts from the labels an earlier call added.
 */
module DefaultLabels {
  import opened Decimal
  import opened PlotOptions

  /** The default-argument values of `build_uplot_options`, made once. */
  class Defaults {
    var labels: LabelList

    constructor()
      ensures fresh(labels) && labels.items == []
    {
      labels := new LabelList([]);
    }
  }

  /** A call that omits `labels`, as written: it passes the shared default list. */
  method CallWithDefaultLabels(d: Defaults, numY: nat, kwargs: map<string, Value>)
    returns (r: Outcome<map<string, Value>>)
    modifies d.labels
    ensures d.labels.items == CallerLabels(old(d.labels.items), numY)
    ensures r == BuildOptions(numY, old(d.labels.items), kwargs)
  {
    r := BuildUplotOptions(numY, d.labels, kwargs);
  }

  /**
   * As written: a first call with one y-series leaves `["y_0"]` in the
   * default list, so a second call with two y-series labels both `y_0`.
   */
  method SecondCallLabels() returns (first: seq<string>, second: seq<string>)
    ensures first == ["y_0"]
    ensures second == ["y_0", "y_0"]
  {
    var d := new Defaults();
    var _ := CallWithDefaultLabels(d, 1, map[]);
    first := d.labels.items;
    var _ := CallWithDefaultLabels(d, 2, map[]);
    second := d.labels.items;
    assert Label(0) == "y_0" by {
      assert NatToString(0) == "0";
    }
  }

  /** As written: the second call's two y-series carry the same label. */
  lemma SecondCallDuplicateLabels()
    ensures var r := BuildOptions(2, CallerLabels([], 1), map[]);
      && r.Ok? && "series" in r.value && r.value["series"].List?
      && |r.value["series"].items| == 3
      && Field(r.value["series"].items[1], "label") == Field(r.value["series"].items[2], "label")
  {
    var given := CallerLabels([], 1);
    assert given == [Label(0)];
    DefaultSeries(2, given, map[]);
    var ys := YEntries(2, given, map[]);
    var items := BuildOptions(2, given, map[]).value["series"].items;
    assert items[1] == ys[0] && items[2] == ys[1];
    assert FitLabels(given, 2) == [Label(0), Label(0)];
  }

  /** Corrected: a call that omits `labels` starts from a list of its own. */
  method CallWithFreshLabels(numY: nat, kwargs: map<string, Value>) returns (r: Outcome<map<string, Value>>)
    ensures r == BuildOptions(numY, [], kwargs)
  {
    var labels := new LabelList([]);
    r := BuildUplotOptions(numY, labels, kwargs);
  }

  /** Corrected: with a fresh list the y-series are labelled `y_0`, `y_1`, ..., all different. */
  lemma FreshLabelsDistinct(n: nat, kwargs: map<string, Value>)
    requires n <= 15
    ensures forall i :: 0 <= i < n ==> Field(YEntries(n, [], kwargs)[i], "label") == Some(Str(Label(i)))
    ensures forall i, j :: 0 <= i < j < n ==>
              Field(YEntries(n, [], kwargs)[i], "label") != Field(YEntries(n, [], kwargs)[j], "label")
  {
    var ys := YEntries(n, [], kwargs);
    forall i | 0 <= i < n ensures Field(ys[i], "label") == Some(Str(Label(i))) {
      assert ys[i] == Entry(FitLabels([], n)[i], Colors[14 - i], PointSize(kwargs));
    }
    forall i, j | 0 <= i < j < n ensures Field(ys[i], "label") != Field(ys[j], "label") {
      if Label(i) == Label(j) {
        LabelInjective(i, j);
      }
    }
  }
}
