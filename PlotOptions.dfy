/**
 * `build_uplot_options(num_yseries, labels, **kwargs)`: the uPlot options
 * dictionary built from defaults, a closed set of overridable keyword
 * arguments, the series labels and a fixed 15-colour palette.
 *
 * The dictionary is modelled as a map from key to a JSON-like `Value`, the
 * form it has just before `json.dumps`. Keyword arguments are a map of the
 * same kind, so any value may be passed for any key, as in Python.
 */
module PlotOptions {
  import opened Decimal

  /** The values a keyword argument or an options entry can take. */
  datatype Value =
    | Null
    | Bool(b: bool)
    | Int(i: int)
    | Str(s: string)
    | List(items: seq<Value>)
    | Dict(fields: map<string, Value>)

  /** How a call ends: a result, or the exception Python raises. */
  datatype Outcome<T> = Ok(value: T) | IndexError | TypeError

  datatype Option<T> = None | Some(value: T)

  /** The palette as listed, from the lightest to the darkest purple. */
  const Colors: seq<string> :=
    ["lavender", "thistle", "plum", "violet", "orchid", "fuchsia", "magenta",
     "mediumorchid", "mediumpurple", "blueviolet", "darkviolet", "darkorchid",
     "darkmagenta", "purple", "indigo"]

  /** The keys that keyword arguments may override. */
  const Overridable: set<string> := {"title", "width", "height", "scales", "series"}

  /** The options before any keyword argument is applied. */
  const DefaultOptions: map<string, Value> :=
    map["title" := Str(""),
        "width" := Int(750),
        "height" := Int(300),
        "scales" := Dict(map["x" := Dict(map["time" := Bool(false)]),
                             "y" := Dict(map["auto" := Bool(true)])]),
        "series" := List([Dict(map["label" := Str("x")])])]

  // ---------------------------------------------------------------------
  // The palette and its in-place reversal
  // ---------------------------------------------------------------------

  /** `s` back to front. */
  function Reversed<T>(s: seq<T>): (r: seq<T>)
    ensures |r| == |s|
    ensures s != [] ==> r[0] == s[|s| - 1] && r[|s| - 1] == s[0]
  {
    if s == [] then [] else [s[|s| - 1]] + Reversed(s[..|s| - 1])
  }

  /** Element `k` of the reversal is element `|s|-1-k` of `s`. */
  lemma {:induction false} ReversedAt<T>(s: seq<T>)
    ensures |Reversed(s)| == |s|
    ensures forall k :: 0 <= k < |s| ==> Reversed(s)[k] == s[|s| - 1 - k]
  {
    if s != [] {
      ReversedAt(s[..|s| - 1]);
    }
  }

  /** `colors.reverse()`: swaps the ends of the list pairwise, in place. */
  method Reverse(a: array<string>)
    modifies a
    ensures a[..] == Reversed(old(a[..]))
  {
    ghost var s := a[..];
    var n := a.Length;
    var i := 0;
    while i < n / 2
      invariant 0 <= i <= n / 2
      invariant forall k :: 0 <= k < i ==> a[k] == s[n - 1 - k] && a[n - 1 - k] == s[k]
      invariant forall k :: i <= k < n - i ==> a[k] == s[k]
    {
      a[i], a[n - 1 - i] := a[n - 1 - i], a[i];
      i := i + 1;
    }
    ReversedAt(s);
  }

  /**
   * The stroke colours in the order the series get them: series `i` is
   * stroked with palette entry `14 - i`, the first with indigo, the last
   * with lavender. This is the palette after `colors.reverse()`.
   */
  function Strokes(): (r: seq<string>)
    ensures |r| == 15 && r[0] == "indigo" && r[14] == "lavender"
  {
    seq(15, i requires 0 <= i < 15 => Colors[14 - i])
  }

  /** The strokes are the palette reversed, as `colors.reverse()` leaves it. */
  lemma StrokesReversed()
    ensures Strokes() == Reversed(Colors)
  {
    ReversedAt(Colors);
  }

  lemma ColorsDistinct()
    ensures forall i, j :: 0 <= i < j < 15 ==> Colors[i] != Colors[j]
  {
    forall i, j | 0 <= i < j < 15 ensures Colors[i] != Colors[j] {
      assert Colors[i][..2] != Colors[j][..2] || Colors[i][2..] != Colors[j][2..];
    }
  }

  /** Up to fifteen series all get different strokes. */
  lemma StrokesDistinct()
    ensures forall i, j :: 0 <= i < j < 15 ==> Strokes()[i] != Strokes()[j]
  {
    ColorsDistinct();
    forall i, j | 0 <= i < j < 15 ensures Strokes()[i] != Strokes()[j] {
      assert Strokes()[i] == Colors[14 - i] && Strokes()[j] == Colors[14 - j];
    }
  }

  // ---------------------------------------------------------------------
  // Keyword-argument overrides
  // ---------------------------------------------------------------------

  /**
   * The options after the override loop and the `scatter` step: a default
   * key takes the keyword argument's value when one is given, `scatter` is
   * present exactly when it is given, and no other key appears.
   */
  function Overridden(kwargs: map<string, Value>): (r: map<string, Value>)
    ensures r.Keys == Overridable + (if "scatter" in kwargs then {"scatter"} else {})
  {
    var base := map key | key in DefaultOptions :: if key in kwargs then kwargs[key] else DefaultOptions[key];
    if "scatter" in kwargs then base["scatter" := kwargs["scatter"]] else base
  }

  /** The override loop, then `scatter`: updates a copy of the defaults key by key. */
  method ApplyOverrides(kwargs: map<string, Value>) returns (opts: map<string, Value>)
    ensures opts == Overridden(kwargs)
  {
    opts := DefaultOptions;
    var keys := kwargs.Keys;
    while keys != {}
      invariant keys <= kwargs.Keys
      invariant opts.Keys == DefaultOptions.Keys
      invariant forall key :: key in opts ==>
                  opts[key] == if key in kwargs && key !in keys then kwargs[key] else DefaultOptions[key]
      decreases keys
    {
      var key :| key in keys;
      if key in opts {
        opts := opts[key := kwargs[key]];
      }
      keys := keys - {key};
    }
    if "scatter" in kwargs {
      opts := opts["scatter" := kwargs["scatter"]];
    }
  }

  /** Without keyword arguments the options are the defaults. */
  lemma NoOverrides()
    ensures Overridden(map[]) == DefaultOptions
    ensures var d := DefaultOptions;
      && d["title"] == Str("") && d["width"] == Int(750) && d["height"] == Int(300)
      && d["scales"].Dict? && d["scales"].fields["x"] == Dict(map["time" := Bool(false)])
      && d["scales"].fields["y"] == Dict(map["auto" := Bool(true)])
  {
  }

  /** A supplied overridable key or `scatter` takes the supplied value; the rest keep the defaults. */
  lemma OverridesApply(kwargs: map<string, Value>, key: string)
    requires key in Overridable || key == "scatter"
    ensures key in kwargs ==> key in Overridden(kwargs) && Overridden(kwargs)[key] == kwargs[key]
    ensures key !in kwargs && key in Overridable ==> Overridden(kwargs)[key] == DefaultOptions[key]
  {
  }

  /** Keyword arguments other than the overridable keys and `scatter` have no effect. */
  lemma OtherKeysIgnored(k1: map<string, Value>, k2: map<string, Value>)
    requires forall key :: key in Overridable || key == "scatter" ==>
               (key in k1 <==> key in k2) && (key in k1 ==> k1[key] == k2[key])
    ensures Overridden(k1) == Overridden(k2)
  {
    var r1, r2 := Overridden(k1), Overridden(k2);
    assert r1.Keys == r2.Keys;
    forall key | key in r1 ensures r1[key] == r2[key] {
    }
  }

  /** `size` as supplied, 2 by default. */
  function PointSize(kwargs: map<string, Value>): (r: Value)
    ensures "size" !in kwargs ==> r == Int(2)
    ensures "size" in kwargs ==> r == kwargs["size"]
  {
    if "size" in kwargs then kwargs["size"] else Int(2)
  }

  // ---------------------------------------------------------------------
  // Labels and y-series
  // ---------------------------------------------------------------------

  /**
   * The labels the series are built from: the given ones, extended with
   * `y_0`, `y_1`, ... up to `n` of them, or cut to the first `n`.
   */
  function FitLabels(given: seq<string>, n: nat): (r: seq<string>)
    ensures |r| == n
    ensures forall i :: 0 <= i < n ==> r[i] == if i < |given| then given[i] else Label(i - |given|)
  {
    if |given| < n then given + ExtraLabels(n - |given|) else given[..n]
  }

  /** The caller's list afterwards: `labels += extra` extends it in place; a slice leaves it alone. */
  function CallerLabels(given: seq<string>, n: nat): (r: seq<string>)
    ensures |given| < n ==> r == FitLabels(given, n)
    ensures |given| >= n ==> r == given
  {
    if |given| < n then given + ExtraLabels(n - |given|) else given
  }

  /** One label given for three series: the two added labels count from `y_0`. */
  lemma FitLabelsExample()
    ensures FitLabels(["a"], 3) == ["a", "y_0", "y_1"]
  {
    assert NatToString(0) == "0" && NatToString(1) == "1";
    assert Label(0) == "y_0" && Label(1) == "y_1";
  }

  /** The caller's list is extended at most once: a second call with the same count leaves it alone. */
  lemma CallerLabelsIdempotent(given: seq<string>, n: nat)
    ensures CallerLabels(CallerLabels(given, n), n) == CallerLabels(given, n)
    ensures FitLabels(CallerLabels(given, n), n) == FitLabels(given, n)
  {
  }

  /** One y-series entry: its label, its stroke, and points of space 0 and the given size. */
  function Entry(name: string, stroke: string, size: Value): (r: Value)
    ensures Field(r, "label") == Some(Str(name))
    ensures Field(r, "stroke") == Some(Str(stroke))
    ensures Field(r, "points") == Some(Dict(map["space" := Int(0), "size" := size]))
  {
    Dict(map["label" := Str(name),
             "stroke" := Str(stroke),
             "points" := Dict(map["space" := Int(0), "size" := size])])
  }

  /** The entry under `key` of a dictionary value, if there is one. */
  function Field(v: Value, key: string): Option<Value> {
    if v.Dict? && key in v.fields then Some(v.fields[key]) else None
  }

  /** The `y_series` comprehension; `None` when `colors[i]` runs off the palette. */
  function YSeries(labels: seq<string>, strokes: seq<string>, size: Value): (r: Option<seq<Value>>)
    ensures r.None? <==> |labels| > |strokes|
    ensures r.Some? ==> |r.value| == |labels|
    ensures r.Some? ==> forall i :: 0 <= i < |labels| ==> r.value[i] == Entry(labels[i], strokes[i], size)
  {
    if |labels| > |strokes| then None
    else Some(seq(|labels|, i requires 0 <= i < |labels| => Entry(labels[i], strokes[i], size)))
  }

  /**
   * What `build_uplot_options` computes, before `json.dumps`: the overridden
   * options with one entry per label appended to `series`.
   */
  function BuildOptions(n: nat, given: seq<string>, kwargs: map<string, Value>): (r: Outcome<map<string, Value>>)
    ensures n == 0 ==> r == Ok(Overridden(kwargs))
    ensures n > 15 ==> r == IndexError
    ensures r.Ok? ==> r.value.Keys == Overridden(kwargs).Keys
  {
    var opts := Overridden(kwargs);
    var labels := FitLabels(given, n);
    if |labels| == 0 then Ok(opts)
    else
      match YSeries(labels, Strokes(), PointSize(kwargs))
      case None => IndexError
      case Some(ys) =>
        match opts["series"]
        case List(items) => Ok(opts["series" := List(items + ys)])
        case _ => TypeError
  }

  /** The caller's list of labels, which `labels += extra` extends in place. */
  class LabelList {
    var items: seq<string>

    constructor(items: seq<string>)
      ensures this.items == items
    {
      this.items := items;
    }
  }

  /** `build_uplot_options(num_yseries, labels, **kwargs)`, up to `json.dumps`. */
  method BuildUplotOptions(numY: nat, labels: LabelList, kwargs: map<string, Value>)
    returns (r: Outcome<map<string, Value>>)
    modifies labels
    ensures labels.items == CallerLabels(old(labels.items), numY)
    ensures r == BuildOptions(numY, old(labels.items), kwargs)
  {
    var colors := new string[15](i requires 0 <= i < 15 => Colors[i]);
    assert colors[..] == Colors;
    Reverse(colors);
    StrokesReversed();
    var opts := ApplyOverrides(kwargs);
    var size := if "size" in kwargs then kwargs["size"] else Int(2);
    var fitted: seq<string>;
    if |labels.items| < numY {
      var extra := ExtraLabels(numY - |labels.items|);
      labels.items := labels.items + extra;
      fitted := labels.items;
    } else {
      fitted := labels.items[..numY];
    }
    if |fitted| > 0 {
      var ys := YSeries(fitted, colors[..], size);
      if ys.None? {
        return IndexError;
      }
      match opts["series"] {
        case List(items) =>
          opts := opts["series" := List(items + ys.value)];
        case _ =>
          return TypeError;
      }
    }
    r := Ok(opts);
  }

  // ---------------------------------------------------------------------
  // Properties of the options
  // ---------------------------------------------------------------------

  /** The cases of `BuildOptions`, one step at a time. */
  lemma BuildOptionsCases(n: nat, given: seq<string>, kwargs: map<string, Value>)
    ensures var o, r := Overridden(kwargs), BuildOptions(n, given, kwargs);
      && "series" in o
      && (n == 0 ==> r == Ok(o))
      && (n > 15 ==> r == IndexError)
      && (1 <= n <= 15 && !o["series"].List? ==> r == TypeError)
      && (1 <= n <= 15 && o["series"].List? ==>
            r == Ok(o["series" := List(o["series"].items +
                                       YSeries(FitLabels(given, n), Strokes(), PointSize(kwargs)).value)]))
  {
    var o := Overridden(kwargs);
    var labels := FitLabels(given, n);
    var ys := YSeries(labels, Strokes(), PointSize(kwargs));
    assert "series" in o;
    assert ys.Some? <==> n <= 15;
  }

  /**
   * The call fails with `IndexError` exactly when there are more than 15
   * y-series, and with `TypeError` exactly when there is at least one
   * y-series to append and the `series` override is not a list.
   */
  lemma BuildOptionsErrors(n: nat, given: seq<string>, kwargs: map<string, Value>)
    ensures BuildOptions(n, given, kwargs) == IndexError <==> n > 15
    ensures BuildOptions(n, given, kwargs) == TypeError <==>
              1 <= n <= 15 && "series" in kwargs && !kwargs["series"].List?
  {
    OverridesApply(kwargs, "series");
    BuildOptionsCases(n, given, kwargs);
  }

  /**
   * On success the options hold the overridable keys, plus `scatter` when it
   * was supplied; every key but `series` holds the override or the default.
   */
  lemma BuildOptionsKeys(n: nat, given: seq<string>, kwargs: map<string, Value>)
    requires BuildOptions(n, given, kwargs).Ok?
    ensures var o := BuildOptions(n, given, kwargs).value;
      && o.Keys == Overridable + (if "scatter" in kwargs then {"scatter"} else {})
      && forall key :: key in o && key != "series" ==>
           o[key] == if key in kwargs then kwargs[key] else DefaultOptions[key]
  {
    BuildOptionsCases(n, given, kwargs);
  }

  /** The series list before the y-series are appended: the override, or `[{'label': 'x'}]`. */
  function BaseSeries(kwargs: map<string, Value>): seq<Value> {
    if "series" in kwargs && kwargs["series"].List? then kwargs["series"].items
    else [Dict(map["label" := Str("x")])]
  }

  /** The y-series entries appended for `n <= 15` series. */
  function YEntries(n: nat, given: seq<string>, kwargs: map<string, Value>): (r: seq<Value>)
    requires n <= 15
    ensures |r| == n
    ensures forall i :: 0 <= i < n ==> r[i] == Entry(FitLabels(given, n)[i], Colors[14 - i], PointSize(kwargs))
  {
    YSeries(FitLabels(given, n), Strokes(), PointSize(kwargs)).value
  }

  lemma BuildOptionsSeriesList(n: nat, given: seq<string>, kwargs: map<string, Value>)
    requires n <= 15
    requires "series" in kwargs ==> kwargs["series"].List?
    ensures var r := BuildOptions(n, given, kwargs);
      r.Ok? && "series" in r.value && r.value["series"] == List(BaseSeries(kwargs) + YEntries(n, given, kwargs))
  {
    OverridesApply(kwargs, "series");
    BuildOptionsCases(n, given, kwargs);
    var o := Overridden(kwargs);
    assert o["series"].items == BaseSeries(kwargs);
    if n == 0 {
      assert BaseSeries(kwargs) + YEntries(n, given, kwargs) == BaseSeries(kwargs);
    }
  }

  /**
   * With at most 15 y-series and a list (or no) `series` override, the
   * series list is the override (or `[{'label': 'x'}]`) followed by one
   * entry per fitted label, entry `i` stroked with palette colour `14 - i`
   * and sized by `size` (2 by default).
   */
  lemma BuildOptionsSeries(n: nat, given: seq<string>, kwargs: map<string, Value>)
    requires n <= 15
    requires "series" in kwargs ==> kwargs["series"].List?
    ensures var base := BaseSeries(kwargs);
      var r := BuildOptions(n, given, kwargs);
      && r.Ok? && "series" in r.value && r.value["series"].List?
      && |r.value["series"].items| == |base| + n
      && r.value["series"].items[..|base|] == base
      && forall i :: 0 <= i < n ==>
           r.value["series"].items[|base| + i] == Entry(FitLabels(given, n)[i], Colors[14 - i], PointSize(kwargs))
  {
    BuildOptionsSeriesList(n, given, kwargs);
    var base := BaseSeries(kwargs);
    var ys := YEntries(n, given, kwargs);
    var s := BuildOptions(n, given, kwargs).value["series"].items;
    assert s == base + ys;
    assert s[..|base|] == base;
    forall i | 0 <= i < n
      ensures s[|base| + i] == Entry(FitLabels(given, n)[i], Colors[14 - i], PointSize(kwargs))
    {
      assert s[|base| + i] == ys[i];
    }
  }

  /** No two appended y-series share a stroke. */
  lemma YEntriesDistinct(n: nat, given: seq<string>, kwargs: map<string, Value>)
    requires n <= 15
    ensures forall i, j :: 0 <= i < j < n ==>
              Field(YEntries(n, given, kwargs)[i], "stroke") != Field(YEntries(n, given, kwargs)[j], "stroke")
  {
    var ys := YEntries(n, given, kwargs);
    ColorsDistinct();
    forall i, j | 0 <= i < j < n ensures Field(ys[i], "stroke") != Field(ys[j], "stroke") {
      assert Field(ys[i], "stroke") == Some(Str(Colors[14 - i]));
      assert Field(ys[j], "stroke") == Some(Str(Colors[14 - j]));
    }
  }

  /** Without a `series` override there are `1 + n` series, the x-series first and then the y-series, indigo first. */
  lemma DefaultSeries(n: nat, given: seq<string>, kwargs: map<string, Value>)
    requires n <= 15 && "series" !in kwargs
    ensures var r := BuildOptions(n, given, kwargs);
      && r.Ok? && "series" in r.value
      && r.value["series"] == List([Dict(map["label" := Str("x")])] + YEntries(n, given, kwargs))
      && |r.value["series"].items| == 1 + n
      && (n >= 1 ==> r.value["series"].items[1] == Entry(FitLabels(given, n)[0], "indigo", PointSize(kwargs)))
  {
    BuildOptionsSeriesList(n, given, kwargs);
    var ys := YEntries(n, given, kwargs);
    var items := BuildOptions(n, given, kwargs).value["series"].items;
    assert items == [Dict(map["label" := Str("x")])] + ys;
    if n >= 1 {
      assert items[1] == ys[0];
    }
  }

  /** Keyword arguments other than the overridable keys, `scatter` and `size` have no effect. */
  lemma BuildOptionsIgnoresOtherKeys(n: nat, given: seq<string>, k1: map<string, Value>, k2: map<string, Value>)
    requires forall key :: key in Overridable || key == "scatter" || key == "size" ==>
               (key in k1 <==> key in k2) && (key in k1 ==> k1[key] == k2[key])
    ensures BuildOptions(n, given, k1) == BuildOptions(n, given, k2)
  {
    OtherKeysIgnored(k1, k2);
  }
}
