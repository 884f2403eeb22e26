/**
 * Decimal formatting of non-negative integers, as the f-string `f'y_{i}'`
 * of `build_uplot_options` writes them, and the default series labels built
 * from it.
 */
module Decimal {

  predicate IsDigit(c: char) {
    '0' <= c <= '9'
  }

  function DigitChar(d: nat): (c: char)
    requires d < 10
    ensures IsDigit(c) && c as int - '0' as int == d
  {
    ['0', '1', '2', '3', '4', '5', '6', '7', '8', '9'][d]
  }

  function DigitValue(c: char): nat
    requires IsDigit(c)
  {
    c as int - '0' as int
  }

  /** A canonical decimal numeral: digits only, no leading zero unless it is "0". */
  predicate Canonical(s: string) {
    && |s| >= 1
    && (forall i :: 0 <= i < |s| ==> IsDigit(s[i]))
    && (s[0] == '0' ==> |s| == 1)
  }

  /** `str(n)` for `n >= 0`. */
  function NatToString(n: nat): (s: string)
    ensures Canonical(s)
    ensures n < 10 <==> |s| == 1
  {
    if n < 10 then [DigitChar(n)] else NatToString(n / 10) + [DigitChar(n % 10)]
  }

  /** The value of a string of digits. */
  function ParseNat(s: string): nat
    requires |s| >= 1 && forall i :: 0 <= i < |s| ==> IsDigit(s[i])
  {
    if |s| == 1 then DigitValue(s[0])
    else ParseNat(s[..|s| - 1]) * 10 + DigitValue(s[|s| - 1])
  }

  /** Reading back the numeral gives the number. */
  lemma {:induction false} ParseNatToString(n: nat)
    ensures ParseNat(NatToString(n)) == n
  {
    if n >= 10 {
      var s := NatToString(n);
      assert s[..|s| - 1] == NatToString(n / 10);
      ParseNatToString(n / 10);
    }
  }

  /** Distinct numbers are written differently. */
  lemma NatToStringInjective(m: nat, n: nat)
    requires NatToString(m) == NatToString(n)
    ensures m == n
  {
    ParseNatToString(m);
    ParseNatToString(n);
  }

  /** The default label of the `i`-th added y-series: `y_` and `i` in decimal. */
  function Label(i: nat): (s: string)
    ensures |s| >= 3 && s[..2] == "y_" && s[2..] == NatToString(i)
  {
    "y_" + NatToString(i)
  }

  lemma LabelInjective(i: nat, j: nat)
    requires Label(i) == Label(j)
    ensures i == j
  {
    assert Label(i)[2..] == Label(j)[2..];
    NatToStringInjective(i, j);
  }

  /** `[f'y_{i}' for i in range(m)]`. */
  function ExtraLabels(m: nat): (r: seq<string>)
    ensures |r| == m && forall i :: 0 <= i < m ==> r[i] == Label(i)
  {
    seq(m, i requires 0 <= i < m => Label(i))
  }

  /** The added labels are pairwise distinct. */
  lemma ExtraLabelsDistinct(m: nat)
    ensures forall i, j :: 0 <= i < j < m ==> ExtraLabels(m)[i] != ExtraLabels(m)[j]
  {
    forall i, j | 0 <= i < j < m ensures ExtraLabels(m)[i] != ExtraLabels(m)[j] {
      if ExtraLabels(m)[i] == ExtraLabels(m)[j] {
        LabelInjective(i, j);
      }
    }
  }
}
