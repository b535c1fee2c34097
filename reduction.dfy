/** Result reduction of the Monte Carlo integrator
    (`MonteCarlo.calculate_result`): volume times the mean of the values. */
module MonteCarloReduction {
  import opened Common

  /** `anp.sum` over the values. */
  function Sum(v: seq<real>): real {
    if |v| == 0 then 0.0 else v[0] + Sum(v[1..])
  }

  /** `integration_domain[d, 1] - integration_domain[d, 0]`. */
  function Width(b: Bound): real {
    b.upper - b.lower
  }

  /** `anp.prod` of the widths; the empty product is 1. */
  function Volume(bounds: seq<Bound>): real {
    if |bounds| == 0 then 1.0 else Width(bounds[0]) * Volume(bounds[1..])
  }

  /** `calculate_result`: `volume * sum(values) / N` with `N` the number of
      values.  For no values floating point gives `0 / 0`, a NaN. */
  function CalculateResult(values: seq<real>, dom: Domain): (r: Scalar)
    ensures r.NaN? <==> |values| == 0
  {
    if |values| == 0 then NaN
    else Real(Volume(dom.bounds) * Sum(values) / (|values| as real))
  }

  /** Values between `lo` and `hi` sum to between `|v| * lo` and `|v| * hi`. */
  lemma {:induction false} SumBetween(v: seq<real>, lo: real, hi: real)
    requires forall i :: 0 <= i < |v| ==> lo <= v[i] <= hi
    ensures (|v| as real) * lo <= Sum(v) <= (|v| as real) * hi
  {
    if |v| > 0 {
      SumBetween(v[1..], lo, hi);
    }
  }

  /** `|v|` copies of `c` sum to `|v| * c`. */
  lemma {:induction false} SumConstant(v: seq<real>, c: real)
    requires forall i :: 0 <= i < |v| ==> v[i] == c
    ensures Sum(v) == (|v| as real) * c
  {
    if |v| > 0 {
      SumConstant(v[1..], c);
    }
  }

  /** The volume of a well-formed domain is not negative. */
  lemma {:induction false} VolumeNonNegative(bounds: seq<Bound>)
    requires forall d :: 0 <= d < |bounds| ==> bounds[d].lower <= bounds[d].upper
    ensures 0.0 <= Volume(bounds)
  {
    if |bounds| > 0 {
      VolumeNonNegative(bounds[1..]);
      assert 0.0 <= Width(bounds[0]);
    }
  }

  /** A constant integrand `c` gives exactly `c` times the volume, whatever
      the number of values. */
  lemma ConstantValuesGiveVolume(values: seq<real>, dom: Domain, c: real)
    requires |values| > 0
    requires forall i :: 0 <= i < |values| ==> values[i] == c
    ensures CalculateResult(values, dom) == Real(c * Volume(dom.bounds))
  {
    SumConstant(values, c);
    var n := |values| as real;
    var vol := Volume(dom.bounds);
    assert vol * (n * c) / n == c * vol;
  }

  /** On a well-formed domain, values between `lo` and `hi` give a result
      between `lo` and `hi` times the volume. */
  lemma ResultBetween(values: seq<real>, dom: Domain, lo: real, hi: real)
    requires WellFormed(dom)
    requires |values| > 0
    requires forall i :: 0 <= i < |values| ==> lo <= values[i] <= hi
    ensures var r := CalculateResult(values, dom);
      r.Real? && lo * Volume(dom.bounds) <= r.v <= hi * Volume(dom.bounds)
  {
    SumBetween(values, lo, hi);
    VolumeNonNegative(dom.bounds);
    var n := |values| as real;
    var vol := Volume(dom.bounds);
    var mean := Sum(values) / n;
    assert lo <= mean <= hi;
    assert vol * Sum(values) / n == vol * mean;
    MonotoneProduct(vol, lo, mean);
    MonotoneProduct(vol, mean, hi);
  }

  lemma MonotoneProduct(k: real, x: real, y: real)
    requires 0.0 <= k && x <= y
    ensures x * k <= k * y
  {
    assert k * y - k * x == k * (y - x);
  }

  /** The constant 2 over [[0, 2], [0, 3]] integrates to 12, for any
      positive number of points. */
  lemma ConstantTwoOverBox(values: seq<real>, backend: Backend)
    requires |values| > 0
    requires forall i :: 0 <= i < |values| ==> values[i] == 2.0
    ensures CalculateResult(values, Domain([Bound(0.0, 2.0), Bound(0.0, 3.0)], backend)) == Real(12.0)
  {
    VolumeOfTwoByThree();
    ConstantValuesGiveVolume(values, Domain([Bound(0.0, 2.0), Bound(0.0, 3.0)], backend), 2.0);
  }

  /** The box [[0, 2], [0, 3]] has volume 6. */
  lemma VolumeOfTwoByThree()
    ensures Volume([Bound(0.0, 2.0), Bound(0.0, 3.0)]) == 6.0
  {
    var bounds := [Bound(0.0, 2.0), Bound(0.0, 3.0)];
    assert bounds[1..] == [Bound(0.0, 3.0)];
    assert bounds[1..][1..] == [];
  }
}
