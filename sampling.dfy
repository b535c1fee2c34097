/** Sample point generation of the Monte Carlo integrator
    (`MonteCarlo.calculate_sample_points`). */
module MonteCarloSampling {
  import opened Common
  import opened Random

  /** A draw `u` mapped into the bound: `u * (upper - lower) + lower`. */
  function Scale(u: real, b: Bound): real {
    u * (b.upper - b.lower) + b.lower
  }

  /** The points the sampler produces from stream `s` read from position
      `start`: point `i`, coordinate `d` is the `i`-th of the `n` draws made
      for dimension `d`, and dimension `d` is drawn after dimensions
      0..d-1. */
  function SamplePoints(n: nat, dom: Domain, s: Stream, start: nat): (p: Points)
    ensures |p| == n
    ensures forall i :: 0 <= i < n ==> |p[i]| == |dom.bounds|
  {
    seq(n, i requires 0 <= i < n =>
      seq(|dom.bounds|, d requires 0 <= d < |dom.bounds| => Scale(s(start + d * n + i), dom.bounds[d])))
  }

  /** The element-wise tensor expression `u * scale + offset`. */
  function ScaleAll(u: seq<real>, b: Bound): (c: seq<real>)
    ensures |c| == |u|
    ensures forall i :: 0 <= i < |u| ==> c[i] == Scale(u[i], b)
  {
    seq(|u|, i requires 0 <= i < |u| => Scale(u[i], b))
  }

  /** One column: `n` draws from position `start`, scaled into `b`. */
  function Column(n: nat, b: Bound, s: Stream, start: nat): (c: seq<real>)
    ensures |c| == n
    ensures forall i :: 0 <= i < n ==> c[i] == Scale(s(start + i), b)
  {
    ScaleAll(Window(s, start, n), b)
  }

  /** `anp.stack(columns, axis=1)`: the table whose row `i` holds entry `i`
      of every column, columns in order.  An empty list cannot be stacked. */
  function Stack(columns: seq<seq<real>>, n: nat): (p: Points)
    requires |columns| >= 1
    requires forall d :: 0 <= d < |columns| ==> |columns[d]| == n
    ensures |p| == n
    ensures forall i, d :: 0 <= i < n && 0 <= d < |columns| ==> |p[i]| == |columns| && p[i][d] == columns[d][i]
  {
    seq(n, i requires 0 <= i < n => seq(|columns|, d requires 0 <= d < |columns| => columns[d][i]))
  }

  /** `calculate_sample_points`.  A caller-supplied generator together with
      a seed is refused before anything is drawn.  Without a generator a
      fresh one is built from the backend and the seed; a caller-supplied
      generator is advanced by `n` draws per dimension.  A domain with no
      rows draws nothing and fails when the empty list of columns is
      stacked. */
  method CalculateSamplePoints(n: nat, dom: Domain, seed: Option<int>, rng: Rng?, entropy: RngFactory)
    returns (r: Result<Points, Error>)
    modifies rng
    ensures rng != null && seed.Some? ==> r == Failure(SeedAndRngConflict) && rng.position == old(rng.position)
    ensures |dom.bounds| == 0 && (rng == null || seed.None?) ==> r == Failure(NothingToStack)
    ensures rng != null && seed.None? ==> rng.position == old(rng.position) + |dom.bounds| * n
    ensures rng != null && seed.None? && |dom.bounds| >= 1 ==>
      r == Success(SamplePoints(n, dom, rng.draws, old(rng.position)))
    ensures rng == null && |dom.bounds| >= 1 ==>
      r == Success(SamplePoints(n, dom, entropy(dom.backend, seed), 0))
  {
    var gen: Rng;
    if rng == null {
      gen := new Rng(entropy(dom.backend, seed));
    } else if seed.Some? {
      return Failure(SeedAndRngConflict);
    } else {
      gen := rng;
    }
    ghost var start := gen.position;
    var dim := |dom.bounds|;
    var columns: seq<seq<real>> := [];
    var d := 0;
    while d < dim
      invariant 0 <= d <= dim
      invariant gen == rng || fresh(gen)
      invariant gen.position == start + d * n
      invariant |columns| == d
      invariant forall k :: 0 <= k < d ==> columns[k] == Column(n, dom.bounds[k], gen.draws, start + k * n)
    {
      var b := dom.bounds[d];
      var u := gen.Uniform(n);
      var column := ScaleAll(u, b);
      columns := columns + [column];
      d := d + 1;
    }
    if dim == 0 {
      return Failure(NothingToStack);
    }
    var points := Stack(columns, n);
    StackedColumnsArePoints(columns, n, dom, gen.draws, start);
    r := Success(points);
  }

  /** Stacking the columns drawn one dimension after another gives the
      sampler's table. */
  lemma StackedColumnsArePoints(columns: seq<seq<real>>, n: nat, dom: Domain, s: Stream, start: nat)
    requires |columns| == |dom.bounds| >= 1
    requires forall k :: 0 <= k < |columns| ==> |columns[k]| == n
    requires forall k :: 0 <= k < |columns| ==> columns[k] == Column(n, dom.bounds[k], s, start + k * n)
    ensures Stack(columns, n) == SamplePoints(n, dom, s, start)
  {
    var points := Stack(columns, n);
    forall i | 0 <= i < n
      ensures points[i] == SamplePoints(n, dom, s, start)[i]
    {
      forall k | 0 <= k < |columns|
        ensures points[i][k] == Scale(s(start + k * n + i), dom.bounds[k])
      {
        assert points[i][k] == columns[k][i];
      }
    }
  }

  /** Every coordinate lies within its dimension's bounds. */
  lemma {:induction false} SamplesInBox(n: nat, dom: Domain, s: Stream, start: nat)
    requires WellFormed(dom)
    ensures forall i, d :: 0 <= i < n && 0 <= d < |dom.bounds| ==>
      dom.bounds[d].lower <= SamplePoints(n, dom, s, start)[i][d] <= dom.bounds[d].upper
  {
    forall i, d | 0 <= i < n && 0 <= d < |dom.bounds|
      ensures dom.bounds[d].lower <= SamplePoints(n, dom, s, start)[i][d] <= dom.bounds[d].upper
    {
      ScaleWithin(s(start + d * n + i), dom.bounds[d]);
    }
  }

  /** A draw in [0, 1] scales into [lower, upper]. */
  lemma ScaleWithin(u: Unit, b: Bound)
    requires b.lower <= b.upper
    ensures b.lower <= Scale(u, b) <= b.upper
  {
    var w := b.upper - b.lower;
    ProductNonNegative(u, w);
    ProductNonNegative(1.0 - u, w);
    assert w - u * w == (1.0 - u) * w;
  }

  lemma ProductNonNegative(x: real, y: real)
    requires 0.0 <= x && 0.0 <= y
    ensures 0.0 <= x * y
  {
  }

  /** Column `d` of the table is made of stream positions
      `start + d*n .. start + (d+1)*n - 1`, in order. */
  lemma {:induction false} ColumnUsesItsDraws(n: nat, dom: Domain, s: Stream, start: nat, d: nat)
    requires d < |dom.bounds|
    ensures seq(n, i requires 0 <= i < n => SamplePoints(n, dom, s, start)[i][d])
         == Column(n, dom.bounds[d], s, start + d * n)
  {
    var p := SamplePoints(n, dom, s, start);
    forall i | 0 <= i < n
      ensures p[i][d] == Column(n, dom.bounds[d], s, start + d * n)[i]
    {
    }
  }

  /** The table depends on nothing but the `|dom| * n` draws it consumes:
      two streams that agree on that window give identical points (and so
      the same seed gives the same points). */
  lemma {:induction false} PointsDependOnlyOnWindow(n: nat, dom: Domain, s1: Stream, start1: nat, s2: Stream, start2: nat)
    requires Window(s1, start1, |dom.bounds| * n) == Window(s2, start2, |dom.bounds| * n)
    ensures SamplePoints(n, dom, s1, start1) == SamplePoints(n, dom, s2, start2)
  {
    var p1, p2 := SamplePoints(n, dom, s1, start1), SamplePoints(n, dom, s2, start2);
    forall i, d | 0 <= i < n && 0 <= d < |dom.bounds|
      ensures p1[i][d] == p2[i][d]
    {
      DrawIndexInWindow(n, |dom.bounds|, i, d);
      assert Window(s1, start1, |dom.bounds| * n)[d * n + i] == Window(s2, start2, |dom.bounds| * n)[d * n + i];
    }
    assert forall i :: 0 <= i < n ==> p1[i] == p2[i];
  }

  /** Draw `d*n + i` of a `dim`-by-`n` table lies inside the window. */
  lemma DrawIndexInWindow(n: nat, dim: nat, i: nat, d: nat)
    requires i < n && d < dim
    ensures 0 <= d * n && d * n + i < dim * n
  {
    assert (d + 1) * n <= dim * n;
  }
}
