/** The integrator base: its evaluation counter, the abstract `integrate`
    and the input validator shared by every integrator. */
module BaseIntegration {
  import opened Common

  // ---------------------------------------------------------------------
  // Input validation
  // ---------------------------------------------------------------------

  /** A bound pair is valid when it has exactly two entries and the lower
      one does not exceed the upper one (a degenerate pair is allowed). */
  predicate PairOk(p: seq<real>) {
    |p| == 2 && p[0] <= p[1]
  }

  /** A sample count is valid when it is a Python `int` of at least 1. */
  predicate SampleCountOk(n: PyNumber) {
    n.PyInt? && n.i >= 1
  }

  /** What `_check_inputs` accepts, rule by rule; every rule is skipped when
      its argument is absent, and the length rule needs both `dim` and the
      domain. */
  predicate InputsValid(dim: Option<int>, n: Option<PyNumber>, domain: Option<seq<seq<real>>>) {
    && (dim.Some? ==> dim.value >= 1)
    && (dim.Some? && domain.Some? ==> dim.value == |domain.value|)
    && (n.Some? ==> SampleCountOk(n.value))
    && (domain.Some? ==> forall i :: 0 <= i < |domain.value| ==> PairOk(domain.value[i]))
  }

  /** The outcome of `_check_inputs`: it returns, or it raises a ValueError
      naming the violated rule. */
  datatype Check = Pass | Fail(violation: Violation)

  /** The outcome of scanning the bound pairs from index `from` on: the
      first pair that is malformed decides. */
  function BoundsVerdict(pairs: seq<seq<real>>, from: nat): Check
    requires from <= |pairs|
    decreases |pairs| - from
  {
    if from == |pairs| then Pass
    else if |pairs[from]| != 2 then Fail(BadBoundLength(from))
    else if pairs[from][0] > pairs[from][1] then Fail(BadBoundOrder(from))
    else BoundsVerdict(pairs, from + 1)
  }

  /** The outcome of `_check_inputs(dim, N, integration_domain)`, checking
      the rules in the order the validator does. */
  function Verdict(dim: Option<int>, n: Option<PyNumber>, domain: Option<seq<seq<real>>>): (r: Check)
    ensures r == Pass <==> InputsValid(dim, n, domain)
  {
    if dim.Some? && dim.value < 1 then Fail(DimTooSmall)
    else if dim.Some? && domain.Some? && dim.value != |domain.value| then Fail(DimMismatch)
    else if n.Some? && (n.value.Value() < 1.0 || !n.value.PyInt?) then Fail(BadSampleCount)
    else if domain.Some? then
      BoundsPassIff(domain.value, 0);
      BoundsVerdict(domain.value, 0)
    else Pass
  }

  /** `_check_inputs`: the loop over the bound pairs stops at the first
      malformed one.  It reads and changes no state. */
  method CheckInputs(dim: Option<int>, n: Option<PyNumber>, domain: Option<seq<seq<real>>>)
    returns (r: Check)
    ensures r == Verdict(dim, n, domain)
    ensures r == Pass <==> InputsValid(dim, n, domain)
  {
    if dim.Some? {
      if dim.value < 1 {
        return Fail(DimTooSmall);
      }
      if domain.Some? && dim.value != |domain.value| {
        return Fail(DimMismatch);
      }
    }
    if n.Some? && (n.value.Value() < 1.0 || !n.value.PyInt?) {
      return Fail(BadSampleCount);
    }
    if domain.Some? {
      var pairs := domain.value;
      var i := 0;
      while i < |pairs|
        invariant 0 <= i <= |pairs|
        invariant BoundsVerdict(pairs, 0) == BoundsVerdict(pairs, i)
      {
        if |pairs[i]| != 2 {
          return Fail(BadBoundLength(i));
        }
        if pairs[i][0] > pairs[i][1] {
          return Fail(BadBoundOrder(i));
        }
        i := i + 1;
      }
    }
    return Pass;
  }

  /** The scan passes exactly when every remaining pair is valid. */
  lemma {:induction false} BoundsPassIff(pairs: seq<seq<real>>, from: nat)
    requires from <= |pairs|
    ensures BoundsVerdict(pairs, from) == Pass <==> forall i :: from <= i < |pairs| ==> PairOk(pairs[i])
    decreases |pairs| - from
  {
    if from < |pairs| {
      BoundsPassIff(pairs, from + 1);
    }
  }

  /** When the scan fails it names the first malformed pair, and says
      whether its length or its order is wrong. */
  lemma {:induction false} BoundsFailNamesFirstBadPair(pairs: seq<seq<real>>, from: nat)
    requires from <= |pairs|
    requires BoundsVerdict(pairs, from).Fail?
    ensures var v := BoundsVerdict(pairs, from).violation;
      && (v.BadBoundLength? || v.BadBoundOrder?)
      && from <= v.index < |pairs|
      && !PairOk(pairs[v.index])
      && (v.BadBoundLength? <==> |pairs[v.index]| != 2)
      && forall j :: from <= j < v.index ==> PairOk(pairs[j])
    decreases |pairs| - from
  {
    if |pairs[from]| == 2 && pairs[from][0] <= pairs[from][1] {
      BoundsFailNamesFirstBadPair(pairs, from + 1);
    }
  }

  /** Conversely, the first malformed pair is the one the scan reports. */
  lemma {:induction false} FirstBadPairIsReported(pairs: seq<seq<real>>, from: nat, k: nat)
    requires from <= k < |pairs|
    requires !PairOk(pairs[k])
    requires forall j :: from <= j < k ==> PairOk(pairs[j])
    ensures BoundsVerdict(pairs, from)
         == if |pairs[k]| != 2 then Fail(BadBoundLength(k)) else Fail(BadBoundOrder(k))
    decreases k - from
  {
    if from < k {
      FirstBadPairIsReported(pairs, from + 1, k);
    }
  }

  /** A given `dim` below 1 is rejected before anything else is looked at. */
  lemma RejectsSmallDim(dim: int, n: Option<PyNumber>, domain: Option<seq<seq<real>>>)
    requires dim < 1
    ensures Verdict(Some(dim), n, domain) == Fail(DimTooSmall)
  {
  }

  /** With both `dim` and a domain given, a length mismatch is rejected;
      with `dim` absent, no length check happens at all. */
  lemma LengthCheckNeedsDim(dim: Option<int>, n: Option<PyNumber>, pairs: seq<seq<real>>)
    ensures dim.Some? && dim.value >= 1 && dim.value != |pairs|
        ==> Verdict(dim, n, Some(pairs)) == Fail(DimMismatch)
    ensures dim.None? ==> Verdict(dim, n, Some(pairs)) != Fail(DimMismatch)
    ensures dim.None? ==>
      (Verdict(dim, n, Some(pairs)) == Pass <==>
         (n.Some? ==> SampleCountOk(n.value)) && forall i :: 0 <= i < |pairs| ==> PairOk(pairs[i]))
  {
    if dim.None? && (n.Some? ==> SampleCountOk(n.value)) && Verdict(dim, n, Some(pairs)).Fail? {
      BoundsFailNamesFirstBadPair(pairs, 0);
    }
  }

  /** Once the dimension rules pass, a given sample count is rejected
      exactly when it is not an `int` of at least 1 (0, -5 and 1.5 among
      them); an absent sample count is not checked. */
  lemma {:induction false} SampleCountRule(dim: Option<int>, n: PyNumber, domain: Option<seq<seq<real>>>)
    requires dim.Some? ==> dim.value >= 1
    requires dim.Some? && domain.Some? ==> dim.value == |domain.value|
    ensures Verdict(dim, Some(n), domain) == Fail(BadSampleCount) <==> !SampleCountOk(n)
  {
    if SampleCountOk(n) && domain.Some? && Verdict(dim, Some(n), domain).Fail? {
      BoundsFailNamesFirstBadPair(domain.value, 0);
    }
  }

  /** The concrete sample counts 0, -5 and 1.5 and the boolean True are
      rejected. */
  lemma SampleCountExamples()
    ensures Verdict(None, Some(PyInt(0)), None) == Fail(BadSampleCount)
    ensures Verdict(None, Some(PyInt(-5)), None) == Fail(BadSampleCount)
    ensures Verdict(None, Some(PyFloat(1.5)), None) == Fail(BadSampleCount)
    ensures Verdict(None, Some(PyBool(true)), None) == Fail(BadSampleCount)
    ensures Verdict(None, Some(PyInt(1)), None) == Pass
  {
  }

  /** Once `dim` and `N` pass, the validator reports exactly the first
      malformed bound pair, by index and by the rule it breaks. */
  lemma {:induction false} BoundRule(dim: Option<int>, n: Option<PyNumber>, pairs: seq<seq<real>>, v: Violation)
    requires dim.Some? ==> dim.value >= 1 && dim.value == |pairs|
    requires n.Some? ==> SampleCountOk(n.value)
    ensures Verdict(dim, n, Some(pairs)) == Fail(v)
        <==> && (v.BadBoundLength? || v.BadBoundOrder?)
             && v.index < |pairs|
             && !PairOk(pairs[v.index])
             && (v.BadBoundLength? <==> |pairs[v.index]| != 2)
             && forall j :: 0 <= j < v.index ==> PairOk(pairs[j])
  {
    if Verdict(dim, n, Some(pairs)) == Fail(v) {
      BoundsFailNamesFirstBadPair(pairs, 0);
    }
    if (v.BadBoundLength? || v.BadBoundOrder?) && v.index < |pairs| && !PairOk(pairs[v.index])
       && forall j :: 0 <= j < v.index ==> PairOk(pairs[j]) {
      FirstBadPairIsReported(pairs, 0, v.index);
    }
  }

  /** Concrete bounds: the reversed pair [2, 1] and a three-element pair are
      rejected, a degenerate pair [x, x] is accepted, and `dim = 2` with a
      domain of three pairs is rejected. */
  lemma BoundExamples(x: real)
    ensures Verdict(Some(1), Some(PyInt(10)), Some([[2.0, 1.0]])) == Fail(BadBoundOrder(0))
    ensures Verdict(Some(1), None, Some([[0.0, 1.0, 2.0]])) == Fail(BadBoundLength(0))
    ensures Verdict(Some(1), Some(PyInt(1)), Some([[x, x]])) == Pass
    ensures Verdict(Some(2), None, Some([[0.0, 1.0], [0.0, 1.0], [0.0, 1.0]])) == Fail(DimMismatch)
  {
  }

  // ---------------------------------------------------------------------
  // The integrator base object
  // ---------------------------------------------------------------------

  /** The state every integrator carries.  The counter is a `nat`: it starts
      at 0 and `Eval` only adds to it. */
  class BaseIntegrator {
    var fn: Option<Integrand>              // _fn
    var dim: Option<int>                   // _dim
    var integrationDomain: Option<Domain>  // _integration_domain
    var nrOfFevals: nat                    // _nr_of_fevals
    var convergenceOrder: int              // _convergence_order

    /** A fresh integrator has counted no evaluations and has convergence
        order -1; the other attributes keep their class defaults (None). */
    constructor ()
      ensures nrOfFevals == 0 && convergenceOrder == -1
      ensures fn.None? && dim.None? && integrationDomain.None?
    {
      fn := None;
      dim := None;
      integrationDomain := None;
      nrOfFevals := 0;
      convergenceOrder := -1;
    }

    /** The base class has no integration rule of its own. */
    method Integrate() returns (r: Result<Scalar, Error>)
      ensures r == Failure(NotImplemented)
    {
      r := Failure(NotImplemented);
    }

    /** `_eval`: count the batch, then call the integrand on it.  The count
        goes up by the batch size even when `_fn` is still None and the call
        raises; no other attribute changes. */
    method Eval(points: Points) returns (r: Result<seq<real>, Error>)
      modifies this`nrOfFevals
      ensures nrOfFevals == old(nrOfFevals) + |points|
      ensures fn.Some? ==> r == Success(fn.value(points))
      ensures fn.None? ==> r == Failure(IntegrandNotCallable)
    {
      nrOfFevals := nrOfFevals + |points|;
      if fn.Some? {
        r := Success(fn.value(points));
      } else {
        r := Failure(IntegrandNotCallable);
      }
    }
  }
}
