/** The two collaborators of the Monte Carlo integrator that live in the
    integration utilities: domain normalisation and batched integrand
    evaluation.  Their source is not part of this model; they are given the
    behaviour the integrator relies on. */
module IntegrationUtils {
  import opened Common

  /** Normalise a validated domain argument into the canonical table.  With
      no domain the default box [-1, 1]^dim is used and the backend is the
      hint; a domain given as a backend tensor keeps that tensor's backend,
      and a domain given as a list takes the hint. */
  function SetupIntegrationDomain(dim: nat, domain: Option<DomainArg>, hint: Backend): (r: Domain)
    requires domain.Some? ==> forall i :: 0 <= i < |domain.value.pairs| ==> |domain.value.pairs[i]| == 2
    ensures domain.None? ==> |r.bounds| == dim && r.backend == hint
    ensures domain.None? ==> forall d :: 0 <= d < dim ==> r.bounds[d] == Bound(-1.0, 1.0)
    ensures domain.Some? ==> |r.bounds| == |domain.value.pairs|
    ensures domain.Some? ==> forall d :: 0 <= d < |r.bounds| ==>
      r.bounds[d] == Bound(domain.value.pairs[d][0], domain.value.pairs[d][1])
    ensures domain.Some? && domain.value.native.Some? ==> r.backend == domain.value.native.value
    ensures domain.Some? && domain.value.native.None? ==> r.backend == hint
  {
    match domain
    case None =>
      Domain(seq(dim, _ => Bound(-1.0, 1.0)), hint)
    case Some(arg) =>
      var bounds := seq(|arg.pairs|, d requires 0 <= d < |arg.pairs| => Bound(arg.pairs[d][0], arg.pairs[d][1]));
      Domain(bounds, if arg.native.Some? then arg.native.value else hint)
  }

  /** A domain built from pairs that passed validation is well formed, and
      so is the default box. */
  lemma SetupKeepsOrder(dim: nat, domain: Option<DomainArg>, hint: Backend)
    requires domain.Some? ==> forall i :: 0 <= i < |domain.value.pairs| ==>
      |domain.value.pairs[i]| == 2 && domain.value.pairs[i][0] <= domain.value.pairs[i][1]
    ensures WellFormed(SetupIntegrationDomain(dim, domain, hint))
  {
  }

  /** `evaluate_integrand`: one batched call of the integrand, returning the
      values and the number of points evaluated. */
  function EvaluateIntegrand(fn: Integrand, points: Points): (r: (seq<real>, nat))
    ensures r.1 == |points|
  {
    (fn(points), |points|)
  }
}
