/** The Monte Carlo integrator: the direct `integrate` path and the
    compilation dispatcher `jit_integrate` with its per-instance caches. */
module MonteCarloIntegrator {
  import opened Common
  import opened Random
  import opened BaseIntegration
  import opened IntegrationUtils
  import opened MonteCarloSampling
  import opened MonteCarloReduction

  // ---------------------------------------------------------------------
  // The pipeline: sample, evaluate, reduce
  // ---------------------------------------------------------------------

  /** The estimate of the three-stage pipeline on `n` points drawn from
      stream `s` at position `start`: sample, evaluate the integrand once on
      the whole batch, reduce. */
  function Estimate(fn: Integrand, n: nat, dom: Domain, s: Stream, start: nat): Scalar {
    CalculateResult(EvaluateIntegrand(fn, SamplePoints(n, dom, s, start)).0, dom)
  }

  /** The integrand that is `c` at every point. */
  function ConstantIntegrand(c: real): Integrand {
    p => seq(|p|, _ => c)
  }

  /** A constant integrand gives exactly `c` times the volume, for every
      positive number of points and every stream of draws. */
  lemma ConstantIntegrandExact(c: real, n: nat, dom: Domain, s: Stream, start: nat)
    requires n >= 1
    ensures Estimate(ConstantIntegrand(c), n, dom, s, start) == Real(c * Volume(dom.bounds))
  {
    var values := ConstantIntegrand(c)(SamplePoints(n, dom, s, start));
    assert |values| == n;
    ConstantValuesGiveVolume(values, dom, c);
  }

  /** The constant 1 over [[0, 1]] with 10 points gives 1, and the constant
      2 over [[0, 2], [0, 3]] gives 12 with any positive number of points. */
  lemma ConstantExamples(n: nat, b: Backend, s: Stream, start: nat)
    requires n >= 1
    ensures Estimate(ConstantIntegrand(1.0), 10, Domain([Bound(0.0, 1.0)], b), s, start) == Real(1.0)
    ensures Estimate(ConstantIntegrand(2.0), n, Domain([Bound(0.0, 2.0), Bound(0.0, 3.0)], b), s, start) == Real(12.0)
  {
    ConstantIntegrandExact(1.0, 10, Domain([Bound(0.0, 1.0)], b), s, start);
    VolumeOfTwoByThree();
    ConstantIntegrandExact(2.0, n, Domain([Bound(0.0, 2.0), Bound(0.0, 3.0)], b), s, start);
  }

  /** The estimate is a function of the draws it consumes: two streams that
      agree on its window of `|dom| * n` draws give the same estimate, so a
      fixed seed gives a reproducible result. */
  lemma EstimateDependsOnlyOnWindow(fn: Integrand, n: nat, dom: Domain, s1: Stream, start1: nat, s2: Stream, start2: nat)
    requires Window(s1, start1, |dom.bounds| * n) == Window(s2, start2, |dom.bounds| * n)
    ensures Estimate(fn, n, dom, s1, start1) == Estimate(fn, n, dom, s2, start2)
  {
    PointsDependOnlyOnWindow(n, dom, s1, start1, s2, start2);
  }

  // ---------------------------------------------------------------------
  // Compiled stages and compiled integrate functions
  // ---------------------------------------------------------------------

  /** The two stages the dispatcher compiles. */
  datatype Stage = SampleStage | ResultStage

  /** A backend-compiled wrapper around one stage, as returned by
      `tf.function`, `jax.jit` or `torch.jit.trace`.  The compilers are
      opaque: a wrapper is a new object tagged with its compiler and its
      stage, and calling it computes what the wrapped stage computes. */
  class JitStage {
    const compiler: Backend
    const stage: Stage

    constructor (compiler: Backend, stage: Stage)
      ensures this.compiler == compiler && this.stage == stage
    {
      this.compiler := compiler;
      this.stage := stage;
    }
  }

  /** The returned `compiled_integrate(fn, integration_domain)` closure: it
      captures `N`, `seed`, `rng` and the two compiled stages. */
  class CompiledIntegrate {
    const n: nat
    const seed: Option<int>
    const rng: Rng?
    const step1: JitStage
    const step3: JitStage

    /** Step 1 wraps the sampler and step 3 the reduction, both built by
        the same compiler. */
    ghost predicate Valid() {
      step1.stage == SampleStage && step3.stage == ResultStage && step1.compiler == step3.compiler
    }

    constructor (n: nat, seed: Option<int>, rng: Rng?, step1: JitStage, step3: JitStage)
      requires step1.stage == SampleStage && step3.stage == ResultStage && step1.compiler == step3.compiler
      ensures Valid()
      ensures this.n == n && this.seed == seed && this.rng == rng
      ensures this.step1 == step1 && this.step3 == step3
    {
      this.n := n;
      this.seed := seed;
      this.rng := rng;
      this.step1 := step1;
      this.step3 := step3;
    }

    /** Sample through step 1, evaluate the integrand uncompiled, reduce
        through step 3 on the same domain; the evaluation count is dropped.
        The domain is not validated: a seed together with a generator is
        refused only here, when sampling, and so is a domain with no rows. */
    method Call(fn: Integrand, dom: Domain, entropy: RngFactory) returns (r: Result<Scalar, Error>)
      requires Valid()
      modifies rng
      ensures rng != null && seed.Some? ==>
        r == Failure(SeedAndRngConflict) && rng.position == old(rng.position)
      ensures |dom.bounds| == 0 && (rng == null || seed.None?) ==> r == Failure(NothingToStack)
      ensures rng != null && seed.None? ==> rng.position == old(rng.position) + |dom.bounds| * n
      ensures rng != null && seed.None? && |dom.bounds| >= 1 ==>
        r == Success(Estimate(fn, n, dom, rng.draws, old(rng.position)))
      ensures rng == null && |dom.bounds| >= 1 ==>
        r == Success(Estimate(fn, n, dom, entropy(dom.backend, seed), 0))
    {
      var sampled := CalculateSamplePoints(n, dom, seed, rng, entropy);
      if sampled.Failure? {
        return Failure(sampled.error);
      }
      var (values, _) := EvaluateIntegrand(fn, sampled.value);
      r := Success(CalculateResult(values, dom));
    }
  }

  /** The torch `lazy_compiled_integrate` closure: it captures `N`, `seed`,
      `rng` and the normalised domain, and a one-slot cache that holds the
      traced `compiled_integrate` once the first call has built it. */
  class LazyCompiledIntegrate {
    const n: nat
    const seed: Option<int>
    const rng: Rng?
    const domain: Domain
    var compiledFunc: CompiledIntegrate?   // compiled_func[0]

    /** A filled slot holds a torch-traced function over the captured
        arguments. */
    ghost predicate Valid()
      reads this
    {
      compiledFunc != null ==>
        && compiledFunc.Valid()
        && compiledFunc.step1.compiler == Torch
        && compiledFunc.n == n && compiledFunc.seed == seed && compiledFunc.rng == rng
    }

    constructor (n: nat, seed: Option<int>, rng: Rng?, domain: Domain)
      ensures Valid()
      ensures this.n == n && this.seed == seed && this.rng == rng && this.domain == domain
      ensures compiledFunc == null
    {
      this.n := n;
      this.seed := seed;
      this.rng := rng;
      this.domain := domain;
      compiledFunc := null;
    }

    /** `do_compile(example_integrand)`: trace step 1, which runs it once on
        the captured domain, run the traced step 1 once more and evaluate the
        example integrand on its points to get an example input for step 3,
        then trace step 3.  Both runs of step 1 consume draws of a
        caller-supplied generator; tracing step 3 draws nothing. */
    method DoCompile(exampleFn: Integrand, entropy: RngFactory) returns (r: Result<CompiledIntegrate, Error>)
      modifies rng
      ensures r.Success? ==>
        && fresh(r.value) && r.value.Valid() && r.value.step1.compiler == Torch
        && r.value.n == n && r.value.seed == seed && r.value.rng == rng
      ensures rng != null && seed.Some? ==>
        r == Failure(SeedAndRngConflict) && rng.position == old(rng.position)
      ensures |domain.bounds| == 0 && (rng == null || seed.None?) ==> r == Failure(NothingToStack)
      ensures |domain.bounds| >= 1 && (rng == null || seed.None?) ==> r.Success?
      ensures rng != null && seed.None? ==> rng.position == old(rng.position) + 2 * (|domain.bounds| * n)
    {
      var step1 := new JitStage(Torch, SampleStage);
      var traced := CalculateSamplePoints(n, domain, seed, rng, entropy);   // the run torch.jit.trace records
      if traced.Failure? {
        return Failure(traced.error);
      }
      var example := CalculateSamplePoints(n, domain, seed, rng, entropy);
      var (exampleValues, _) := EvaluateIntegrand(exampleFn, example.value);
      var step3 := new JitStage(Torch, ResultStage);
      var compiled := new CompiledIntegrate(n, seed, rng, step1, step3);
      r := Success(compiled);
    }

    /** `lazy_compiled_integrate(fn, integration_domain)`: compile on the
        first call, with `fn` as the example integrand, and reuse the stored
        function on every later call.  The slot is filled at most once and
        never changes afterwards. */
    method Call(fn: Integrand, dom: Domain, entropy: RngFactory) returns (r: Result<Scalar, Error>)
      requires Valid()
      modifies this, rng
      ensures Valid()
      ensures old(compiledFunc) != null ==> compiledFunc == old(compiledFunc)
      ensures old(compiledFunc) == null && r.Success? ==> compiledFunc != null && fresh(compiledFunc)
      ensures rng != null && seed.Some? ==>
        && r == Failure(SeedAndRngConflict) && compiledFunc == old(compiledFunc)
        && rng.position == old(rng.position)
      ensures old(compiledFunc) == null && |domain.bounds| == 0 && (rng == null || seed.None?) ==>
        && r == Failure(NothingToStack) && compiledFunc == null
        && (rng != null ==> rng.position == old(rng.position))
      ensures (old(compiledFunc) != null || |domain.bounds| >= 1) && rng != null && seed.None? ==>
        var start := old(rng.position) + (if old(compiledFunc) == null then 2 * (|domain.bounds| * n) else 0);
        && compiledFunc != null
        && rng.position == start + |dom.bounds| * n
        && (|dom.bounds| >= 1 ==> r == Success(Estimate(fn, n, dom, rng.draws, start)))
        && (|dom.bounds| == 0 ==> r == Failure(NothingToStack))
      ensures (old(compiledFunc) != null || |domain.bounds| >= 1) && rng == null ==>
        && compiledFunc != null
        && (|dom.bounds| >= 1 ==> r == Success(Estimate(fn, n, dom, entropy(dom.backend, seed), 0)))
        && (|dom.bounds| == 0 ==> r == Failure(NothingToStack))
    {
      if compiledFunc == null {
        var built := DoCompile(fn, entropy);
        if built.Failure? {
          return Failure(built.error);
        }
        compiledFunc := built.value;
      }
      r := compiledFunc.Call(fn, dom, entropy);
    }
  }

  /** What `jit_integrate` returns: for tensorflow and jax a function over
      the cached compiled stages, for torch the lazily compiling one. */
  datatype JitFunction = Eager(compiled: CompiledIntegrate) | Lazy(lazy: LazyCompiledIntegrate)

  /** A pair of cache attributes is either absent or holds the sampler and
      the reduction compiled by `compiler`. */
  ghost predicate CachePair(samplePoints: JitStage?, result: JitStage?, compiler: Backend) {
    && (samplePoints == null <==> result == null)
    && (samplePoints != null ==>
         && samplePoints.compiler == compiler && samplePoints.stage == SampleStage
         && result.compiler == compiler && result.stage == ResultStage)
  }

  // ---------------------------------------------------------------------
  // The integrator
  // ---------------------------------------------------------------------

  /** `MonteCarlo`, a `BaseIntegrator` whose base state lives in `base`. */
  class MonteCarlo {
    const base: BaseIntegrator
    var tfSamplePoints: JitStage?    // _tf_jit_calculate_sample_points
    var tfResult: JitStage?          // _tf_jit_calculate_result
    var jaxSamplePoints: JitStage?   // _jax_jit_calculate_sample_points
    var jaxResult: JitStage?         // _jax_jit_calculate_result

    ghost predicate Valid()
      reads this
    {
      CachePair(tfSamplePoints, tfResult, Tensorflow) && CachePair(jaxSamplePoints, jaxResult, Jax)
    }

    constructor ()
      ensures Valid() && fresh(base)
      ensures base.nrOfFevals == 0 && base.convergenceOrder == -1
      ensures tfSamplePoints == null && jaxSamplePoints == null
    {
      base := new BaseIntegrator();
      tfSamplePoints, tfResult := null, null;
      jaxSamplePoints, jaxResult := null, null;
    }

    /** `integrate`: validate, normalise the domain, sample, evaluate,
        reduce, and store the number of evaluated points in the counter.
        Nothing is drawn and the counter is untouched when validation or
        the seed/generator rule fails. */
    method Integrate(entropy: RngFactory, fn: Integrand, dim: int, n: PyNumber := PyInt(1000),
                     domain: Option<DomainArg> := None, seed: Option<int> := None, rng: Rng? := null,
                     backend: Backend := Torch)
      returns (r: Result<Scalar, Error>)
      modifies base`nrOfFevals, rng
      ensures Verdict(Some(dim), Some(n), PairsOf(domain)).Fail? ==>
        && r == Failure(InvalidInput(Verdict(Some(dim), Some(n), PairsOf(domain)).violation))
        && base.nrOfFevals == old(base.nrOfFevals)
        && (rng != null ==> rng.position == old(rng.position))
      ensures Verdict(Some(dim), Some(n), PairsOf(domain)) == Pass && rng != null && seed.Some? ==>
        && r == Failure(SeedAndRngConflict)
        && base.nrOfFevals == old(base.nrOfFevals) && rng.position == old(rng.position)
      ensures Verdict(Some(dim), Some(n), PairsOf(domain)) == Pass && rng != null && seed.None? ==>
        var dom := SetupIntegrationDomain(dim as nat, domain, backend);
        && r == Success(Estimate(fn, n.i as nat, dom, rng.draws, old(rng.position)))
        && base.nrOfFevals == n.i
        && rng.position == old(rng.position) + dim * n.i
      ensures Verdict(Some(dim), Some(n), PairsOf(domain)) == Pass && rng == null ==>
        var dom := SetupIntegrationDomain(dim as nat, domain, backend);
        && r == Success(Estimate(fn, n.i as nat, dom, entropy(dom.backend, seed), 0))
        && base.nrOfFevals == n.i
    {
      var check := CheckInputs(Some(dim), Some(n), PairsOf(domain));
      if check.Fail? {
        return Failure(InvalidInput(check.violation));
      }
      var count := n.i as nat;
      var dom := SetupIntegrationDomain(dim as nat, domain, backend);
      var sampled := CalculateSamplePoints(count, dom, seed, rng, entropy);
      if sampled.Failure? {
        return Failure(sampled.error);
      }
      var (values, evaluated) := EvaluateIntegrand(fn, sampled.value);
      base.nrOfFevals := evaluated;
      r := Success(CalculateResult(values, dom));
    }

    /** `jit_integrate`: validate and normalise like `integrate`, then
        dispatch on the domain's backend.  Tensorflow and jax wrap both
        stages once per instance and reuse the wrappers on later calls;
        torch defers all compilation to the first call of the returned
        function; every other backend is refused.  No cache changes on a
        refusal. */
    method JitIntegrate(dim: int, n: PyNumber := PyInt(1000), domain: Option<DomainArg> := None,
                        seed: Option<int> := None, rng: Rng? := null, backend: Backend := Torch)
      returns (r: Result<JitFunction, Error>)
      requires Valid()
      modifies this
      ensures Valid()
      ensures Verdict(Some(dim), Some(n), PairsOf(domain)).Fail? ==>
        r == Failure(InvalidInput(Verdict(Some(dim), Some(n), PairsOf(domain)).violation)) && unchanged(this)
      ensures Verdict(Some(dim), Some(n), PairsOf(domain)) == Pass ==>
        var dom := SetupIntegrationDomain(dim as nat, domain, backend);
        && (r.Success? <==> dom.backend in {Tensorflow, Jax, Torch})
        && (r.Failure? ==> r.error == CompilationNotImplemented(dom.backend) && unchanged(this))
        && (dom.backend == Torch ==>
              && r.Success? && r.value.Lazy? && fresh(r.value.lazy) && unchanged(this)
              && r.value.lazy.compiledFunc == null && r.value.lazy.domain == dom
              && r.value.lazy.n == n.i && r.value.lazy.seed == seed && r.value.lazy.rng == rng)
        && (dom.backend == Tensorflow ==>
              && r.Success? && r.value.Eager? && fresh(r.value.compiled)
              && r.value.compiled.step1 == tfSamplePoints && r.value.compiled.step3 == tfResult
              && r.value.compiled.n == n.i && r.value.compiled.seed == seed && r.value.compiled.rng == rng
              && jaxSamplePoints == old(jaxSamplePoints) && jaxResult == old(jaxResult))
        && (dom.backend == Jax ==>
              && r.Success? && r.value.Eager? && fresh(r.value.compiled)
              && r.value.compiled.step1 == jaxSamplePoints && r.value.compiled.step3 == jaxResult
              && r.value.compiled.n == n.i && r.value.compiled.seed == seed && r.value.compiled.rng == rng
              && tfSamplePoints == old(tfSamplePoints) && tfResult == old(tfResult))
      ensures old(tfSamplePoints) != null ==> tfSamplePoints == old(tfSamplePoints) && tfResult == old(tfResult)
      ensures old(tfSamplePoints) == null && tfSamplePoints != null ==> fresh(tfSamplePoints) && fresh(tfResult)
      ensures old(jaxSamplePoints) != null ==> jaxSamplePoints == old(jaxSamplePoints) && jaxResult == old(jaxResult)
      ensures old(jaxSamplePoints) == null && jaxSamplePoints != null ==> fresh(jaxSamplePoints) && fresh(jaxResult)
    {
      var check := CheckInputs(Some(dim), Some(n), PairsOf(domain));
      if check.Fail? {
        return Failure(InvalidInput(check.violation));
      }
      var count := n.i as nat;
      var dom := SetupIntegrationDomain(dim as nat, domain, backend);
      match dom.backend {
        case Tensorflow =>
          if tfSamplePoints == null {
            tfSamplePoints := new JitStage(Tensorflow, SampleStage);
            tfResult := new JitStage(Tensorflow, ResultStage);
          }
          var compiled := new CompiledIntegrate(count, seed, rng, tfSamplePoints, tfResult);
          r := Success(Eager(compiled));
        case Jax =>
          if jaxSamplePoints == null {
            jaxSamplePoints := new JitStage(Jax, SampleStage);
            jaxResult := new JitStage(Jax, ResultStage);
          }
          var compiled := new CompiledIntegrate(count, seed, rng, jaxSamplePoints, jaxResult);
          r := Success(Eager(compiled));
        case Torch =>
          var lazy := new LazyCompiledIntegrate(count, seed, rng, dom);
          r := Success(Lazy(lazy));
        case _ =>
          r := Failure(CompilationNotImplemented(dom.backend));
      }
    }
  }

  /** Two `jit_integrate` calls on one instance for a tensorflow or jax
      domain hand out functions over the very same compiled stages. */
  method JitTwiceSharesStages(mc: MonteCarlo, dim: int, n: PyNumber, domain: Option<DomainArg>,
                              seed: Option<int>, rng: Rng?, backend: Backend)
    returns (first: Result<JitFunction, Error>, second: Result<JitFunction, Error>)
    requires mc.Valid()
    modifies mc
    ensures first.Success? && first.value.Eager? ==>
      && second.Success? && second.value.Eager?
      && second.value.compiled.step1 == first.value.compiled.step1
      && second.value.compiled.step3 == first.value.compiled.step3
  {
    first := mc.JitIntegrate(dim, n, domain, seed, rng, backend);
    second := mc.JitIntegrate(dim, n, domain, seed, rng, backend);
  }

  /** `integrate(fn, dim)` with every other argument left at its default:
      1000 points over [-1, 1]^dim on torch, from a fresh unseeded
      generator. */
  method IntegrateWithDefaults(mc: MonteCarlo, fn: Integrand, dim: int, entropy: RngFactory)
    returns (r: Result<Scalar, Error>)
    modifies mc.base`nrOfFevals
    ensures dim < 1 ==> r == Failure(InvalidInput(DimTooSmall))
    ensures dim >= 1 ==>
      && r == Success(Estimate(fn, 1000, Domain(seq(dim, _ => Bound(-1.0, 1.0)), Torch), entropy(Torch, None), 0))
      && mc.base.nrOfFevals == 1000
  {
    r := mc.Integrate(entropy, fn, dim);
    assert dim >= 1 ==> SetupIntegrationDomain(dim as nat, None, Torch) == Domain(seq(dim, _ => Bound(-1.0, 1.0)), Torch);
  }

  /** With a seed and no caller-supplied generator, jit compilation succeeds
      for a valid input on tensorflow, jax and torch, and the compiled
      function called on the normalised domain gives the same result as the
      direct `integrate`. */
  method CompiledAgreesWithDirect(mc: MonteCarlo, fn: Integrand, dim: int, n: PyNumber,
                                  domain: Option<DomainArg>, seed: int, backend: Backend, entropy: RngFactory)
    returns (compiled: Result<Scalar, Error>, direct: Result<Scalar, Error>)
    requires mc.Valid()
    modifies mc, mc.base`nrOfFevals
    ensures Verdict(Some(dim), Some(n), PairsOf(domain)) == Pass ==> direct.Success?
    ensures compiled.Success? ==> compiled == direct
    ensures Verdict(Some(dim), Some(n), PairsOf(domain)) == Pass &&
            SetupIntegrationDomain(dim as nat, domain, backend).backend in {Tensorflow, Jax, Torch} ==>
      compiled.Success? && compiled == direct
  {
    compiled := Failure(NotImplemented);
    var jit := mc.JitIntegrate(dim, n, domain, Some(seed), null, backend);
    direct := mc.Integrate(entropy, fn, dim, n, domain, Some(seed), null, backend);
    if jit.Success? {
      var dom := SetupIntegrationDomain(dim as nat, domain, backend);
      match jit.value {
        case Eager(c) =>
          compiled := c.Call(fn, dom, entropy);
        case Lazy(l) =>
          compiled := l.Call(fn, dom, entropy);
      }
    }
  }
}
