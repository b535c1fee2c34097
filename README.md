# torchquad Monte Carlo integrator — a Dafny model

This project models the backend-independent core of torchquad's vanilla
Monte Carlo integrator. It covers:

- the input validator shared by all integrators;
- the evaluation counter of the integrator base;
- the sampler, which draws N points uniformly in an axis-aligned box, one
  dimension after another;
- the reduction, volume × mean of the integrand values;
- `jit_integrate`, the dispatcher that compiles the sampling and reduction
  stages for tensorflow, jax or torch. The tensorflow and jax wrappers are
  cached on the integrator instance and shared by every function it hands
  out. Torch compiles nothing up front: each `jit_integrate` call returns a
  new function that traces on its own first call and keeps the result in
  its own one-slot cache.

Numbers are Dafny `real`s. A random generator is a fixed stream of
uniform draws in [0, 1] plus a position that every draw advances. The
backend compilers are opaque. A compiled stage is a new object tagged
with its compiler and its stage, and calling it computes what the stage
computes. For the sampler this is an assumption of the model: it means a
compiled sampler without a generator builds a new one from `seed` on every
call. Torch tracing does not promise that; see "Left out".

Files and modules:

- `common.dfy` (`Common`): Python arguments (`PyNumber`, `DomainArg`), the
  canonical `Domain`, `Scalar` results (a real or NaN), and the `Error`s the
  integrator raises.
- `random.dfy` (`Random`): draws, streams and the `Rng` object.
- `base_integrator.dfy` (`BaseIntegration`): `_check_inputs` as the spec
  function `Verdict`, the looping method `CheckInputs` and their lemmas; the
  `BaseIntegrator` class (`__init__`, `integrate`, `_eval`).
- `integration_utils.dfy` (`IntegrationUtils`): the behaviour of the two
  collaborators the integrator calls, domain setup and batched evaluation.
- `sampling.dfy` (`MonteCarloSampling`): `calculate_sample_points`.
- `reduction.dfy` (`MonteCarloReduction`): `calculate_result`.
- `monte_carlo.dfy` (`MonteCarloIntegrator`): the `MonteCarlo` class with
  `integrate` and `jit_integrate`, and the closures `jit_integrate` returns,
  modelled as classes (`CompiledIntegrate`, `LazyCompiledIntegrate`).

Behaviour of the code worth knowing:

- `integrate` assigns the evaluation counter the number of points of the
  call (monte_carlo.py:52). It does not add to the old value, so across
  repeated `integrate` calls the counter is not cumulative. Only `_eval`
  adds to it.
- The seed-and-generator conflict is raised by the sampler, not by
  `jit_integrate` itself. For a compiled function it surfaces when the
  function is called: for torch, on the first call, during compilation.
  `jit_integrate` with both a seed and a generator returns a function
  without complaint.
- The function returned by `jit_integrate` does not validate the domain it
  is called with.
- A domain with no rows draws nothing and fails in the sampler, because
  `anp.stack` of an empty list of columns raises (monte_carlo.py:186). The
  validated entry points never reach this, since `dim` ≥ 1.
- Torch compilation runs the sampler twice: once inside `torch.jit.trace`
  (monte_carlo.py:128) and once for the example input (monte_carlo.py:131).
  A caller-supplied generator advances by 2·dim·N before the first compiled
  call draws its own points.

## Model

| member | source | states |
|---|---|---|
| `BaseIntegration.Verdict` | torchquad/integration/base_integrator.py:43-84 | validation passes iff `dim` ≥ 1 when given; `dim` equals the domain length when both are given; `N` is an int ≥ 1 when given; and every bound pair has length 2 with lower ≤ upper |
| `BaseIntegration.CheckInputs` | torchquad/integration/base_integrator.py:43-84 | the loop over bound pairs stops at the first bad pair and returns the same outcome as `Verdict`, i.e. Pass iff the inputs are valid; it reads and changes no state |
| `BaseIntegration.BoundsPassIff` | torchquad/integration/base_integrator.py:69-84 | the scan of the bound pairs passes iff every remaining pair has length 2 and lower ≤ upper |
| `BaseIntegration.BoundsFailNamesFirstBadPair` | torchquad/integration/base_integrator.py:69-84 | a failing scan names a bad pair, all pairs before it are valid, and it reports a length error iff that pair's length is not 2 |
| `BaseIntegration.FirstBadPairIsReported` | torchquad/integration/base_integrator.py:69-84 | conversely, the first bad pair is the one reported, as a length error if its length is not 2 and as an order error otherwise |
| `BaseIntegration.RejectsSmallDim` | torchquad/integration/base_integrator.py:55-57 | a given `dim` below 1 is rejected first, whatever the other arguments |
| `BaseIntegration.LengthCheckNeedsDim` | torchquad/integration/base_integrator.py:59-63 | with `dim` ≥ 1 given and a domain of another length the result is a mismatch error; with `dim` absent there is never a length error, and the verdict depends only on `N` and the pairs |
| `BaseIntegration.SampleCountRule` | torchquad/integration/base_integrator.py:65-67 | once the dimension rules pass, a given `N` is rejected iff it is not an int ≥ 1 |
| `BaseIntegration.SampleCountExamples` | torchquad/integration/base_integrator.py:65-67 | `N` = 0, -5, 1.5 and True are rejected; `N` = 1 is accepted |
| `BaseIntegration.BoundRule` | torchquad/integration/base_integrator.py:69-84 | once `dim` and `N` pass, the verdict is a bound error at index k iff pair k is the first bad pair, with the length/order kind matching the pair |
| `BaseIntegration.BoundExamples` | torchquad/integration/base_integrator.py:59-84 | [2, 1] is an order error, a three-element pair is a length error, a degenerate pair [x, x] is accepted, and `dim` = 2 with three pairs is a mismatch |
| `BaseIntegration.BaseIntegrator.constructor` | torchquad/integration/base_integrator.py:25-27 | a fresh integrator has counted 0 evaluations and has convergence order -1 |
| `BaseIntegration.BaseIntegrator.Integrate` | torchquad/integration/base_integrator.py:29-32 | the base `integrate` always fails with a not-implemented error |
| `BaseIntegration.BaseIntegrator.Eval` | torchquad/integration/base_integrator.py:34-41 | the counter rises by exactly the number of points, even when `_fn` is None and the call fails; the result is `_fn(points)`; no other field changes |
| `Random.Rng.Uniform` | torchquad/integration/monte_carlo.py:184 | a draw of `size` values returns the next `size` values of the stream and advances the position by `size` |
| `IntegrationUtils.SetupIntegrationDomain` | torchquad/integration/monte_carlo.py:49 | the default domain is [-1, 1] in each of `dim` dimensions on the hinted backend; a given domain keeps its pairs in order and its tensor's backend, or takes the hint |
| `IntegrationUtils.SetupKeepsOrder` | torchquad/integration/monte_carlo.py:49 | a domain set up from validated pairs, or the default one, has lower ≤ upper in every dimension |
| `Random.Rng.constructor` | torchquad/integration/monte_carlo.py:173 | a generator built on a stream starts reading it at position 0 |
| `IntegrationUtils.EvaluateIntegrand` | torchquad/integration/monte_carlo.py:52 | the integrand is called once on the whole batch, and the reported evaluation count is the number of points |
| `MonteCarloSampling.Stack` | torchquad/integration/monte_carlo.py:186 | stacking a non-empty list of N-long columns gives N rows, and row i, column d is entry i of column d; an empty list is not accepted |
| `MonteCarloSampling.CalculateSamplePoints` | torchquad/integration/monte_carlo.py:160-186 | a seed together with a generator fails and draws nothing. A domain with no rows draws nothing and fails at the stack. Otherwise the result is the N × dim table `SamplePoints`, drawn from the fresh seeded stream or from the caller's generator, which advances by dim·N |
| `MonteCarloSampling.StackedColumnsArePoints` | torchquad/integration/monte_carlo.py:179-186 | stacking the columns drawn in ascending dimension order, for a domain with at least one row, gives row i, column d = draw d·N + i scaled into bound d |
| `MonteCarloSampling.SamplesInBox` | torchquad/integration/monte_carlo.py:180-185 | on a well-formed domain every coordinate lies within its dimension's [lower, upper] |
| `MonteCarloSampling.ScaleWithin` | torchquad/integration/monte_carlo.py:181-184 | a draw in [0, 1] times (upper - lower) plus lower lies in [lower, upper] |
| `MonteCarloSampling.ColumnUsesItsDraws` | torchquad/integration/monte_carlo.py:180-185 | column d consists of stream positions d·N … (d+1)·N - 1, in order |
| `MonteCarloSampling.PointsDependOnlyOnWindow` | torchquad/integration/monte_carlo.py:172-186 | two streams that agree on the dim·N draws consumed give identical tables |
| `MonteCarloReduction.CalculateResult` | torchquad/integration/monte_carlo.py:188-204 | the result is NaN exactly when there are no values |
| `MonteCarloReduction.SumBetween` | torchquad/integration/monte_carlo.py:204 | values between lo and hi sum to between N·lo and N·hi |
| `MonteCarloReduction.SumConstant` | torchquad/integration/monte_carlo.py:204 | N copies of c sum to N·c |
| `MonteCarloReduction.VolumeNonNegative` | torchquad/integration/monte_carlo.py:199-200 | the product of the widths of a well-formed domain is not negative |
| `MonteCarloReduction.ConstantValuesGiveVolume` | torchquad/integration/monte_carlo.py:199-204 | constant values c give exactly c × volume, whatever N |
| `MonteCarloReduction.ResultBetween` | torchquad/integration/monte_carlo.py:199-204 | on a well-formed domain, values in [lo, hi] give a result in [lo × volume, hi × volume] |
| `MonteCarloReduction.ConstantTwoOverBox` | torchquad/integration/monte_carlo.py:199-204 | the constant 2 over [[0, 2], [0, 3]] gives 12 for any positive N |
| `MonteCarloIntegrator.ConstantIntegrandExact` | torchquad/integration/monte_carlo.py:49-53 | the sample → evaluate → reduce pipeline on a constant integrand c gives c × volume for every N ≥ 1 and every stream of draws |
| `MonteCarloIntegrator.ConstantExamples` | torchquad/integration/monte_carlo.py:49-53 | the constant 1 over [[0, 1]] with 10 points gives 1; the constant 2 over [[0, 2], [0, 3]] gives 12 for any N ≥ 1 |
| `MonteCarloIntegrator.EstimateDependsOnlyOnWindow` | torchquad/integration/monte_carlo.py:50-53 | the pipeline's result depends only on the dim·N draws it consumes, so the same seed gives the same result |
| `MonteCarloIntegrator.MonteCarlo.constructor` | torchquad/integration/monte_carlo.py:12-13 | a new integrator has counter 0, convergence order -1 and no compiled-stage attributes |
| `MonteCarloIntegrator.MonteCarlo.Integrate` | torchquad/integration/monte_carlo.py:15-53 | invalid inputs fail with the validator's error, and a seed with a generator fails; either way nothing is drawn and the counter is unchanged. Otherwise the result is the pipeline's estimate on the normalised domain and the counter is set to N. `N`, the domain, seed, generator and backend default to 1000, none, none, none and torch |
| `MonteCarloIntegrator.IntegrateWithDefaults` | torchquad/integration/monte_carlo.py:15-24 | `integrate(fn, dim)` fails for `dim` < 1; otherwise it estimates over [-1, 1]^dim on torch with 1000 points from an unseeded fresh generator and sets the counter to 1000 |
| `MonteCarloIntegrator.MonteCarlo.JitIntegrate` | torchquad/integration/monte_carlo.py:55-158 | invalid inputs fail with nothing cached. It succeeds iff the inferred backend is tensorflow, jax or torch, and otherwise fails with a not-implemented error. Tensorflow and jax wrappers are created only when absent and are reused afterwards. Torch returns a lazy function with an empty slot. `N` and the backend default to 1000 and torch |
| `MonteCarloIntegrator.JitStage.constructor` | torchquad/integration/monte_carlo.py:84-101 | a compiled wrapper records its compiler and the stage it wraps |
| `MonteCarloIntegrator.CompiledIntegrate.constructor` | torchquad/integration/monte_carlo.py:105-112 | the closure captures N, seed, generator and a sampling and a reduction stage of one compiler |
| `MonteCarloIntegrator.CompiledIntegrate.Call` | torchquad/integration/monte_carlo.py:105-110 | a compiled call samples, evaluates uncompiled and reduces on the same domain, giving the same estimate as the direct path; the evaluation count is discarded. A seed with a generator, or a domain with no rows, fails in the sampler |
| `MonteCarloIntegrator.LazyCompiledIntegrate.constructor` | torchquad/integration/monte_carlo.py:149-156 | the closure captures N, seed, generator and the normalised domain, and its one-slot cache starts empty |
| `MonteCarloIntegrator.LazyCompiledIntegrate.DoCompile` | torchquad/integration/monte_carlo.py:116-145 | compilation yields a fresh torch-traced function over the captured N, seed and generator. The trace run and the example run each consume dim·N draws of a caller's generator, 2·dim·N in all. It fails on a seed with a generator, and on a captured domain with no rows |
| `MonteCarloIntegrator.LazyCompiledIntegrate.Call` | torchquad/integration/monte_carlo.py:149-156 | the slot is filled on the first successful call and never changes afterwards; later calls reuse it. Every call returns the pipeline's estimate, read after the 2·dim·N draws of the first call's compilation. A failed compilation leaves the slot empty |
| `MonteCarloIntegrator.JitTwiceSharesStages` | torchquad/integration/monte_carlo.py:77-103 | two `jit_integrate` calls on one instance for tensorflow or jax give functions over the very same compiled stages |
| `MonteCarloIntegrator.CompiledAgreesWithDirect` | torchquad/integration/monte_carlo.py:15-156 | with a seed and no generator and valid inputs, the direct `integrate` succeeds; when the backend is tensorflow, jax or torch the compiled function succeeds too and gives the same result on the normalised domain |

## Left out

- The random generator's internals are left out. The model has an abstract stream of draws in [0, 1]. The stream of a generator built inside the sampler comes from a factory parameter (`entropy`) keyed by backend and seed. For an absent seed, that factory stands for the backend's own entropy.
- Backend inference (`infer_backend`) is left out. The canonical domain carries its backend as a tag, and `anp.stack`, `anp.prod` and `anp.sum` are sequence functions over reals.
- `_setup_integration_domain` and `evaluate_integrand` are not part of this model's sources. They are given the behaviour the integrator relies on: `IntegrationUtils.SetupIntegrationDomain` requires validated pairs of length 2, as on every path that calls it.
- The compilers (`tf.function`, `jax.jit`, `torch.jit.trace`) are opaque. Their options (`jit_compile`, `static_argnames`, `check_trace`) are not modelled. Of the executions `torch.jit.trace` performs, the model keeps the one run of step 1 while tracing, which draws, and drops the run of step 3, which draws nothing.
- `MonteCarloIntegrator.CompiledAgreesWithDirect`: its tensorflow and torch cases rest on the model's rule that a compiled stage computes what the wrapped stage computes on every call. For torch the model assumes that the traced step 1 rebuilds its generator from `seed` on every replay. The code gives no ground for this: the generator is built by Python code that runs while tracing (monte_carlo.py:172-173) and is not replayed (monte_carlo.py:127-128). So a seeded compiled torch function is not shown to repeat the draws of the direct `integrate`. Tensorflow with a seed and no generator is outside the documented use (monte_carlo.py:68). Only the jax case follows from the code without that rule.
- `MonteCarloIntegrator.LazyCompiledIntegrate.Call`: its result assumes that the traced step 1 rebuilds its generator from `seed` on every replay. So a seeded compiled torch function is not shown to repeat its own draws from one call to the next, nor the draws of the direct `integrate`; what the traced graph replays is not modelled.
- `MonteCarloIntegrator.CompiledIntegrate.Call` does not enforce the documented rule that a generator must be given with tensorflow and omitted with jax (monte_carlo.py:68). The code does not check it either, and the model gives both combinations the semantics of the wrapped stages.
- `MonteCarloIntegrator.CompiledIntegrate.Call` does not model the traced graph's restriction to the sample count, dtype and domain shape of the example call. A call outside it is left undefined by the source. The model gives every call the semantics of the wrapped stages.
- Floating-point rounding and the numpy dtype cast after division (monte_carlo.py:205-210) are left out; values are reals. NaN is kept only for an empty batch.
- Logging is left out.
- Device selection in torchquad/utils/enable_cuda.py is not part of this model.
- Concurrent first calls of a lazily compiled function are left out; the code is single-threaded.
- Statistical accuracy claims (error proportional to 1/sqrt(N)) are left out. They are not statements about a single run.
- Python arguments are narrowed: `dim` is an int, `N` an int, float or bool, and bound values are reals. Other argument types, and integrands returning more than one value per point, are left out.
- `MonteCarlo` inherits from `BaseIntegrator` in the source. In the model it holds its base state in a `base` object, and `integrate` updates the counter there.
