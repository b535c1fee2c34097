/** Values shared by every part of the Monte Carlo integrator model: the
    Python arguments the integrator accepts, the canonical integration
    domain, sample tables, scalar results and the errors the integrator
    raises. */
module Common {

  datatype Option<+T> = None | Some(value: T)

  datatype Result<+R, +E> = Success(value: R) | Failure(error: E)

  /** The numeric backend inferred for a tensor.  `OtherBackend` stands for
      every backend name the compilation dispatcher does not know. */
  datatype Backend = Numpy | Torch | Jax | Tensorflow | OtherBackend(name: string)

  /** A Python number passed as a sample count.  Python compares all three
      kinds numerically (`True < 1` is `False`), but only `PyInt` has
      `type(N) is int`. */
  datatype PyNumber = PyInt(i: int) | PyFloat(x: real) | PyBool(b: bool)
  {
    /** The value Python uses in a comparison such as `N < 1`. */
    function Value(): real {
      match this
      case PyInt(i) => i as real
      case PyFloat(x) => x
      case PyBool(b) => if b then 1.0 else 0.0
    }
  }

  /** A user-supplied integration domain before normalisation: a list of
      bound pairs of any length, and the backend of the tensor it was given
      as, if it was given as a backend tensor rather than a Python list. */
  datatype DomainArg = DomainArg(pairs: seq<seq<real>>, native: Option<Backend>)

  /** The bound pairs of an optional domain argument, as the validator
      sees them. */
  function PairsOf(domain: Option<DomainArg>): Option<seq<seq<real>>> {
    if domain.Some? then Some(domain.value.pairs) else None
  }

  /** One row (lower, upper) of the canonical two-column domain table. */
  datatype Bound = Bound(lower: real, upper: real)

  /** The canonical domain table, tagged with its numeric backend. */
  datatype Domain = Domain(bounds: seq<Bound>, backend: Backend)

  /** The invariant of an integration domain: every lower bound is at most
      its upper bound. */
  predicate WellFormed(dom: Domain) {
    forall d :: 0 <= d < |dom.bounds| ==> dom.bounds[d].lower <= dom.bounds[d].upper
  }

  /** A table of sample points, one row per point, one column per dimension. */
  type Points = seq<seq<real>>

  /** A batched integrand: one call maps the whole table to its values. */
  type Integrand = Points -> seq<real>

  /** A floating-point scalar result; `NaN` is what `0 * 0.0 / 0` gives. */
  datatype Scalar = Real(v: real) | NaN

  /** The rule of `_check_inputs` that rejected its arguments. */
  datatype Violation =
    | DimTooSmall              // dim < 1
    | DimMismatch              // dim != len(integration_domain)
    | BadSampleCount           // N < 1 or not an int
    | BadBoundLength(index: nat) // len(bounds) != 2
    | BadBoundOrder(index: nat)  // bounds[0] > bounds[1]

  /** The exceptions raised by the integrator. */
  datatype Error =
    | InvalidInput(violation: Violation)       // ValueError from _check_inputs
    | SeedAndRngConflict                       // ValueError: both seed and rng passed
    | NothingToStack                           // anp.stack of an empty list of columns
    | CompilationNotImplemented(backend: Backend) // ValueError from jit_integrate
    | NotImplemented                           // the abstract integrate
    | IntegrandNotCallable                     // calling `_fn` while it is None
}
