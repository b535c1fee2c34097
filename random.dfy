/** The random number generator the sampler draws from.  Its internals
    belong to the numeric backend; the model keeps only what the integrator
    relies on: a generator is a fixed stream of uniform draws in [0, 1] and
    a position in it that every draw advances. */
module Random {
  import opened Common

  /** A uniform draw. */
  type Unit = x: real | 0.0 <= x <= 1.0

  /** An endless stream of uniform draws. */
  type Stream = nat -> Unit

  /** How a generator built inside the sampler gets its stream: from the
      inferred backend and the optional seed.  For an absent seed the stream
      stands for whatever entropy the backend picks up, so it is passed in
      by the caller of every operation that may build a generator. */
  type RngFactory = (Backend, Option<int>) -> Stream

  /** The `size` draws of `s` starting at position `start`. */
  function Window(s: Stream, start: nat, size: nat): (w: seq<Unit>)
    ensures |w| == size
    ensures forall i :: 0 <= i < size ==> w[i] == s(start + i)
  {
    seq(size, i requires 0 <= i < size => s(start + i))
  }

  /** A generator object.  A generator passed in by a caller is shared: the
      integrator advances it and never resets it. */
  class Rng {
    const draws: Stream
    var position: nat

    constructor (draws: Stream)
      ensures this.draws == draws && position == 0
    {
      this.draws := draws;
      position := 0;
    }

    /** `rng.uniform(size=[size])`: the next `size` draws of the stream. */
    method Uniform(size: nat) returns (u: seq<Unit>)
      modifies this
      ensures u == Window(draws, old(position), size)
      ensures position == old(position) + size
    {
      u := Window(draws, position, size);
      position := position + size;
    }
  }
}
