/**
 * The numeric library the smearer calls into: the hyperbolic cosine, sine, cosine,
 * square root and rounding of the C library, pi/2 from the math toolkit, and the
 * Gaussian pseudorandom generator.  None of their implementations is modelled; each is
 * a function value with only the properties the engine relies on, collected in Valid().
 */
module Numerics {

  /** The numeric functions.  `gauss(seed, k)` is the standard normal deviate the generator
      returns on its k-th Gaussian draw after being seeded with `seed`. */
  datatype Numerics = Numerics(
    cosh: real -> real,
    sin: real -> real,
    cos: real -> real,
    sqrt: real -> real,
    round: real -> int,
    halfPi: real,
    gauss: (int, nat) -> real)
  {
    /** The minimal facts about the library functions the model needs. */
    ghost predicate Valid() {
      && (forall x :: cosh(x) > 0.0)
      && (forall x :: sqrt(x) >= 0.0)
      && (forall x :: x >= 0.0 ==> sqrt(x) * sqrt(x) == x)
      && (forall x: real :: x == x.Floor as real ==> round(x) == x.Floor)
      && halfPi > 0.0
    }
  }

  function Abs(x: real): (r: real)
    ensures r >= 0.0 && (r == x || r == -x)
  {
    if x < 0.0 then -x else x
  }

  /** `std::max(lo, std::min(hi, x))`. */
  function Clamp(lo: real, hi: real, x: real): (r: real)
    requires lo <= hi
    ensures lo <= r <= hi
    ensures lo <= x <= hi ==> r == x
    ensures x < lo ==> r == lo
    ensures x > hi ==> r == hi
  {
    if x < lo then lo else if x > hi then hi else x
  }

  /** The state of a Gaussian generator: the seed it was last given and how many Gaussian
      deviates it has produced since.  The generator is deterministic, so this pair
      determines every later draw. */
  datatype Generator = Generator(seed: int, draws: nat)

  /** The generator right after `SetSeed(seed)`. */
  function Seeded(seed: int): (g: Generator)
    ensures g.seed == seed && g.draws == 0
  {
    Generator(seed, 0)
  }

  /** One Gaussian value and the generator state after drawing it. */
  datatype Draw = Draw(value: real, next: Generator)

  /** `Gaus(mean, sigma)`: mean plus sigma times the next standard normal deviate. */
  function Gaus(m: Numerics, g: Generator, mean: real, sigma: real): (d: Draw)
    ensures d.next.seed == g.seed && d.next.draws == g.draws + 1
    ensures d.value - mean == sigma * m.gauss(g.seed, g.draws)
  {
    Draw(mean + sigma * m.gauss(g.seed, g.draws), Generator(g.seed, g.draws + 1))
  }
}
