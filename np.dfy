/**
 Deterministic stand-ins for the numpy primitives the two data synthesizers call.

 The pseudo-random generator itself is not modelled: every draw is passed in as the
 raw value the generator produced (an arbitrary natural for an integer draw, a real in
 [0, high - low) for a uniform draw), and the functions below map it into the range the primitive
 promises. Probabilities of `choice` and the shape of `normal` are not modelled.
 */
module Np {

  /** `np.random.randint(low, high)`: an integer in [low, high) -- the upper bound is exclusive.
      `k` stands for the generator's raw output. */
  function RandInt(low: int, high: int, k: nat): (r: int)
    requires low < high
    ensures low <= r < high
  {
    low + k % (high - low)
  }

  /** The values `RandInt(low, high, _)` can produce are exactly the integers in [low, high). */
  lemma RandIntRange(low: int, high: int, x: int)
    requires low < high
    ensures (exists k: nat :: RandInt(low, high, k) == x) <==> low <= x < high
  {
    if low <= x < high {
      RandIntHits(low, high, x);
    }
  }

  /** The raw draw `x - low` produces `x`. */
  lemma RandIntHits(low: int, high: int, x: int)
    requires low <= x < high
    ensures RandInt(low, high, x - low) == x
  {
    assert (x - low) % (high - low) == x - low;
  }

  /** `np.random.choice(options, p=...)`: one of the options; `k` stands for the raw draw. */
  function Choice(options: seq<int>, k: nat): (r: int)
    requires |options| > 0
    ensures r in options
  {
    options[k % |options|]
  }

  /** Every option of `Choice` is reachable. */
  lemma ChoiceRange(options: seq<int>, x: int)
    requires |options| > 0
    ensures (exists k: nat :: Choice(options, k) == x) <==> x in options
  {
    if x in options {
      var i :| 0 <= i < |options| && options[i] == x;
      ChoiceHits(options, i);
    }
  }

  /** The raw draw `i` picks the option at position `i`. */
  lemma ChoiceHits(options: seq<int>, i: nat)
    requires i < |options|
    ensures Choice(options, i) == options[i]
  {
    assert i % |options| == i;
  }

  /** `np.random.uniform(low, high)`: a real in [low, high). `offset` stands for the generator's
      output scaled to the width of the interval, so it lies in [0, high - low). */
  function Uniform(low: real, high: real, offset: real): (r: real)
    requires 0.0 <= offset < high - low
    ensures low <= r < high
  {
    low + offset
  }

  /** `np.random.binomial(1, p)`: a single Bernoulli trial at probability `p`, from a unit draw `u`. */
  function Bernoulli(p: real, u: real): (r: int)
    requires 0.0 <= p <= 1.0
    requires 0.0 <= u < 1.0
    ensures r == 0 || r == 1
    ensures p == 0.0 ==> r == 0
    ensures p == 1.0 ==> r == 1
  {
    if u < p then 1 else 0
  }

  /** `np.maximum(x, floor)` on one element: the larger of the two. */
  function Maximum(x: real, floor: real): (r: real)
    ensures r >= x && r >= floor
    ensures r == x || r == floor
  {
    if x >= floor then x else floor
  }

  /** `np.clip(x, lo, hi)` on one element: `x` forced into [lo, hi]. */
  function Clip(x: real, lo: real, hi: real): (r: real)
    requires lo <= hi
    ensures lo <= r <= hi
    ensures lo <= x <= hi ==> r == x
    ensures x < lo ==> r == lo
    ensures x > hi ==> r == hi
  {
    if x < lo then lo else if x > hi then hi else x
  }

  /** Clipping never reverses the order of two values. */
  lemma ClipMonotone(x: real, y: real, lo: real, hi: real)
    requires lo <= hi
    requires x <= y
    ensures Clip(x, lo, hi) <= Clip(y, lo, hi)
  {
  }
}
