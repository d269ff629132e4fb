/** The seeded generator `createRng` (mulberry32). The source keeps one 32-bit state
    word inside a closure; here the generator is a value and one call of the closure
    is the pure step `Next` from a generator to the next generator and a draw.

    The state word is kept as its unsigned value (`Word`). Only the mixing step works
    on `bv32`, where `Math.imul` is the wrapping 32-bit product, `>>>` the logical shift
    `>>`, and `|` and `^` the bitwise operators. */
module Rng {

  /** 2^32: every state word and every draw numerator lies below it. */
  const Modulus: int := 0x1_0000_0000

  /** The constant added to the state before every draw. */
  const Increment: int := 0x6d2b79f5

  /** The inverse of `Increment` modulo 2^32 (it exists because `Increment` is odd). */
  const IncrementInverse: int := 0xdc58aa5d

  /** A 32-bit word read as an unsigned integer. */
  type Word = x: int | 0 <= x < Modulus

  /** `seed | 0`: the seed truncated to its low 32 bits. The signed reading of the
      source and this unsigned reading have the same bit pattern. */
  function Truncate(seed: int): (w: Word)
    ensures (seed - w) % Modulus == 0
  {
    seed % Modulus
  }

  /** A generator: the closure's captured state word. */
  datatype Generator = Generator(state: Word)

  /** `createRng(seed)`. */
  function CreateRng(seed: int): Generator {
    Generator(Truncate(seed))
  }

  /** `(s + 0x6d2b79f5) | 0`: the state advance, wrapping modulo 2^32. */
  function Advance(s: Word): Word {
    (s + Increment) % Modulus
  }

  /** The integer-only mixing of an advanced state word into the draw's numerator.
      The addition on the second line of the source is exact in doubles and is then
      truncated to 32 bits by the xor, which is the wrapping `bv32` addition here. */
  function Mix(s: bv32): bv32 {
    var t := (s ^ (s >> 15)) * (1 | s);
    var t' := (t + (t ^ (t >> 7)) * (61 | t)) ^ t;
    t' ^ (t' >> 14)
  }

  /** `(... >>> 0) / 4294967296`: the numerator read unsigned, divided by 2^32. */
  function ToUnit(n: bv32): (d: real)
    ensures 0.0 <= d < 1.0
    ensures d * 4294967296.0 == (n as int) as real
  {
    (n as int) as real / 4294967296.0
  }

  /** The draw produced when the advanced state word is `s`. */
  function DrawFrom(s: Word): (d: real)
    ensures 0.0 <= d < 1.0
  {
    ToUnit(Mix(s as bv32))
  }

  /** One call of the generator closure: advance the state, then mix it. */
  function Next(g: Generator): (r: (Generator, real))
    ensures (r.0.state - g.state - Increment) % Modulus == 0
    ensures 0.0 <= r.1 < 1.0
    ensures r.1 == DrawFrom(r.0.state)
  {
    var s := Advance(g.state);
    (Generator(s), DrawFrom(s))
  }

  /** The generator after `n` calls. */
  function Skip(g: Generator, n: nat): Generator
    decreases n
  {
    if n == 0 then g else Skip(Generator(Advance(g.state)), n - 1)
  }

  /** The values of `n` successive calls, when a call returns `out` of the state word
      it has just advanced to. The stream structure does not depend on the mixing, so
      the lemmas about it are stated for any `out`. */
  function Outputs<T>(g: Generator, n: nat, out: Word -> T): (os: seq<T>)
    ensures |os| == n
    decreases n
  {
    if n == 0 then [] else
      var s := Advance(g.state);
      [out(s)] + Outputs(Generator(s), n - 1, out)
  }

  /** The first `n` values returned by successive calls of the closure. */
  function Draws(g: Generator, n: nat): (ds: seq<real>)
    ensures |ds| == n
  {
    Outputs(g, n, DrawFrom)
  }

  /** Counter-based reference: the state word after `k` calls on a generator built
      from `seed`, computed without replaying the earlier calls. */
  function StateAt(seed: int, k: nat): Word {
    (seed + k * Increment) % Modulus
  }

  /** Counter-based reference: the `k`-th draw (from 0) of `createRng(seed)`. */
  function DrawAt(seed: int, k: nat): (d: real)
    ensures 0.0 <= d < 1.0
  {
    DrawFrom(StateAt(seed, k + 1))
  }

  lemma AdvanceStateAt(seed: int, k: nat)
    ensures Advance(StateAt(seed, k)) == StateAt(seed, k + 1)
  {
    var a := seed + k * Increment;
    assert (a % Modulus + Increment) % Modulus == (a + Increment) % Modulus;
  }

  /** One call on a generator in state `StateAt(seed, k)` yields draw `k` and moves to
      state `StateAt(seed, k + 1)`. */
  lemma NextAt(seed: int, k: nat)
    ensures Next(Generator(StateAt(seed, k))) == (Generator(StateAt(seed, k + 1)), DrawAt(seed, k))
  {
    AdvanceStateAt(seed, k);
  }

  /** After `n` calls the state is `seed + n * 0x6d2b79f5` modulo 2^32, whatever happened
      in between. */
  lemma {:induction false} SkipClosedForm(seed: int, k: nat, n: nat)
    ensures Skip(Generator(StateAt(seed, k)), n) == Generator(StateAt(seed, k + n))
    decreases n
  {
    if n > 0 {
      AdvanceStateAt(seed, k);
      SkipClosedForm(seed, k + 1, n - 1);
    }
  }

  /** The state word of `createRng(seed)` is `StateAt(seed, 0)`. */
  lemma CreateRngAt(seed: int)
    ensures CreateRng(seed) == Generator(StateAt(seed, 0))
  {
  }

  /** The `i`-th call made from state `StateAt(seed, k)` returns `out` of state
      `StateAt(seed, k + i + 1)`. */
  lemma {:induction false} OutputsAt<T>(seed: int, k: nat, n: nat, i: nat, out: Word -> T)
    requires i < n
    ensures Outputs(Generator(StateAt(seed, k)), n, out)[i] == out(StateAt(seed, k + i + 1))
    decreases n
  {
    var g, g' := Generator(StateAt(seed, k)), Generator(StateAt(seed, k + 1));
    AdvanceStateAt(seed, k);
    assert Outputs(g, n, out) == [out(g'.state)] + Outputs(g', n - 1, out);
    if i > 0 {
      OutputsAt(seed, k + 1, n - 1, i - 1, out);
      assert (k + 1) + (i - 1) + 1 == k + i + 1;
    }
  }

  lemma OutputsFromSeed<T>(seed: int, n: nat, k: nat, out: Word -> T)
    requires k < n
    ensures Outputs(CreateRng(seed), n, out)[k] == out(StateAt(seed, k + 1))
  {
    CreateRngAt(seed);
    OutputsAt(seed, 0, n, k, out);
  }

  /** Seeking: the `k`-th of the first `n` draws of `createRng(seed)` is the
      counter-based `DrawAt(seed, k)`, so it depends only on the seed and `k`. */
  lemma DrawsRandomAccess(seed: int, n: nat, k: nat)
    requires k < n
    ensures Draws(CreateRng(seed), n)[k] == DrawAt(seed, k)
  {
    OutputsFromSeed(seed, n, k, DrawFrom);
  }

  /** Every draw of every generator lies in [0, 1). */
  lemma DrawsInUnitInterval(seed: int, n: nat)
    ensures forall k :: 0 <= k < n ==> 0.0 <= Draws(CreateRng(seed), n)[k] < 1.0
  {
    forall k | 0 <= k < n
      ensures 0.0 <= Draws(CreateRng(seed), n)[k] < 1.0
    {
      DrawsRandomAccess(seed, n, k);
    }
  }

  /** Producing `a + b` values is producing `a` values and then `b` more from where the
      first `a` calls left the generator. */
  lemma {:induction false} OutputsSplit<T>(g: Generator, a: nat, b: nat, out: Word -> T)
    ensures Outputs(g, a + b, out) == Outputs(g, a, out) + Outputs(Skip(g, a), b, out)
    decreases a
  {
    if a > 0 {
      var g' := Generator(Advance(g.state));
      OutputsSplit(g', a - 1, b, out);
      assert Outputs(g, a + b, out) == [out(g'.state)] + Outputs(g', (a - 1) + b, out);
    }
  }

  lemma OutputsPrefix<T>(g: Generator, n: nat, m: nat, out: Word -> T)
    requires n <= m
    ensures Outputs(g, m, out)[..n] == Outputs(g, n, out)
  {
    OutputsSplit(g, n, m - n, out);
  }

  /** Determinism of the stream: asking for more draws never changes the earlier ones. */
  lemma DrawsPrefix(g: Generator, n: nat, m: nat)
    requires n <= m
    ensures Draws(g, m)[..n] == Draws(g, n)
  {
    OutputsPrefix(g, n, m, DrawFrom);
  }

  /** Two integers leave the same remainder modulo 2^32 exactly when their difference
      is a multiple of 2^32. */
  lemma SameRemainder(a: int, b: int)
    ensures a % Modulus == b % Modulus <==> (a - b) % Modulus == 0
  {
    var qa, qb, q := a / Modulus, b / Modulus, (a - b) / Modulus;
    var r := a % Modulus - b % Modulus;
    assert a - b == (qa - qb) * Modulus + r;
    assert r == (q - (qa - qb)) * Modulus + (a - b) % Modulus;
  }

  /** Seeds that are congruent modulo 2^32, and only those, build the same generator. */
  lemma SeedCongruence(a: int, b: int)
    ensures CreateRng(a) == CreateRng(b) <==> (a - b) % Modulus == 0
  {
    SameRemainder(a, b);
  }

  /** Seeds congruent modulo 2^32 pass through the same state words. */
  lemma StateAtSeedCongruence(a: int, b: int, k: nat)
    requires (a - b) % Modulus == 0
    ensures StateAt(a, k) == StateAt(b, k)
  {
    SameRemainder(a + k * Increment, b + k * Increment);
  }

  /** Seeds congruent modulo 2^32 draw the same values. */
  lemma DrawAtSeedCongruence(a: int, b: int, k: nat)
    requires (a - b) % Modulus == 0
    ensures DrawAt(a, k) == DrawAt(b, k)
  {
    StateAtSeedCongruence(a, b, k + 1);
  }

  /** A multiple of 2^32 times anything is a multiple of 2^32. */
  lemma MultipleTimes(x: int, y: int)
    ensures x % Modulus == 0 ==> (x * y) % Modulus == 0
  {
    var q := x / Modulus;
    assert x == q * Modulus + x % Modulus;
    assert x * y == (q * y) * Modulus + (x % Modulus) * y;
  }

  /** Multiplying by the odd increment loses no information modulo 2^32. */
  lemma OddIncrement(d: int)
    ensures (d * Increment) % Modulus == 0 ==> d % Modulus == 0
  {
    MultipleTimes(d * Increment, IncrementInverse);
    assert Increment * IncrementInverse == 1 + 1576479847 * Modulus;
    assert d * Increment * IncrementInverse == d + (d * 1576479847) * Modulus;
    SameRemainder(d * Increment * IncrementInverse, d);
  }

  /** The state sequence does not repeat within 2^32 calls: because the increment is
      odd, distinct call counts below 2^32 reach distinct state words. */
  lemma StatesDistinct(seed: int, j: nat, k: nat)
    requires j < k < Modulus
    ensures StateAt(seed, j) != StateAt(seed, k)
  {
    SameRemainder(seed + k * Increment, seed + j * Increment);
    assert (seed + k * Increment) - (seed + j * Increment) == (k - j) * Increment;
    OddIncrement(k - j);
  }

  /** Known answer: the first draw of `createRng(0)` has numerator 0x4434b462. */
  lemma FirstDrawOfSeedZero()
    ensures Draws(CreateRng(0), 1)[0] * 4294967296.0 == 0x4434b462 as real
  {
    assert Mix(0x6d2b79f5) == 0x4434b462;
  }
}
