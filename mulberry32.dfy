/**
 * The `mulberry32` generator that `components/ash-overlay.tsx` and
 * `components/light-particles.tsx` each define: a closure over a seed that,
 * on every call, adds 0x6d2b79f5 to the seed, scrambles its 32 bits with
 * xor, unsigned shifts and `Math.imul`, and returns the resulting unsigned
 * 32-bit value divided by 2^32.
 *
 * The closure's seed is a JavaScript number that is never wrapped, but
 * every operation reads only its value modulo 2^32, so the state here is
 * those 32 bits.
 */
module Mulberry32 {
  const Increment: bv32 := 0x6d2b79f5

  /** 2^32, the divisor that maps an unsigned 32-bit value into [0, 1). */
  const TwoTo32: real := 4294967296.0

  /** The seed's bits after one call. */
  function Step(s: bv32): bv32 {
    s + Increment
  }

  /** The seed's bits after `n` calls. */
  function Advance(s: bv32, n: nat): bv32
    decreases n
  {
    if n == 0 then s else Advance(Step(s), n - 1)
  }

  /** The scrambling of the updated seed: two `imul` rounds and a final xor-shift. */
  function Mix(t0: bv32): bv32 {
    var t1 := (t0 ^ (t0 >> 15)) * (t0 | 1);
    var t2 := t1 ^ (t1 + (t1 ^ (t1 >> 7)) * (t1 | 61));
    t2 ^ (t2 >> 14)
  }

  /** The number a call returns once the seed has been updated to `t`. */
  function DrawValue(t: bv32): (r: real)
    ensures 0.0 <= r < 1.0
  {
    (Mix(t) as int) as real / TwoTo32
  }

  /** The numbers `n` successive calls return, starting from seed bits `s`. */
  function Draws(s: bv32, n: nat): (r: seq<real>)
    ensures |r| == n
    ensures forall i :: 0 <= i < n ==> 0.0 <= r[i] < 1.0
    decreases n
  {
    if n == 0 then [] else [DrawValue(Step(s))] + Draws(Step(s), n - 1)
  }

  /** Calls compose: `m` calls then `n` calls are `m + n` calls. */
  lemma {:induction false} AdvanceAdd(s: bv32, m: nat, n: nat)
    ensures Advance(Advance(s, m), n) == Advance(s, m + n)
    decreases m
  {
    if m > 0 {
      AdvanceAdd(Step(s), m - 1, n);
    }
  }

  /** The first `m + n` draws are the first `m` followed by the `n` that the advanced seed gives. */
  lemma {:induction false} DrawsSplit(s: bv32, m: nat, n: nat)
    ensures Draws(s, m + n) == Draws(s, m) + Draws(Advance(s, m), n)
    decreases m
  {
    if m > 0 {
      DrawsSplit(Step(s), m - 1, n);
    }
  }

  /** One more call appends the value of the seed advanced once more. */
  lemma DrawsSnoc(s: bv32, n: nat)
    ensures Advance(s, n + 1) == Step(Advance(s, n))
    ensures Draws(s, n + 1) == Draws(s, n) + [DrawValue(Advance(s, n + 1))]
  {
    AdvanceAdd(s, n, 1);
    DrawsSplit(s, n, 1);
  }

  /** Five calls in a row: the values of the seed advanced once, twice, ..., five times. */
  lemma FiveDraws(s: bv32)
    ensures var s1 := Step(s); var s2 := Step(s1); var s3 := Step(s2); var s4 := Step(s3); var s5 := Step(s4);
            && Draws(s, 5) == [DrawValue(s1), DrawValue(s2), DrawValue(s3), DrawValue(s4), DrawValue(s5)]
            && Advance(s, 5) == s5
  {
    var s1 := Step(s);
    var s2 := Step(s1);
    var s3 := Step(s2);
    var s4 := Step(s3);
    assert Draws(s3, 2) == [DrawValue(s4), DrawValue(Step(s4))];
    assert Draws(s1, 4) == [DrawValue(s2), DrawValue(s3)] + Draws(s3, 2);
  }

  /** Six calls in a row: the values of the seed advanced once, twice, ..., six times. */
  lemma SixDraws(s: bv32)
    ensures var s1 := Step(s); var s2 := Step(s1); var s3 := Step(s2); var s4 := Step(s3); var s5 := Step(s4); var s6 := Step(s5);
            && Draws(s, 6) == [DrawValue(s1), DrawValue(s2), DrawValue(s3), DrawValue(s4), DrawValue(s5), DrawValue(s6)]
            && Advance(s, 6) == s6
  {
    FiveDraws(Step(s));
  }

  /** Block `i` of five: the five values after the state reached by `5*i` draws. */
  lemma BlockOfFive(s0: bv32, i: nat)
    ensures var s := Advance(s0, 5 * i);
            var s1 := Step(s); var s2 := Step(s1); var s3 := Step(s2); var s4 := Step(s3); var s5 := Step(s4);
            && Block(s0, 5, i) == [DrawValue(s1), DrawValue(s2), DrawValue(s3), DrawValue(s4), DrawValue(s5)]
            && Advance(s0, 5 * (i + 1)) == s5
  {
    FiveDraws(Advance(s0, 5 * i));
    AdvanceAdd(s0, 5 * i, 5);
  }

  /** Block `i` of six: the six values after the state reached by `6*i` draws. */
  lemma BlockOfSix(s0: bv32, i: nat)
    ensures var s := Advance(s0, 6 * i);
            var s1 := Step(s); var s2 := Step(s1); var s3 := Step(s2); var s4 := Step(s3); var s5 := Step(s4); var s6 := Step(s5);
            && Block(s0, 6, i) == [DrawValue(s1), DrawValue(s2), DrawValue(s3), DrawValue(s4), DrawValue(s5), DrawValue(s6)]
            && Advance(s0, 6 * (i + 1)) == s6
  {
    SixDraws(Advance(s0, 6 * i));
    AdvanceAdd(s0, 6 * i, 6);
  }

  /**
   * The draws of block `i` when each consumer takes `k`: the `k` values
   * after the first `k * i`.
   */
  function Block(s: bv32, k: nat, i: nat): (r: seq<real>)
    ensures |r| == k
    ensures forall j :: 0 <= j < k ==> 0.0 <= r[j] < 1.0
  {
    Draws(Advance(s, k * i), k)
  }

  /** Block `i` of `n` blocks is draws `k*i` to `k*i + k - 1` of the `k * n` drawn in all. */
  lemma BlockIsSlice(s: bv32, k: nat, i: nat, n: nat)
    requires i < n
    ensures k * i + k <= k * n
    ensures Block(s, k, i) == Draws(s, k * n)[k * i .. k * i + k]
  {
    var before, rest, total := k * i, k * (n - i - 1), k * n;
    MulSplit(k, i, n);
    assert total == before + k + rest;
    DrawsWindow(s, before, k, rest);
  }

  lemma MulSplit(k: nat, i: nat, n: nat)
    requires i < n
    ensures k * (n - i - 1) >= 0
    ensures k * n == k * i + k + k * (n - i - 1)
  {
    var j := n - i - 1;
    assert n == i + 1 + j;
    assert k * n == k * (i + 1 + j) == k * i + k + k * j;
  }

  /** The `k` draws after the first `a` are the first `k` draws of the seed advanced `a` times. */
  lemma DrawsWindow(s: bv32, a: nat, k: nat, rest: nat)
    ensures Draws(s, a + k + rest)[a .. a + k] == Draws(Advance(s, a), k)
  {
    DrawsSplit(s, a, k + rest);
    DrawsSplit(Advance(s, a), k, rest);
  }

  /** Growing a prefix by one element: used by the loops that build lists from the draws. */
  lemma PrefixSnoc<T>(s: seq<T>, i: nat)
    requires i < |s|
    ensures s[..i + 1] == s[..i] + [s[i]]
  {
  }

  /** The closure `mulberry32` returns: its seed bits and the call that advances them. */
  class Rng {
    var state: bv32

    /** `mulberry32(seed)` for a seed whose bits are `seed`. */
    constructor(seed: bv32)
      ensures state == seed
    {
      state := seed;
    }

    /** One call: the seed moves on by 0x6d2b79f5 modulo 2^32 and the new bits are scrambled. */
    method Next() returns (r: real)
      modifies this
      ensures state == Step(old(state))
      ensures r == DrawValue(state) && 0.0 <= r < 1.0
    {
      state := Step(state);
      r := DrawValue(state);
    }
  }

  /** The bits of an integer seed: its value modulo 2^32. */
  function SeedBits(seed: int): bv32 {
    (seed % 0x1_0000_0000) as bv32
  }
}
