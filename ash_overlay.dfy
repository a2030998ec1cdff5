/**
 * The ash overlay (`components/ash-overlay.tsx`): every time it is shown
 * its seed goes up by one, and the 34 falling particles are drawn from a
 * `mulberry32` generator started at that seed, five numbers per particle.
 */
module AshOverlay {
  import opened Decimal
  import opened Mulberry32

  datatype Particle = Particle(id: string, x: real, size: real, delay: real, duration: real, opacity: real)

  const ParticleCount: nat := 34

  /** The draws each particle takes, in the order x, size, delay, duration, opacity. */
  const DrawsPerParticle: nat := 5

  /** `${seed}-${i}`. */
  function ParticleId(seed: int, i: nat): string {
    IntToString(seed) + "-" + NatToString(i)
  }

  /** The particle literal, from its five draws in the order they are taken, for a window `width` wide. */
  function ParticleOf(seed: int, i: nat, width: real, x: real, size: real, delay: real, duration: real, opacity: real): (p: Particle)
    requires 0.0 <= x < 1.0 && 0.0 <= size < 1.0 && 0.0 <= delay < 1.0 && 0.0 <= duration < 1.0 && 0.0 <= opacity < 1.0
    ensures p.id == ParticleId(seed, i)
    ensures 3.0 <= p.size < 10.0
    ensures 0.0 <= p.delay < 260.0
    ensures 900.0 <= p.duration < 1800.0
    ensures 0.12 <= p.opacity < 0.34
  {
    Particle(ParticleId(seed, i), x * width, 3.0 + size * 7.0, delay * 260.0, 900.0 + duration * 900.0, 0.12 + opacity * 0.22)
  }

  /** A particle starts inside the window: its x is a draw in [0, 1) times the width. */
  lemma ParticleStartsOnScreen(seed: int, i: nat, width: real, x: real, size: real, delay: real, duration: real, opacity: real)
    requires 0.0 <= x < 1.0 && 0.0 <= size < 1.0 && 0.0 <= delay < 1.0 && 0.0 <= duration < 1.0 && 0.0 <= opacity < 1.0
    requires 0.0 < width
    ensures 0.0 <= ParticleOf(seed, i, width, x, size, delay, duration, opacity).x < width
  {
    var rest := 1.0 - x;
    assert rest * width > 0.0;
    assert width - x * width == rest * width;
  }

  /** The particle built from a block of five draws. */
  function ParticleOfBlock(seed: int, i: nat, width: real, d: seq<real>): Particle
    requires |d| == DrawsPerParticle && forall j :: 0 <= j < |d| ==> 0.0 <= d[j] < 1.0
  {
    ParticleOf(seed, i, width, d[0], d[1], d[2], d[3], d[4])
  }

  /** The particle list for a seed: particle `i` is built from block `i` of the seed's draws. */
  function ParticleList(seed: int, width: real): (r: seq<Particle>)
    ensures |r| == ParticleCount
  {
    seq(ParticleCount, i requires 0 <= i < ParticleCount =>
      ParticleOfBlock(seed, i, width, Block(SeedBits(seed), DrawsPerParticle, i)))
  }

  /**
   * One turn of the particle loop: from the generator state after `5*i`
   * draws, five more calls give the particle literal of particle `i`, and
   * the state is then the one after `5*(i+1)` draws.
   */
  lemma NextParticle(seed: int, width: real, i: nat, s: bv32, x: real, size: real, delay: real, duration: real, opacity: real)
    requires i < ParticleCount && s == Advance(SeedBits(seed), DrawsPerParticle * i)
    requires var s1 := Step(s); var s2 := Step(s1); var s3 := Step(s2); var s4 := Step(s3); var s5 := Step(s4);
             && x == DrawValue(s1) && size == DrawValue(s2) && delay == DrawValue(s3)
             && duration == DrawValue(s4) && opacity == DrawValue(s5)
    ensures Advance(SeedBits(seed), DrawsPerParticle * (i + 1)) == Step(Step(Step(Step(Step(s)))))
    ensures ParticleOf(seed, i, width, x, size, delay, duration, opacity) == ParticleList(seed, width)[i]
  {
    BlockOfFive(SeedBits(seed), i);
    assert ParticleList(seed, width)[i] == ParticleOfBlock(seed, i, width, [x, size, delay, duration, opacity]);
  }

  /** For non-negative seeds, an id names one seed and one index. */
  lemma ParticleIdInjective(s1: int, i: nat, s2: int, j: nat)
    requires s1 >= 0 && s2 >= 0
    ensures ParticleId(s1, i) == ParticleId(s2, j) ==> s1 == s2 && i == j
  {
    var a, b := IntToString(s1), IntToString(s2);
    var u, v := ParticleId(s1, i), ParticleId(s2, j);
    if u == v {
      assert forall k :: 0 <= k < |a| ==> u[k] == a[k] && IsDigit(a[k]);
      assert forall k :: 0 <= k < |b| ==> v[k] == b[k] && IsDigit(b[k]);
      assert u[|a|] == '-' && v[|b|] == '-';
      assert |a| == |b|;
      assert a == u[..|a|] && b == v[..|b|];
      IntToStringInjective(s1, s2);
      assert NatToString(i) == u[|a| + 1..] && NatToString(j) == v[|b| + 1..];
      NatToStringInjective(i, j);
    }
  }

  /**
   * The object literal pushed for particle `i`: five calls of the
   * generator, in the order x, size, delay, duration, opacity.
   */
  method NewParticle(rnd: Rng, seed: int, i: nat, width: real) returns (p: Particle)
    requires i < ParticleCount && rnd.state == Advance(SeedBits(seed), DrawsPerParticle * i)
    modifies rnd
    ensures rnd.state == Advance(SeedBits(seed), DrawsPerParticle * (i + 1))
    ensures p == ParticleList(seed, width)[i]
  {
    ghost var s := rnd.state;
    var x := rnd.Next();
    var size := rnd.Next();
    var delay := rnd.Next();
    var duration := rnd.Next();
    var opacity := rnd.Next();
    p := ParticleOf(seed, i, width, x, size, delay, duration, opacity);
    NextParticle(seed, width, i, s, x, size, delay, duration, opacity);
  }

  /** The `particles` memo: a fresh generator seeded with `seed` and 34 particles drawn from it. */
  method BuildParticles(seed: int, width: real) returns (list: seq<Particle>)
    ensures list == ParticleList(seed, width)
  {
    var rnd := new Rng(SeedBits(seed));
    list := [];
    for i := 0 to ParticleCount
      invariant rnd.state == Advance(SeedBits(seed), DrawsPerParticle * i)
      invariant list == ParticleList(seed, width)[..i]
    {
      var p := NewParticle(rnd, seed, i, width);
      PrefixSnoc(ParticleList(seed, width), i);
      list := list + [p];
    }
  }

  /** Particle `i` is built from draws `5*i` to `5*i + 4` of the 170 the list takes. */
  lemma ParticlesTakeConsecutiveDraws(seed: int, width: real, i: nat)
    requires i < ParticleCount
    ensures var all := Draws(SeedBits(seed), DrawsPerParticle * ParticleCount);
            ParticleList(seed, width)[i] == ParticleOfBlock(seed, i, width, all[DrawsPerParticle * i .. DrawsPerParticle * i + DrawsPerParticle])
  {
    BlockIsSlice(SeedBits(seed), DrawsPerParticle, i, ParticleCount);
  }

  /** The ids of one list are pairwise distinct. */
  lemma ParticleIdsDistinct(seed: int, width: real, i: nat, j: nat)
    requires seed >= 0 && i < j < ParticleCount
    ensures ParticleList(seed, width)[i].id != ParticleList(seed, width)[j].id
  {
    ParticleIdInjective(seed, i, seed, j);
  }

  /**
   * The overlay's state: whether it is shown and its seed. The effect that
   * bumps the seed runs when `visible` changes and finds it true; the
   * timer that calls `onDone` is not part of this model.
   */
  class Overlay {
    var visible: bool
    var seed: int

    /** Mounting runs the effect once: the seed starts at 1 and is bumped if the overlay is shown. */
    constructor(visible: bool)
      ensures this.visible == visible
      ensures seed == if visible then 2 else 1
    {
      this.visible := visible;
      seed := if visible then 2 else 1;
    }

    /** A new `visible` prop: showing a hidden overlay moves the seed on by exactly one. */
    method SetVisible(v: bool)
      modifies this
      ensures visible == v
      ensures seed == if v && !old(visible) then old(seed) + 1 else old(seed)
    {
      if v && !visible {
        seed := seed + 1;
      }
      visible := v;
    }

    /** The particles rendered for the current seed. */
    method Particles(width: real) returns (list: seq<Particle>)
      ensures list == ParticleList(seed, width)
    {
      list := BuildParticles(seed, width);
    }
  }

  /** Particles of two different shows never share an id, so the animated views are all new. */
  lemma NextShowHasFreshIds(seed: int, width: real, i: nat, j: nat)
    requires seed >= 0 && i < ParticleCount && j < ParticleCount
    ensures ParticleList(seed, width)[i].id != ParticleList(seed + 1, width)[j].id
  {
    ParticleIdInjective(seed, i, seed + 1, j);
  }
}
