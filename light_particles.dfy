/**
 * The floating light dots (`components/light-particles.tsx`): `count` dots
 * (14 unless given) drawn from a `mulberry32` generator that always starts
 * at seed 1337, six numbers per dot. The `variant` only changes how two of
 * the six numbers are scaled.
 */
module LightParticles {
  import opened Wrappers
  import opened Decimal
  import opened Utils
  import opened Mulberry32

  datatype Variant = Subtle | Sparkly

  datatype Dot = Dot(key: string, leftPct: real, topPct: real, size: real, delayMs: int, durationMs: int, opacity: real)

  const DefaultCount: int := 14
  const DotSeed: int := 1337

  /** The draws each dot takes, in the order size, left, top, delay, duration, opacity. */
  const DrawsPerDot: nat := 6

  /** `dot-${i}`. */
  function DotKey(i: nat): string {
    "dot-" + NatToString(i)
  }

  predicate InUnit(r: real) {
    0.0 <= r < 1.0
  }

  /**
   * The dot literal, from its six draws in the order they are taken. The
   * two integer fields are exact: a draw is a multiple of 2^-32, so
   * `r * 1400` and `5200 + r * 5200` need fewer than 53 bits.
   */
  function DotOf(i: nat, variant: Variant, size: real, left: real, top: real, delay: real, duration: real, opacity: real): (d: Dot)
    requires InUnit(size) && InUnit(left) && InUnit(top) && InUnit(delay) && InUnit(duration) && InUnit(opacity)
    ensures d.key == DotKey(i)
    ensures 0.0 <= d.leftPct < 100.0 && 0.0 <= d.topPct < 100.0
    ensures 0 <= d.delayMs <= 1399
    ensures 5200 <= d.durationMs <= 10399
    ensures variant == Sparkly ==> 4.0 <= d.size < 13.0 && 0.16 <= d.opacity < 0.34
    ensures variant == Subtle ==> 3.0 <= d.size < 10.0 && 0.10 <= d.opacity < 0.24
  {
    var sz := if variant == Sparkly then 4.0 + size * 9.0 else 3.0 + size * 7.0;
    Dot(DotKey(i), left * 100.0, top * 100.0, sz, (delay * 1400.0).Floor, (5200.0 + duration * 5200.0).Floor,
        if variant == Sparkly then 0.16 + opacity * 0.18 else 0.10 + opacity * 0.14)
  }

  /** The dot built from a block of six draws. */
  function DotOfBlock(i: nat, variant: Variant, b: seq<real>): Dot
    requires |b| == DrawsPerDot && forall j :: 0 <= j < |b| ==> InUnit(b[j])
  {
    DotOf(i, variant, b[0], b[1], b[2], b[3], b[4], b[5])
  }

  /** The dot list: `count` dots, none for a count of zero or less; dot `i` built from block `i` of seed 1337's draws. */
  function DotList(count: int, variant: Variant): (r: seq<Dot>)
    ensures |r| == Max(0, count)
  {
    seq(Max(0, count), i requires 0 <= i < Max(0, count) =>
      DotOfBlock(i, variant, Block(SeedBits(DotSeed), DrawsPerDot, i)))
  }

  /**
   * One turn of the dot loop: from the generator state after `6*i` draws,
   * six more calls give the literal of dot `i`, and the state is then the
   * one after `6*(i+1)` draws.
   */
  lemma NextDot(count: int, variant: Variant, i: nat, s: bv32,
                size: real, left: real, top: real, delay: real, duration: real, opacity: real)
    requires i < count && s == Advance(SeedBits(DotSeed), DrawsPerDot * i)
    requires var s1 := Step(s); var s2 := Step(s1); var s3 := Step(s2); var s4 := Step(s3); var s5 := Step(s4); var s6 := Step(s5);
             && size == DrawValue(s1) && left == DrawValue(s2) && top == DrawValue(s3)
             && delay == DrawValue(s4) && duration == DrawValue(s5) && opacity == DrawValue(s6)
    ensures Advance(SeedBits(DotSeed), DrawsPerDot * (i + 1)) == Step(Step(Step(Step(Step(Step(s))))))
    ensures DotOf(i, variant, size, left, top, delay, duration, opacity) == DotList(count, variant)[i]
  {
    BlockOfSix(SeedBits(DotSeed), i);
    assert DotList(count, variant)[i] == DotOfBlock(i, variant, [size, left, top, delay, duration, opacity]);
  }

  /** The object literal pushed for dot `i`: six calls of the generator, size first. */
  method NewDot(rand: Rng, count: int, variant: Variant, i: nat) returns (d: Dot)
    requires i < count && rand.state == Advance(SeedBits(DotSeed), DrawsPerDot * i)
    modifies rand
    ensures rand.state == Advance(SeedBits(DotSeed), DrawsPerDot * (i + 1))
    ensures d == DotList(count, variant)[i]
  {
    ghost var s := rand.state;
    var size := rand.Next();
    var left := rand.Next();
    var top := rand.Next();
    var delay := rand.Next();
    var duration := rand.Next();
    var opacity := rand.Next();
    d := DotOf(i, variant, size, left, top, delay, duration, opacity);
    NextDot(count, variant, i, s, size, left, top, delay, duration, opacity);
  }

  /** The `dots` memo: a generator seeded with 1337 and `count` dots drawn from it. */
  method BuildDots(count: int, variant: Variant) returns (dots: seq<Dot>)
    ensures dots == DotList(count, variant)
  {
    var rand := new Rng(SeedBits(DotSeed));
    dots := [];
    var i := 0;
    while i < count
      invariant 0 <= i <= Max(0, count)
      invariant rand.state == Advance(SeedBits(DotSeed), DrawsPerDot * i)
      invariant dots == DotList(count, variant)[..i]
    {
      var d := NewDot(rand, count, variant, i);
      PrefixSnoc(DotList(count, variant), i);
      dots := dots + [d];
      i := i + 1;
    }
  }

  /** The component with its default props: 14 dots, subtle. */
  method Dots(count: Option<int>, variant: Option<Variant>) returns (dots: seq<Dot>)
    ensures dots == DotList(count.GetOr(DefaultCount), variant.GetOr(Subtle))
    ensures count.None? ==> |dots| == 14
  {
    dots := BuildDots(count.GetOr(DefaultCount), variant.GetOr(Subtle));
  }

  /** Dot `i` is built from draws `6*i` to `6*i + 5` of the `6*count` the list takes. */
  lemma DotsTakeConsecutiveDraws(count: int, variant: Variant, i: nat)
    requires i < count
    ensures var all := Draws(SeedBits(DotSeed), DrawsPerDot * count);
            DotList(count, variant)[i] == DotOfBlock(i, variant, all[DrawsPerDot * i .. DrawsPerDot * i + DrawsPerDot])
  {
    BlockIsSlice(SeedBits(DotSeed), DrawsPerDot, i, count);
  }

  /** The keys of one list are pairwise distinct. */
  lemma DotKeysDistinct(count: int, variant: Variant, i: nat, j: nat)
    requires i < j < count
    ensures DotList(count, variant)[i].key != DotList(count, variant)[j].key
  {
    var u, v := DotKey(i), DotKey(j);
    if u == v {
      assert NatToString(i) == u[4..] && NatToString(j) == v[4..];
      NatToStringInjective(i, j);
    }
  }

  /** Asking for fewer dots gives a prefix of the longer list: the seed never changes. */
  lemma FewerDotsArePrefix(m: int, n: int, variant: Variant)
    requires m <= n
    ensures DotList(m, variant) == DotList(n, variant)[..Max(0, m)]
  {
  }

  /** The variant only rescales size and opacity: both variants place and time dot `i` alike. */
  lemma VariantKeepsPlaceAndTiming(count: int, i: nat)
    requires i < count
    ensures var a, b := DotList(count, Subtle)[i], DotList(count, Sparkly)[i];
            && a.key == b.key && a.leftPct == b.leftPct && a.topPct == b.topPct
            && a.delayMs == b.delayMs && a.durationMs == b.durationMs
  {
  }
}
