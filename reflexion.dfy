/**
 * The reflection screen's content (`app/reflexion.tsx`): for the mood given
 * to the screen and a timestamp, the base texts of that mood with four
 * tips and four distractions picked by rotating the base lists extended by
 * one of three extra tip sets.
 *
 * The texts themselves are data; they are a parameter (`Tables`) whose
 * shape the source fixes: three moods, four base tips and four base
 * distractions each, and three extra sets of four tips each.
 */
module Reflexion {
  import opened Wrappers

  datatype Tip = Tip(texto: string, icon: string)

  datatype MoodContent = MoodContent(
    title: string,
    icon: string,
    subtitle: string,
    color: string,
    consejos: seq<Tip>,
    distracciones: seq<Tip>,
    motivacion: string)

  /** `REFLEXION_CONTENT` and `EXTRA_CONSEJOS`, keyed by the mood's name. */
  datatype Tables = Tables(content: map<string, MoodContent>, extras: map<string, seq<seq<Tip>>>)

  const Moods: set<string> := {"zen", "ansioso", "rojo"}

  /** The shape of the two tables in the source. */
  predicate WellShaped(t: Tables) {
    && t.content.Keys == Moods && t.extras.Keys == Moods
    && (forall m :: m in t.content ==> |t.content[m].consejos| == 4 && |t.content[m].distracciones| == 4)
    && (forall m :: m in t.extras ==> |t.extras[m]| == 3 && forall k :: 0 <= k < 3 ==> |t.extras[m][k]| == 4)
  }

  /** `[...s.slice(k), ...s.slice(0, k)]`: `s` rotated left by `k`. */
  function Rotate<T>(s: seq<T>, k: nat): (r: seq<T>)
    requires k <= |s|
    ensures |r| == |s|
    ensures forall i :: 0 <= i < |s| ==> r[i] == s[(i + k) % |s|]
  {
    var r := s[k..] + s[..k];
    assert forall i :: 0 <= i < |s| ==> r[i] == s[(i + k) % |s|] by {
      forall i | 0 <= i < |s| ensures r[i] == s[(i + k) % |s|] {
        RotateAt(s, k, i);
      }
    }
    r
  }

  lemma RotateAt<T>(s: seq<T>, k: nat, i: nat)
    requires k <= |s| && i < |s|
    ensures (s[k..] + s[..k])[i] == s[(i + k) % |s|]
  {
    var n := |s|;
    if i + k < n {
      assert (i + k) % n == i + k;
      assert (s[k..] + s[..k])[i] == s[k..][i];
    } else {
      WrapOnce(i + k, n);
      assert (s[k..] + s[..k])[i] == s[..k][i + k - n];
    }
  }

  /** An index past the end, but by less than the length, wraps around once. */
  lemma WrapOnce(a: nat, n: nat)
    requires n <= a < 2 * n
    ensures a % n == a - n
  {
    var b := a - n;
    assert a == 1 * n + b && 0 <= b < n;
  }

  /** A rotation only reorders: every element keeps its number of occurrences. */
  lemma RotateIsPermutation<T>(s: seq<T>, k: nat)
    requires k <= |s|
    ensures multiset(Rotate(s, k)) == multiset(s)
  {
    assert s == s[..k] + s[k..];
  }

  /** `s.slice(0, n)`. */
  function Take<T>(s: seq<T>, n: nat): (r: seq<T>)
    ensures |r| == if |s| <= n then |s| else n
    ensures forall i :: 0 <= i < |r| ==> r[i] == s[i]
  {
    if |s| <= n then s else s[..n]
  }

  /** The extra set shown at time `t`: a new one every second, cycling through the mood's sets. */
  function SetIndex(t: nat, setCount: nat): (i: nat)
    requires setCount > 0
    ensures i < setCount
  {
    (t / 1000) % setCount
  }

  /** The rotation seed at time `t`: it changes every ten seconds and cycles through 1000 values. */
  function Seed(t: nat): (s: nat)
    ensures s < 1000
  {
    (t / 10000) % 1000
  }

  /**
   * The `content` memo. A missing mood, or one the table does not know,
   * gives the `ansioso` content as it stands. Otherwise the mood's tips and
   * distractions are each extended by the extra set of the second, rotated
   * by the seed (twice the seed for the distractions) and cut to four.
   */
  function Content(mood: Option<string>, t: nat, tables: Tables): (r: MoodContent)
    requires WellShaped(tables)
    ensures (mood.None? || mood.value !in Moods) ==> r == tables.content["ansioso"]
    ensures mood.Some? && mood.value in Moods ==>
              var base := tables.content[mood.value];
              && r == base.(consejos := r.consejos, distracciones := r.distracciones)
              && |r.consejos| == 4 && |r.distracciones| == 4
  {
    if mood.None? || mood.value !in tables.content then
      tables.content["ansioso"]
    else
      var m := mood.value;
      var base := tables.content[m];
      var extraSets := tables.extras[m];
      var selectedSet := extraSets[SetIndex(t, |extraSets|)];
      var allConsejos := base.consejos + selectedSet;
      var allDistracciones := base.distracciones + selectedSet;
      var seed := Seed(t);
      var consejoOffset := seed % |allConsejos|;
      var distraccionOffset := (seed * 2) % |allDistracciones|;
      base.(consejos := Take(Rotate(allConsejos, consejoOffset), 4),
            distracciones := Take(Rotate(allDistracciones, distraccionOffset), 4))
  }

  /**
   * For a known mood, tip `k` shown is tip `(k + seed mod 8) mod 8` of the
   * base tips followed by the second's extra set; distraction `k` is
   * distraction `(k + 2*seed mod 8) mod 8` of the base distractions followed
   * by the same set.
   */
  lemma ShownTipsAreRotated(m: string, t: nat, tables: Tables, k: nat)
    requires WellShaped(tables) && m in Moods && k < 4
    ensures var base := tables.content[m];
            var selected := tables.extras[m][SetIndex(t, 3)];
            var r := Content(Some(m), t, tables);
            && r.consejos[k] == (base.consejos + selected)[(k + Seed(t) % 8) % 8]
            && r.distracciones[k] == (base.distracciones + selected)[(k + (2 * Seed(t)) % 8) % 8]
  {
  }

  /**
   * The rotated lists the four are cut from are permutations of the base
   * list followed by the extra set; so every tip shown is a base tip or a
   * tip of that set.
   */
  lemma ShownTipsComeFromTheMood(m: string, t: nat, tables: Tables)
    requires WellShaped(tables) && m in Moods
    ensures var base := tables.content[m];
            var selected := tables.extras[m][SetIndex(t, 3)];
            var r := Content(Some(m), t, tables);
            && multiset(Rotate(base.consejos + selected, Seed(t) % 8)) == multiset(base.consejos + selected)
            && multiset(Rotate(base.distracciones + selected, (2 * Seed(t)) % 8)) == multiset(base.distracciones + selected)
            && (forall x :: x in r.consejos ==> x in base.consejos || x in selected)
            && (forall x :: x in r.distracciones ==> x in base.distracciones || x in selected)
  {
    var base := tables.content[m];
    var selected := tables.extras[m][SetIndex(t, 3)];
    var all, allD := base.consejos + selected, base.distracciones + selected;
    RotateIsPermutation(all, Seed(t) % 8);
    RotateIsPermutation(allD, (2 * Seed(t)) % 8);
    var r := Content(Some(m), t, tables);
    forall x | x in r.consejos ensures x in base.consejos || x in selected {
      var i :| 0 <= i < |r.consejos| && r.consejos[i] == x;
      assert x in multiset(Rotate(all, Seed(t) % 8));
    }
    forall x | x in r.distracciones ensures x in base.distracciones || x in selected {
      var i :| 0 <= i < |r.distracciones| && r.distracciones[i] == x;
      assert x in multiset(Rotate(allD, (2 * Seed(t) % 8)));
    }
  }

  /** The content only depends on the whole second of the timestamp. */
  lemma SameSecondSameContent(mood: Option<string>, t1: nat, t2: nat, tables: Tables)
    requires WellShaped(tables) && t1 / 1000 == t2 / 1000
    ensures Content(mood, t1, tables) == Content(mood, t2, tables)
  {
    TenSecondsOfSeconds(t1);
    TenSecondsOfSeconds(t2);
  }

  lemma TenSecondsOfSeconds(t: nat)
    ensures t / 10000 == (t / 1000) / 10
  {
    var s := t / 1000;
    var q := s / 10;
    assert t == q * 10000 + (s % 10) * 1000 + t % 1000;
  }
}
