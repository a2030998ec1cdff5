/**
 * The onboarding questionnaire (`app/onboarding.tsx`): six steps asking for
 * the daily cigarettes, the pack price (typed as text), the age, the years
 * smoked and the reason, then a confirmation that hands the answers to the
 * store.
 */
module Onboarding {
  import opened Wrappers
  import opened Types
  import opened Decimal
  import opened Utils
  import Store

  // ---------------------------------------------------------------------------
  // The pack price typed as text
  // ---------------------------------------------------------------------------

  /** `s.replace(from, to)` with a character pattern: only the first occurrence changes. */
  function ReplaceFirst(s: string, from: char, to: char): (r: string)
    ensures |r| == |s|
    ensures from !in s ==> r == s
  {
    if s == [] then []
    else if s[0] == from then [to] + s[1..]
    else [s[0]] + ReplaceFirst(s[1..], from, to)
  }

  /** The first `from` in `a + [from] + b` is the one after `a` when `a` holds none. */
  lemma {:induction false} ReplaceFirstAfter(a: string, b: string, from: char, to: char)
    requires from !in a
    ensures ReplaceFirst(a + [from] + b, from, to) == a + [to] + b
  {
    if a != [] {
      assert (a + [from] + b)[1..] == a[1..] + [from] + b;
      ReplaceFirstAfter(a[1..], b, from, to);
    }
  }

  predicate IsPriceChar(c: char) {
    IsDigit(c) || c == '.'
  }

  predicate IsPriceText(s: string) {
    forall i :: 0 <= i < |s| ==> IsPriceChar(s[i])
  }

  /** `s.replace(/[^0-9.]/g, '')`: every character but digits and dots is dropped, in order. */
  function KeepPriceChars(s: string): (r: string)
    ensures IsPriceText(r) && |r| <= |s|
    ensures IsPriceText(s) ==> r == s
    ensures forall c :: c in r ==> c in s
  {
    if s == [] then []
    else if IsPriceChar(s[0]) then [s[0]] + KeepPriceChars(s[1..])
    else KeepPriceChars(s[1..])
  }

  /** The clean-up works character by character: a concatenation is cleaned part by part. */
  lemma {:induction false} KeepPriceCharsAppend(a: string, b: string)
    ensures KeepPriceChars(a + b) == KeepPriceChars(a) + KeepPriceChars(b)
  {
    if a == [] {
      assert a + b == b;
    } else {
      var head := if IsPriceChar(a[0]) then [a[0]] else [];
      assert (a + b)[0] == a[0] && (a + b)[1..] == a[1..] + b;
      assert KeepPriceChars(a + b) == head + KeepPriceChars(a[1..] + b);
      assert KeepPriceChars(a) == head + KeepPriceChars(a[1..]);
      KeepPriceCharsAppend(a[1..], b);
      assert head + (KeepPriceChars(a[1..]) + KeepPriceChars(b)) == (head + KeepPriceChars(a[1..])) + KeepPriceChars(b);
    }
  }

  /** A single character is kept exactly when it is a digit or a dot. */
  lemma KeepPriceCharsOne(c: char)
    ensures KeepPriceChars([c]) == if IsPriceChar(c) then [c] else []
  {
  }

  /** The position of the first `c`. */
  function IndexOf(s: string, c: char): (i: nat)
    requires c in s
    ensures i < |s| && s[i] == c && c !in s[..i]
  {
    if s[0] == c then 0 else 1 + IndexOf(s[1..], c)
  }

  /**
   * `Number(s)` on a string of digits and dots: "" is 0, digits with at most
   * one dot are a decimal number (either side of the dot may be empty, not
   * both), anything else is not a number.
   */
  function DecimalValue(s: string): (v: Option<real>)
    requires IsPriceText(s)
    ensures v.Some? ==> v.value >= 0.0
    ensures '.' !in s ==> AllDigits(s) && v == Some(DigitsValue(s) as real)
  {
    if '.' !in s then
      assert AllDigits(s);
      Some(DigitsValue(s) as real)
    else
      var i := IndexOf(s, '.');
      var whole, frac := s[..i], s[i + 1..];
      if '.' in frac || (whole == [] && frac == []) then None
      else
        assert AllDigits(whole) && AllDigits(frac) by {
          forall k | 0 <= k < |frac| ensures IsDigit(frac[k]) {
            assert frac[k] == s[i + 1 + k];
          }
        }
        Some(SplitValue(whole, frac))
  }

  /** The number written `whole.frac`. */
  function SplitValue(whole: string, frac: string): (v: real)
    requires AllDigits(whole) && AllDigits(frac)
    ensures v >= 0.0
  {
    DigitsValue(whole) as real + DigitsValue(frac) as real / Pow10(|frac|) as real
  }

  /**
   * The `packPriceCents` memo: the first comma becomes a dot, everything but
   * digits and dots is dropped, and the number read is turned into cents,
   * rounded; text that is not a number gives 0.
   */
  function PackPriceCents(text: string): (cents: nat)
    ensures var v := DecimalValue(KeepPriceChars(ReplaceFirst(text, ',', '.')));
            && (v.None? ==> cents == 0)
            && (v.Some? ==> cents as real - 0.5 <= v.value * 100.0 < cents as real + 0.5)
  {
    var normalized := KeepPriceChars(ReplaceFirst(text, ',', '.'));
    match DecimalValue(normalized)
    case None => 0
    case Some(n) => Round(n * 100.0)
  }

  /** `(cents / 100).toFixed(2)` for a non-negative amount: units, a dot, two digits of cents. */
  function CentsToFixed2(cents: nat): (s: string)
    ensures IsPriceText(s) && '.' in s
  {
    NatToString(cents / 100) + "." + PadStart(cents % 100, 2)
  }

  /** `toFixed(2)` of any amount in cents: a leading '-' for negatives. */
  function PriceText(cents: int): (s: string)
    ensures cents >= 0 ==> s == CentsToFixed2(cents)
  {
    if cents < 0 then "-" + CentsToFixed2(-cents) else CentsToFixed2(cents)
  }

  lemma TwoDigitPad(n: nat)
    requires n < 100
    ensures |PadStart(n, 2)| == 2
  {
    if n >= 10 {
      assert NatToString(n) == NatToString(n / 10) + [DigitChar(n % 10)];
    }
  }

  /** The price text the screen starts from reads back as the stored price. */
  lemma PriceTextRoundTrip(cents: nat)
    ensures PackPriceCents(PriceText(cents)) == cents
  {
    PriceTextReads(cents);
    SplitValueOfCents(cents);
    RoundOfInt(cents);
  }

  /** The text of a non-negative price survives the clean-up and reads as its two parts. */
  lemma PriceTextReads(cents: nat)
    ensures var w, f := NatToString(cents / 100), PadStart(cents % 100, 2);
            && KeepPriceChars(ReplaceFirst(PriceText(cents), ',', '.')) == w + "." + f
            && DecimalValue(w + "." + f) == Some(SplitValue(w, f))
  {
    var w, f := NatToString(cents / 100), PadStart(cents % 100, 2);
    var t := PriceText(cents);
    assert t == w + "." + f;
    DecimalValueOfSplit(w, f);
    assert ',' !in t by {
      assert IsPriceText(t);
    }
  }

  /** The two parts of a price text are worth the price, in cents. */
  lemma SplitValueOfCents(cents: nat)
    ensures SplitValue(NatToString(cents / 100), PadStart(cents % 100, 2)) * 100.0 == cents as real
  {
    TwoDigitPad(cents % 100);
    NatToStringRoundTrip(cents / 100);
    assert Pow10(2) == 100;
    CentsFromParts(cents);
  }

  /** Digits, a dot and digits (either side may be empty, not both) read as the whole part plus the fraction. */
  lemma DecimalValueOfSplit(whole: string, frac: string)
    requires AllDigits(whole) && AllDigits(frac) && (whole != [] || frac != [])
    ensures IsPriceText(whole + "." + frac)
    ensures DecimalValue(whole + "." + frac) == Some(SplitValue(whole, frac))
  {
    var t := whole + "." + frac;
    assert IsPriceText(t) by {
      forall k | 0 <= k < |t| ensures IsPriceChar(t[k]) {
        if k < |whole| {
          assert t[k] == whole[k];
        } else if k > |whole| {
          assert t[k] == frac[k - |whole| - 1];
        }
      }
    }
    assert t[..|whole|] == whole;
    assert t[|whole| + 1..] == frac;
    assert t[|whole|] == '.';
    assert '.' !in whole && '.' !in frac;
    IndexOfFirst(t, '.', |whole|);
  }

  lemma CentsFromParts(cents: nat)
    ensures ((cents / 100) as real + (cents % 100) as real / 100.0) * 100.0 == cents as real
  {
    var q, r := cents / 100, cents % 100;
    assert cents == q * 100 + r;
  }

  lemma IndexOfFirst(s: string, c: char, i: nat)
    requires i < |s| && s[i] == c && c !in s[..i]
    ensures IndexOf(s, c) == i
  {
  }

  /** A comma typed as the decimal separator reads like a dot. */
  lemma CommaReadsAsDot(whole: string, frac: string)
    requires AllDigits(whole) && AllDigits(frac)
    ensures PackPriceCents(whole + "," + frac) == PackPriceCents(whole + "." + frac)
  {
    assert ',' !in whole;
    ReplaceFirstAfter(whole, frac, ',', '.');
  }

  /** Digits and dots with two dots or more are not a number. */
  lemma TwoDotsIsNone(a: string, b: string, c: string)
    requires IsPriceText(a + "." + b + "." + c)
    ensures DecimalValue(a + "." + b + "." + c) == None
  {
    var s := a + "." + b + "." + c;
    var j := |a| + 1 + |b|;
    assert s[|a|] == '.' && s[j] == '.';
    var i := IndexOf(s, '.');
    assert i <= |a|;
    assert s[i + 1..][j - i - 1] == '.';
  }

  /** Any text whose cleaned form holds two dots or more gives a price of 0. */
  lemma TwoDotsPriceIsZero(text: string, a: string, b: string, c: string)
    requires KeepPriceChars(ReplaceFirst(text, ',', '.')) == a + "." + b + "." + c
    ensures PackPriceCents(text) == 0
  {
    TwoDotsIsNone(a, b, c);
  }

  /** Any text whose cleaned form is empty or a lone dot gives a price of 0. */
  lemma NoDigitsPriceIsZero(text: string)
    requires KeepPriceChars(ReplaceFirst(text, ',', '.')) in {"", "."}
    ensures PackPriceCents(text) == 0
  {
    var t := KeepPriceChars(ReplaceFirst(text, ',', '.'));
    if t == "." {
      assert IndexOf(t, '.') == 0;
      assert t[..0] == [] && t[1..] == [];
    } else {
      assert t[..0] == [];
      RoundOfInt(0);
    }
  }

  /** Examples: "1.2.3", "." and "" read as 0. */
  lemma MalformedPriceIsZero()
    ensures PackPriceCents("1.2.3") == 0 && PackPriceCents(".") == 0 && PackPriceCents("") == 0
  {
    assert KeepPriceChars(ReplaceFirst("1.2.3", ',', '.')) == "1" + "." + "2" + "." + "3";
    TwoDotsPriceIsZero("1.2.3", "1", "2", "3");
    NoDigitsPriceIsZero(".");
    NoDigitsPriceIsZero("");
  }

  /** Example: in "4,50 €" the comma reads as a dot and the euro sign is dropped. */
  lemma EuroPriceExample()
    ensures PackPriceCents("4,50 €") == 450
  {
    EuroPriceCleans();
    FourFiftyReads();
    RoundOfInt(450);
  }

  lemma EuroPriceCleans()
    ensures KeepPriceChars(ReplaceFirst("4,50 €", ',', '.')) == "4.50"
  {
    EuroCommaReplaced();
    EuroSignDropped();
  }

  lemma EuroCommaReplaced()
    ensures ReplaceFirst("4,50 €", ',', '.') == "4.50 €"
  {
    assert "4,50 €" == "4" + [','] + "50 €";
    ReplaceFirstAfter("4", "50 €", ',', '.');
    assert "4" + ['.'] + "50 €" == "4.50 €";
  }

  lemma EuroSignDropped()
    ensures KeepPriceChars("4.50 €") == "4.50"
  {
    var t := "4.50";
    assert "4.50 €" == t + " €";
    KeepPriceCharsAppend(t, " €");
    assert IsPriceText(t);
    KeepPriceCharsAppend(" ", "€");
    KeepPriceCharsOne(' ');
    KeepPriceCharsOne('€');
    assert " " + "€" == " €";
  }

  lemma FourFiftyReads()
    ensures DecimalValue("4.50") == Some(4.5)
  {
    DecimalValueOfSplit("4", "50");
    assert "4" + "." + "50" == "4.50";
    assert DigitsValue("50") == 50 by {
      assert "50"[..1] == "5";
      assert "5"[..0] == [];
    }
    assert DigitsValue("4") == 4 by {
      assert "4"[..0] == [];
    }
    assert Pow10(2) == 100;
  }

  /** Example: a leading dot is a fraction of a unit, so ".5" is 50 cents. */
  lemma LeadingDotExample()
    ensures PackPriceCents(".5") == 50
  {
    LeadingDotCleans();
    LeadingDotReads();
    RoundOfInt(50);
  }

  lemma LeadingDotCleans()
    ensures KeepPriceChars(ReplaceFirst(".5", ',', '.')) == ".5"
  {
    assert ',' !in ".5";
    assert IsPriceText(".5");
  }

  lemma LeadingDotReads()
    ensures DecimalValue(".5") == Some(0.5)
  {
    DecimalValueOfSplit("", "5");
    assert "" + "." + "5" == ".5";
    assert SplitValue("", "5") == 0.5 by {
      assert "5"[..0] == [];
    }
  }

  // ---------------------------------------------------------------------------
  // Gating and the daily estimate
  // ---------------------------------------------------------------------------

  /** `nextEnabled`: the answer asked at `step` is acceptable (the last step always is). */
  predicate NextEnabled(step: int, cigsPerDay: int, priceCents: int, age: int, yearsSmoking: int, reason: Option<Reason>)
    ensures NextEnabled(step, cigsPerDay, priceCents, age, yearsSmoking, reason) ==> 0 <= step <= 5
    ensures step == 5 ==> NextEnabled(step, cigsPerDay, priceCents, age, yearsSmoking, reason)
  {
    (step == 0 && cigsPerDay > 0) ||
    (step == 1 && priceCents > 0) ||
    (step == 2 && age > 0 && age <= 120) ||
    (step == 3 && yearsSmoking >= 0 && yearsSmoking <= 80) ||
    (step == 4 && reason.Some?) ||
    step == 5
  }

  /**
   * The daily estimate shown under the price: the price of a 20-pack times
   * the daily count over 20, rounded, and only for a positive price.
   */
  function DailyEstimateCents(priceCents: int, cigsPerDay: int): (r: Option<int>)
    ensures r.Some? <==> priceCents > 0
    ensures r.Some? ==> r.value as real - 0.5 <= (priceCents * cigsPerDay) as real / 20.0 < r.value as real + 0.5
  {
    if priceCents > 0 then Some(Round((priceCents * cigsPerDay) as real / 20.0)) else None
  }

  /** For a non-negative count the estimate is the store's daily spend for a 20-cigarette pack. */
  lemma EstimateMatchesDailySpend(priceCents: int, cigsPerDay: int)
    requires priceCents > 0 && cigsPerDay >= 0
    ensures DailyEstimateCents(priceCents, cigsPerDay)
            == Some(DailySpendCents(Settings(cigsPerDay, priceCents, 20, None, EUR, false, None, None)))
  {
    var c, p := cigsPerDay as real, priceCents as real;
    assert c / 20.0 * p == (priceCents * cigsPerDay) as real / 20.0;
    assert (priceCents * cigsPerDay) as real / 20.0 >= 0.0;
    RoundMonotone(0.0, (priceCents * cigsPerDay) as real / 20.0);
    RoundOfInt(0);
  }

  // ---------------------------------------------------------------------------
  // The screen
  // ---------------------------------------------------------------------------

  /** The questionnaire's state: the step shown and the answers given so far. */
  class OnboardingScreen {
    var step: int
    var cigsPerDay: int
    var packPriceText: string
    var reason: Option<Reason>
    var age: int
    var yearsSmoking: int

    predicate Valid()
      reads this
    {
      0 <= step <= 5
    }

    /** The screen opens at the first step with the current settings (age 30 and 5 years when unset). */
    constructor (settings: Settings)
      ensures Valid() && step == 0
      ensures cigsPerDay == settings.cigsPerDay && packPriceText == PriceText(settings.packPriceCents)
      ensures reason == settings.reason && age == settings.age.GetOr(30) && yearsSmoking == settings.yearsSmoking.GetOr(5)
    {
      step := 0;
      cigsPerDay := settings.cigsPerDay;
      packPriceText := PriceText(settings.packPriceCents);
      reason := settings.reason;
      age := settings.age.GetOr(30);
      yearsSmoking := settings.yearsSmoking.GetOr(5);
    }

    function PriceCents(): int
      reads this
    {
      PackPriceCents(packPriceText)
    }

    function CanContinue(): bool
      reads this
    {
      NextEnabled(step, cigsPerDay, PriceCents(), age, yearsSmoking, reason)
    }

    /** The minus and plus buttons of the first question keep the count within [0, 200]. */
    method StepCigsPerDay(delta: int)
      requires delta == -1 || delta == 1
      modifies this`cigsPerDay
      ensures cigsPerDay == Clamp(old(cigsPerDay) + delta, 0, 200)
      ensures 0 <= cigsPerDay <= 200
    {
      cigsPerDay := Clamp(cigsPerDay + delta, 0, 200);
    }

    /** The age buttons keep the age within [1, 120]. */
    method StepAge(delta: int)
      requires delta == -1 || delta == 1
      modifies this`age
      ensures age == Clamp(old(age) + delta, 1, 120)
      ensures 1 <= age <= 120
    {
      age := Clamp(age + delta, 1, 120);
    }

    /** The years buttons keep the years within [0, 80]. */
    method StepYearsSmoking(delta: int)
      requires delta == -1 || delta == 1
      modifies this`yearsSmoking
      ensures yearsSmoking == Clamp(old(yearsSmoking) + delta, 0, 80)
      ensures 0 <= yearsSmoking <= 80
    {
      yearsSmoking := Clamp(yearsSmoking + delta, 0, 80);
    }

    method EditPriceText(text: string)
      modifies this`packPriceText
      ensures packPriceText == text
    {
      packPriceText := text;
    }

    method ChooseReason(r: Reason)
      modifies this`reason
      ensures reason == Some(r)
    {
      reason := Some(r);
    }

    /** The back button, shown only after the first step, goes back one step. */
    method Back()
      requires Valid()
      modifies this`step
      ensures Valid()
      ensures step == (if old(step) > 0 then old(step) - 1 else old(step))
    {
      if step > 0 {
        step := step - 1;
      }
    }

    /**
     * The continue button, disabled while the current answer is not
     * acceptable: before the last step it moves on one step; at the last step
     * it hands the answers to the store, provided a reason was chosen.
     */
    method Continue(store: Store.FumoByeStore, ts: int) returns (completed: bool)
      requires Valid()
      modifies this`step, store`state
      ensures Valid()
      ensures completed <==> old(step) == 5 && reason.Some?
      ensures step == (if old(CanContinue()) && old(step) < 5 then old(step) + 1 else old(step))
      ensures !completed ==> store.state == old(store.state)
      ensures completed ==>
                store.state == Store.OnboardedState(old(store.state),
                  Store.OnboardingArgs(cigsPerDay, PackPriceCents(packPriceText), reason.value, age, yearsSmoking), ts)
    {
      if !CanContinue() {
        return false;
      }
      if step < 5 {
        step := step + 1;
        return false;
      }
      if reason.None? {
        return false;
      }
      store.CompleteOnboarding(Store.OnboardingArgs(cigsPerDay, PriceCents(), reason.value, age, yearsSmoking), ts);
      return true;
    }
  }

  /** Every step but the last needs its own answer; the last one is always open. */
  lemma GatingPerStep(cigsPerDay: int, priceCents: int, age: int, yearsSmoking: int, reason: Option<Reason>)
    ensures NextEnabled(0, cigsPerDay, priceCents, age, yearsSmoking, reason) <==> cigsPerDay > 0
    ensures NextEnabled(1, cigsPerDay, priceCents, age, yearsSmoking, reason) <==> priceCents > 0
    ensures NextEnabled(2, cigsPerDay, priceCents, age, yearsSmoking, reason) <==> 0 < age <= 120
    ensures NextEnabled(3, cigsPerDay, priceCents, age, yearsSmoking, reason) <==> 0 <= yearsSmoking <= 80
    ensures NextEnabled(4, cigsPerDay, priceCents, age, yearsSmoking, reason) <==> reason.Some?
    ensures NextEnabled(5, cigsPerDay, priceCents, age, yearsSmoking, reason)
  {
  }
}
