/**
 * Paystack's fee on a card charge and its inverse.
 *
 * The net of a charge rounds twice and drops by the flat fee at the waiver threshold, so it has
 * no closed-form inverse; the inverse is a bounded search around a linear estimate.
 */
module PaystackFee {
  import opened Money
  import opened Wrappers

  const PAYSTACK_RATE := 0.015
  const FLAT_KOBO := 10_000
  const FLAT_WAIVER_THRESHOLD_KOBO := 250_000
  const FEE_CAP_KOBO := 200_000
  const DEFAULT_VAT_RATE := 0.075
  const SEARCH_WINDOW_KOBO := 32

  datatype GrossUpResult = GrossUpResult(amountCharged: int, paystackFee: int)

  datatype GrossUpError = NonPositiveBase | NoSolution

  predicate IsVatRate(vat: real) { 0.0 <= vat <= 1.0 }

  /** The configured rate, falling back to the default when absent or out of range. */
  function VatRate(configured: Option<real>): (vat: real)
    ensures IsVatRate(vat)
    ensures configured.Some? && IsVatRate(configured.value) ==> vat == configured.value
    ensures configured.None? || !IsVatRate(configured.value) ==> vat == 3.0 / 40.0
  {
    if configured.Some? && IsVatRate(configured.value) then configured.value else DEFAULT_VAT_RATE
  }

  function FeeBeforeVat(amount: int): int {
    var flat := if amount < FLAT_WAIVER_THRESHOLD_KOBO then 0 else FLAT_KOBO;
    Min(Round(amount as real * PAYSTACK_RATE) + flat, FEE_CAP_KOBO)
  }

  function Fee(amount: int, vat: real): int {
    var beforeVat := FeeBeforeVat(amount);
    beforeVat + Round(beforeVat as real * vat)
  }

  function Net(amount: int, vat: real): int { amount - Fee(amount, vat) }

  /** The share of each charged kobo that survives the percentage fee and its VAT. */
  function KeptShare(vat: real): (share: real)
    requires IsVatRate(vat)
    ensures share == 0.985 - 0.015 * vat && 0.97 <= share <= 0.985
  {
    1.0 - PAYSTACK_RATE * (1.0 + vat)
  }

  /** What a charge must carry before the percentage is taken: the base and the flat fee with its VAT. */
  function Load(base: int, flat: int, vat: real): real {
    base as real + flat as real * (1.0 + vat)
  }

  /** The charge that would net the base if nothing were rounded or capped. */
  function LinearSolution(base: int, flat: int, vat: real): real
    requires IsVatRate(vat)
  {
    Load(base, flat, vat) / KeptShare(vat)
  }

  function WaivedSeed(base: int, vat: real): int
    requires IsVatRate(vat)
  {
    Ceil(LinearSolution(base, 0, vat))
  }

  function FlatSeed(base: int, vat: real): int
    requires IsVatRate(vat)
  {
    Ceil(LinearSolution(base, FLAT_KOBO, vat))
  }

  function CappedSeed(base: int, vat: real): int {
    base + FEE_CAP_KOBO + Round(FEE_CAP_KOBO as real * vat)
  }

  function Seed(base: int, vat: real): int
    requires IsVatRate(vat)
  {
    if WaivedSeed(base, vat) < FLAT_WAIVER_THRESHOLD_KOBO then WaivedSeed(base, vat)
    else if FeeBeforeVat(FlatSeed(base, vat)) < FEE_CAP_KOBO then FlatSeed(base, vat)
    else CappedSeed(base, vat)
  }

  function WindowStart(base: int, vat: real, window: nat): int
    requires IsVatRate(vat)
  {
    Max(1, Seed(base, vat) - window)
  }

  function WindowEnd(base: int, vat: real, window: nat): int
    requires IsVatRate(vat)
  {
    Seed(base, vat) + window
  }

  /** Some charge between the bounds nets the base exactly. */
  ghost predicate HasExact(base: int, vat: real, from: int, to: int) {
    exists amount :: from <= amount <= to && Net(amount, vat) == base
  }

  // ------------------------------------------------------------------ the shape of the net

  /** The processing fee never falls as the charge grows. */
  lemma BeforeVatMonotone(a: int, b: int)
    requires a <= b
    ensures FeeBeforeVat(a) <= FeeBeforeVat(b)
  {
    RoundMonotone(a as real * PAYSTACK_RATE, b as real * PAYSTACK_RATE);
  }

  lemma ProductSign(x: real, y: real)
    requires y >= 0.0
    ensures x >= 0.0 ==> x * y >= 0.0
    ensures x <= 0.0 ==> x * y <= 0.0
  {
  }

  lemma Scale(x: real, y: real, k: real)
    requires x <= y && k >= 0.0
    ensures x * k <= y * k
  {
    var gap := y - x;
    ProductSign(gap, k);
    assert gap * k == y * k - x * k;
  }

  lemma Shrink(x: real, k: real)
    requires x >= 0.0 && 0.0 <= k <= 1.0
    ensures 0.0 <= x * k <= x
  {
    var lost := 1.0 - k;
    ProductSign(x, k);
    ProductSign(x, lost);
    assert x * lost == x - x * k;
  }

  /** VAT on a larger processing fee is no smaller. */
  lemma VatMonotone(before: int, after: int, vat: real)
    requires before <= after && vat >= 0.0
    ensures Round(before as real * vat) <= Round(after as real * vat)
  {
    Scale(before as real, after as real, vat);
    RoundMonotone(before as real * vat, after as real * vat);
  }

  /** VAT on a figure that is off by at most half a kobo is off by at most half a kobo. */
  lemma VatSlack(exact: real, rounded: real, vat: real)
    requires IsVatRate(vat) && exact - 0.5 <= rounded <= exact + 0.5
    ensures exact * vat - 0.5 <= rounded * vat <= exact * vat + 0.5
  {
    if exact <= rounded {
      var over := rounded - exact;
      Shrink(over, vat);
      assert rounded * vat == exact * vat + over * vat;
    } else {
      var under := exact - rounded;
      Shrink(under, vat);
      assert rounded * vat == exact * vat - under * vat;
    }
  }

  function FlatPart(amount: int): int {
    if amount < FLAT_WAIVER_THRESHOLD_KOBO then 0 else FLAT_KOBO
  }

  /** The processing fee with neither rounding nor cap. */
  function ExactProcessing(amount: int): real {
    amount as real * PAYSTACK_RATE + FlatPart(amount) as real
  }

  /** The fee with neither rounding nor cap, VAT included. */
  function LinearFee(amount: int, vat: real): real {
    ExactProcessing(amount) + ExactProcessing(amount) * vat
  }

  /** A rounded processing fee plus its rounded VAT is within one and a half kobo of the unrounded pair. */
  lemma TwoRoundings(exact: real, rounded: int, vat: real)
    requires IsVatRate(vat) && exact - 0.5 <= rounded as real <= exact + 0.5
    ensures var total := (rounded + Round(rounded as real * vat)) as real;
            exact + exact * vat - 1.5 <= total <= exact + exact * vat + 1.5
  {
    VatSlack(exact, rounded as real, vat);
    RoundBounds(rounded as real * vat);
  }

  /** The fee is at most one and a half kobo above linear, and below the cap at most as much under it. */
  lemma FeeNearLinear(amount: int, vat: real)
    requires IsVatRate(vat)
    ensures Fee(amount, vat) as real <= LinearFee(amount, vat) + 1.5
    ensures FeeBeforeVat(amount) < FEE_CAP_KOBO ==> Fee(amount, vat) as real >= LinearFee(amount, vat) - 1.5
  {
    var uncapped := Round(amount as real * PAYSTACK_RATE) + FlatPart(amount);
    RoundBounds(amount as real * PAYSTACK_RATE);
    var exact := ExactProcessing(amount);
    assert exact - 0.5 <= uncapped as real <= exact + 0.5;
    TwoRoundings(exact, uncapped, vat);
    VatMonotone(FeeBeforeVat(amount), uncapped, vat);
    var total := uncapped + Round(uncapped as real * vat);
    assert total as real <= LinearFee(amount, vat) + 1.5;
    assert Fee(amount, vat) <= total;
    if FeeBeforeVat(amount) < FEE_CAP_KOBO {
      assert Fee(amount, vat) == total;
    }
  }

  /** One more kobo never lowers the fee. */
  lemma FeeStep(amount: int, vat: real)
    requires IsVatRate(vat)
    ensures Fee(amount, vat) <= Fee(amount + 1, vat)
  {
    BeforeVatMonotone(amount, amount + 1);
    hide FeeBeforeVat, Round;
    var before, after := FeeBeforeVat(amount), FeeBeforeVat(amount + 1);
    VatMonotone(before, after, vat);
    assert Fee(amount, vat) == before + Round(before as real * vat);
    assert Fee(amount + 1, vat) == after + Round(after as real * vat);
  }

  lemma CappedFee(before: int, cap: int, vat: real)
    requires IsVatRate(vat) && before <= cap
    ensures (before + Round(before as real * vat)) as real <= cap as real + cap as real * vat + 0.5
  {
    VatMonotone(before, cap, vat);
    RoundBounds(cap as real * vat);
  }

  /** The fee never exceeds 2000 naira and the VAT on it. */
  lemma FeeCapped(amount: int, vat: real)
    requires IsVatRate(vat)
    ensures FeeBeforeVat(amount) <= 200_000 && Fee(amount, vat) as real <= 200_000.5 + 200_000.0 * vat
  {
    var before, cap := FeeBeforeVat(amount), FEE_CAP_KOBO;
    assert before <= cap;
    hide FeeBeforeVat, Round;
    CappedFee(before, cap, vat);
    assert Fee(amount, vat) == before + Round(before as real * vat);
  }

  /**
   * The fee's regions: short of the cap it is within a kobo and a half of the tariff, one and a half per cent, with 100
   * naira more from 2500 naira on, and the VAT on that; past it the cap is charged.
   */
  lemma FeeRegions(amount: int, vat: real)
    requires IsVatRate(vat) && amount >= 0
    ensures var tariff := 0.015 * amount as real + (if amount < 250_000 then 0.0 else 10_000.0);
            (tariff <= 199_999.0 ==>
              Fee(amount, vat) as real - 1.5 <= tariff * (1.0 + vat) <= Fee(amount, vat) as real + 1.5) &&
            (tariff >= 200_000.5 ==> FeeBeforeVat(amount) == 200_000)
  {
    RoundBounds(amount as real * PAYSTACK_RATE);
    FeeNearLinear(amount, vat);
    var tariff := 0.015 * amount as real + (if amount < 250_000 then 0.0 else 10_000.0);
    assert ExactProcessing(amount) == tariff;
  }

  /** One kobo more may raise both roundings, so that less is left: the net is not monotone. */
  lemma NetCanFall()
    ensures Net(433, DEFAULT_VAT_RATE) == 427 && Net(434, DEFAULT_VAT_RATE) == 426 && Net(435, DEFAULT_VAT_RATE) == 427
  {
    assert FeeBeforeVat(433) == 6 && FeeBeforeVat(434) == 7 && FeeBeforeVat(435) == 7 by {
      RoundBounds(433 as real * PAYSTACK_RATE);
      RoundBounds(434 as real * PAYSTACK_RATE);
      RoundBounds(435 as real * PAYSTACK_RATE);
    }
    assert Round(6 as real * DEFAULT_VAT_RATE) == 0 && Round(7 as real * DEFAULT_VAT_RATE) == 1;
  }

  /** Net gains at most one per kobo, so it cannot jump over a value on the way up. */
  lemma {:induction false} NetHits(base: int, vat: real, lo: int, hi: int) returns (amount: int)
    requires IsVatRate(vat) && lo <= hi
    requires Net(lo, vat) <= base <= Net(hi, vat)
    ensures lo <= amount <= hi && Net(amount, vat) == base
    decreases hi - lo
  {
    if Net(lo, vat) == base {
      amount := lo;
    } else {
      FeeStep(lo, vat);
      amount := NetHits(base, vat, lo + 1, hi);
    }
  }

  // ------------------------------------------------------------------ the seed is close enough

  lemma QuotientTimes(k: real, d: real)
    requires d > 0.0
    ensures k / d * d == k
  {
  }

  lemma SolutionCarriesLoad(base: int, flat: int, vat: real)
    requires IsVatRate(vat)
    ensures LinearSolution(base, flat, vat) * KeptShare(vat) == Load(base, flat, vat)
  {
    QuotientTimes(Load(base, flat, vat), KeptShare(vat));
  }

  lemma LinearNet(amount: int, vat: real)
    requires IsVatRate(vat)
    ensures amount as real - LinearFee(amount, vat)
         == amount as real * KeptShare(vat) - FlatPart(amount) as real * (1.0 + vat)
  {
    var a := amount as real;
    assert a * KeptShare(vat) == 0.985 * a - 0.015 * (a * vat);
    assert ExactProcessing(amount) == 0.015 * a + FlatPart(amount) as real;
    assert ExactProcessing(amount) * vat == 0.015 * (a * vat) + FlatPart(amount) as real * vat;
  }

  lemma AtLeastTwice(gap: real, slope: real)
    requires gap >= 2.0 && slope >= 0.97
    ensures gap * slope >= 1.94
  {
    var extra, steep := gap - 2.0, slope - 0.97;
    ProductSign(extra, steep);
    assert extra * steep == gap * slope - 2.0 * slope - 0.97 * gap + 1.94;
  }

  lemma TwoAway(a: real, solution: real, k: real, slope: real)
    requires slope >= 0.97 && solution * slope == k
    ensures a >= solution + 2.0 ==> a * slope >= k + 1.94
    ensures a <= solution - 2.0 ==> a * slope <= k - 1.94
  {
    if a >= solution + 2.0 {
      var gap := a - solution;
      AtLeastTwice(gap, slope);
      assert a * slope == solution * slope + gap * slope;
    } else if a <= solution - 2.0 {
      var gap := solution - a;
      AtLeastTwice(gap, slope);
      assert a * slope == solution * slope - gap * slope;
    }
  }

  /** Two kobo past the linear solution the net has reached the base; two kobo short of it, it has not. */
  lemma AroundSolution(base: int, vat: real, amount: int)
    requires IsVatRate(vat)
    ensures var solution := LinearSolution(base, FlatPart(amount), vat);
            (amount as real >= solution + 2.0 ==> Net(amount, vat) > base) &&
            (amount as real <= solution - 2.0 && FeeBeforeVat(amount) < FEE_CAP_KOBO ==> Net(amount, vat) < base)
  {
    var flat := FlatPart(amount);
    SolutionCarriesLoad(base, flat, vat);
    TwoAway(amount as real, LinearSolution(base, flat, vat), Load(base, flat, vat), KeptShare(vat));
    LinearNet(amount, vat);
    FeeNearLinear(amount, vat);
    hide LinearFee, KeptShare, LinearSolution, FeeBeforeVat;
  }

  lemma EdgeShare(solution: real, share: real, kept: real)
    requires share > 0.0 && kept == solution * share
    ensures solution <= 249_999.0 ==> kept <= 249_999.0 * share
    ensures solution > 249_999.0 ==> kept >= 249_999.0 * share
  {
    var gap := 249_999.0 - solution;
    var keptGap := gap * share;
    assert keptGap == 249_999.0 * share - kept;
    ProductSign(gap, share);
  }

  /** A base on either side of the last waived charge's unrounded net is on the same side of its rounded net. */
  lemma EdgeArithmetic(base: int, tax: int, vat: real)
    requires IsVatRate(vat) && tax as real - 0.5 <= 3_750.0 * vat < tax as real + 0.5
    ensures base as real <= 246_249.015 - 3_749.985 * vat ==> base <= 246_249 - tax
    ensures base as real >= 246_249.015 - 3_749.985 * vat ==> base >= 246_249 - tax
  {
    var gap := base + tax - 246_249;
    assert gap as real == base as real + tax as real - 246_249.0;
  }

  /** The last waived charge, against the base that puts the linear solution on either side of it. */
  lemma LastWaivedCharge(base: int, vat: real)
    requires IsVatRate(vat)
    ensures FeeBeforeVat(249_998) == FeeBeforeVat(249_999) == 3_750
    ensures WaivedSeed(base, vat) < FLAT_WAIVER_THRESHOLD_KOBO ==> base <= Net(249_999, vat)
    ensures WaivedSeed(base, vat) >= FLAT_WAIVER_THRESHOLD_KOBO ==> Net(249_999, vat) <= base
  {
    assert FeeBeforeVat(249_998) == FeeBeforeVat(249_999) == 3_750 by {
      RoundBounds(249_999 as real * PAYSTACK_RATE);
      RoundBounds(249_998 as real * PAYSTACK_RATE);
    }
    var solution := LinearSolution(base, 0, vat);
    CeilBounds(solution);
    SolutionCarriesLoad(base, 0, vat);
    EdgeShare(solution, KeptShare(vat), base as real);
    var tax := Round(3_750 as real * vat);
    RoundBounds(3_750 as real * vat);
    assert tax as real - 0.5 <= 3_750.0 * vat < tax as real + 0.5;
    assert Net(249_999, vat) == 246_249 - tax;
    EdgeArithmetic(base, tax, vat);
  }

  /** The flat fee moves the linear solution up by at least its own size. */
  lemma FlatSolutionBeyond(base: int, vat: real)
    requires IsVatRate(vat)
    ensures LinearSolution(base, FLAT_KOBO, vat) >= LinearSolution(base, 0, vat) + 10_000.0
  {
    SolutionCarriesLoad(base, 0, vat);
    SolutionCarriesLoad(base, FLAT_KOBO, vat);
    assert Load(base, FLAT_KOBO, vat) >= Load(base, 0, vat) + 10_000.0;
    ShrinkingGap(LinearSolution(base, 0, vat), LinearSolution(base, FLAT_KOBO, vat), KeptShare(vat));
  }

  lemma ShrinkingGap(low: real, high: real, share: real)
    requires 0.0 < share <= 1.0 && high * share >= low * share + 10_000.0
    ensures high >= low + 10_000.0
  {
    var gap := high - low;
    var kept := gap * share;
    assert kept == high * share - low * share;
    ProductSign(gap, share);
    assert gap > 0.0;
    Shrink(gap, share);
  }

  lemma CapShare(solution: real, share: real, kept: real)
    requires 0.0 <= share <= 1.0 && solution >= 12_666_633.0 && kept == solution * share
    ensures 12_666_633.0 * share <= kept <= 12_666_633.0 * share + (solution - 12_666_633.0)
  {
    var over, lost := solution - 12_666_633.0, 1.0 - share;
    var keptOver, lostOver := over * share, over * lost;
    ProductSign(over, share);
    ProductSign(over, lost);
    assert keptOver == kept - 12_666_633.0 * share;
    assert lostOver == over - keptOver;
  }

  /** The capped seed lands within the capped region and just above the linear solution. */
  lemma CappedArithmetic(base: int, tax: int, solution: real, share: real, kept: real, vat: real)
    requires IsVatRate(vat) && solution >= 12_666_633.0
    requires share == 0.985 - 0.015 * vat
    requires tax as real - 0.5 <= 200_000.0 * vat < tax as real + 0.5
    requires kept == solution * share == base as real + 10_000.0 + 10_000.0 * vat
    ensures base + 200_000 + tax >= 12_666_634
    ensures (base + 200_000 + tax) as real <= solution + 2.0
  {
    CapShare(solution, share, kept);
    assert 12_666_633.0 * share == 12_476_633.505 - 189_999.495 * vat;
    var seed := (base + 200_000 + tax) as real;
    assert seed > 12_666_633.0;
  }

  /**
   * Where the seed uses the capped fee, that fee really is capped there, and the seed is no further than two kobo
   * above linear.
   */
  lemma CappedSeedIsCapped(base: int, vat: real)
    requires IsVatRate(vat) && FeeBeforeVat(FlatSeed(base, vat)) >= FEE_CAP_KOBO
    requires FlatSeed(base, vat) >= FLAT_WAIVER_THRESHOLD_KOBO
    ensures FeeBeforeVat(CappedSeed(base, vat)) == FEE_CAP_KOBO
    ensures CappedSeed(base, vat) as real <= LinearSolution(base, FLAT_KOBO, vat) + 2.0
  {
    var solution := LinearSolution(base, FLAT_KOBO, vat);
    SolutionCarriesLoad(base, FLAT_KOBO, vat);
    assert solution >= 12_666_633.0 by {
      CeilBounds(solution);
      RoundBounds(FlatSeed(base, vat) as real * PAYSTACK_RATE);
    }
    var tax := Round(FEE_CAP_KOBO as real * vat);
    RoundBounds(FEE_CAP_KOBO as real * vat);
    assert tax as real - 0.5 <= 200_000.0 * vat < tax as real + 0.5;
    assert Load(base, FLAT_KOBO, vat) == base as real + 10_000.0 + 10_000.0 * vat;
    CappedArithmetic(base, tax, solution, KeptShare(vat), Load(base, FLAT_KOBO, vat), vat);
    RoundBounds(CappedSeed(base, vat) as real * PAYSTACK_RATE);
  }

  // ------------------------------------------------------------------ the inverse

  /** Three kobo either side of the seed always hold an exact solution. */
  lemma ExactInWindow(base: int, vat: real, window: nat)
    requires IsVatRate(vat) && base > 0 && window >= 3
    ensures HasExact(base, vat, WindowStart(base, vat, window), WindowEnd(base, vat, window))
  {
    var waived, flat := WaivedSeed(base, vat), FlatSeed(base, vat);
    var seed := Seed(base, vat);
    if waived < FLAT_WAIVER_THRESHOLD_KOBO {
      CeilBounds(LinearSolution(base, 0, vat));
      WaivedSeedPositive(base, vat);
      var lo, hi := Max(1, seed - 3), Min(seed + 2, 249_999);
      BeforeVatMonotone(lo, 249_999);
      LastWaivedCharge(base, vat);
      AroundSolution(base, vat, lo);
      AroundSolution(base, vat, hi);
      FirstKobo(vat);
      var amount := NetHits(base, vat, lo, hi);
    } else {
      FlatSolutionBeyond(base, vat);
      CeilBounds(LinearSolution(base, 0, vat));
      CeilBounds(LinearSolution(base, FLAT_KOBO, vat));
      if FeeBeforeVat(flat) < FEE_CAP_KOBO {
        BeforeVatMonotone(seed - 3, seed);
        AroundSolution(base, vat, seed - 3);
        AroundSolution(base, vat, seed + 2);
        var amount := NetHits(base, vat, seed - 3, seed + 2);
      } else {
        CappedSeedIsCapped(base, vat);
        assert Net(seed, vat) == base;
      }
    }
  }

  lemma WaivedSeedPositive(base: int, vat: real)
    requires IsVatRate(vat) && base > 0
    ensures LinearSolution(base, 0, vat) > 0.0 && WaivedSeed(base, vat) >= 1
  {
    var solution := LinearSolution(base, 0, vat);
    SolutionCarriesLoad(base, 0, vat);
    CeilBounds(solution);
  }

  lemma FirstKobo(vat: real)
    requires IsVatRate(vat)
    ensures Net(1, vat) == 1
  {
    assert FeeBeforeVat(1) == 0 by { RoundBounds(1 as real * PAYSTACK_RATE); }
    assert 0 as real * vat == 0.0;
  }

  lemma WaivedBelowWindow(base: int, vat: real, window: nat, amount: int)
    requires IsVatRate(vat) && base > 0 && window >= 3
    requires 1 <= amount < WindowStart(base, vat, window) && amount < FLAT_WAIVER_THRESHOLD_KOBO
    ensures Net(amount, vat) < base
         || (amount == 249_999 && WaivedSeed(base, vat) >= FLAT_WAIVER_THRESHOLD_KOBO && Net(amount, vat) == base)
  {
    CeilBounds(LinearSolution(base, 0, vat));
    AroundSolution(base, vat, amount);
    LastWaivedCharge(base, vat);
    BeforeVatMonotone(amount, 249_999);
  }

  /** Everything cheaper than the window nets less than the base, except possibly the last waived charge. */
  lemma BelowWindow(base: int, vat: real, window: nat, amount: int)
    requires IsVatRate(vat) && base > 0 && window >= 3
    requires 1 <= amount < WindowStart(base, vat, window)
    ensures Net(amount, vat) < base
         || (amount == 249_999 && WaivedSeed(base, vat) >= FLAT_WAIVER_THRESHOLD_KOBO && Net(amount, vat) == base)
  {
    if amount < FLAT_WAIVER_THRESHOLD_KOBO {
      WaivedBelowWindow(base, vat, window, amount);
    } else {
      CeilBounds(LinearSolution(base, 0, vat));
      CeilBounds(LinearSolution(base, FLAT_KOBO, vat));
      AroundSolution(base, vat, amount);
      FlatSolutionBeyond(base, vat);
      BeforeVatMonotone(amount, Seed(base, vat));
      if FeeBeforeVat(FlatSeed(base, vat)) >= FEE_CAP_KOBO {
        CappedSeedIsCapped(base, vat);
      }
    }
  }

  /**
   * The least exact charge in the window is the least exact charge there is, unless the last waived charge lies
   * below the window and nets the base too.
   */
  lemma LeastOverall(base: int, vat: real, window: nat, amount: int)
    requires IsVatRate(vat) && base > 0 && window >= 3
    requires WindowStart(base, vat, window) <= amount && Net(amount, vat) == base
    requires forall cheaper :: WindowStart(base, vat, window) <= cheaper < amount ==> Net(cheaper, vat) != base
    ensures (forall cheaper :: 1 <= cheaper < amount ==> Net(cheaper, vat) != base)
       <==> !(249_999 < WindowStart(base, vat, window) && Net(249_999, vat) == base)
  {
    forall cheaper | 1 <= cheaper < amount && Net(cheaper, vat) == base
      ensures cheaper == 249_999 < WindowStart(base, vat, window)
    {
      BelowWindow(base, vat, window, cheaper);
    }
  }

  /** Past the threshold, every exact charge in the window pays the flat fee. */
  lemma AboveWaived(base: int, vat: real)
    requires IsVatRate(vat) && WaivedSeed(base, vat) >= FLAT_WAIVER_THRESHOLD_KOBO
    ensures Seed(base, vat) >= 259_000
  {
    CeilBounds(LinearSolution(base, 0, vat));
    CeilBounds(LinearSolution(base, FLAT_KOBO, vat));
    FlatSolutionBeyond(base, vat);
    if FeeBeforeVat(FlatSeed(base, vat)) >= FEE_CAP_KOBO {
      CappedSeedIsCapped(base, vat);
    }
  }

  /** At the default VAT and window the one base that a cheaper waived charge also nets is 245968 kobo. */
  lemma LeastOverallAtDefaultVat(base: int)
    requires base > 0
    ensures 249_999 < WindowStart(base, DEFAULT_VAT_RATE, SEARCH_WINDOW_KOBO) && Net(249_999, DEFAULT_VAT_RATE) == base
       <==> base == 245_968
  {
    RoundBounds(3_750 as real * DEFAULT_VAT_RATE);
    LastWaivedCharge(base, DEFAULT_VAT_RATE);
    CeilBounds(LinearSolution(base, 0, DEFAULT_VAT_RATE));
    if base == 245_968 {
      AboveWaived(base, DEFAULT_VAT_RATE);
    }
  }

  /**
   * What the scan answers: the cheapest exact charge, failing that the cheapest with a surplus, failing that nothing.
   */
  ghost predicate ScanAnswer(base: int, vat: real, from: int, to: int, found: Option<int>) {
    if HasExact(base, vat, from, to) then
      found.Some? && from <= found.value <= to && Net(found.value, vat) == base
      && forall cheaper :: from <= cheaper < found.value ==> Net(cheaper, vat) != base
    else if found.Some? then
      from <= found.value <= to && Net(found.value, vat) > base
      && forall cheaper :: from <= cheaper < found.value ==> Net(cheaper, vat) < base
    else
      forall amount :: from <= amount <= to ==> Net(amount, vat) < base
  }

  method ScanWindow(base: int, vat: real, from: int, to: int) returns (found: Option<int>)
    requires from >= 1
    ensures ScanAnswer(base, vat, from, to, found)
  {
    var surplus := -1;
    var amount := from;
    while amount <= to
      invariant amount >= from
      invariant forall seen :: from <= seen < amount ==> Net(seen, vat) != base
      invariant surplus < 0 ==> forall seen :: from <= seen < amount ==> Net(seen, vat) < base
      invariant surplus >= 0 ==> from <= surplus < amount && surplus <= to && Net(surplus, vat) > base
      invariant surplus >= 0 ==> (forall seen :: from <= seen < surplus ==> Net(seen, vat) < base)
    {
      var net := Net(amount, vat);
      if net == base {
        return Some(amount);
      }
      if net > base && surplus < 0 {
        surplus := amount;
      }
      amount := amount + 1;
    }
    found := if surplus > 0 then Some(surplus) else None;
  }

  /**
   * The charge whose net is the base, by scanning the window around the seed of whichever region the base falls in.
   * At any window of three kobo or more the surplus and refusal branches are never taken for a positive base.
   */
  method GrossUp(base: int, vat: real, window: nat) returns (r: Result<GrossUpResult, GrossUpError>)
    requires IsVatRate(vat)
    ensures r == Err(NonPositiveBase) <==> base <= 0
    ensures base > 0 ==>
      ScanAnswer(base, vat, WindowStart(base, vat, window), WindowEnd(base, vat, window),
                 if r.Ok? then Some(r.value.amountCharged) else None)
    ensures r.Ok? ==> r.value.paystackFee == Fee(r.value.amountCharged, vat)
    ensures base > 0 && window >= 3 ==> r.Ok? && r.value.amountCharged - r.value.paystackFee == base
  {
    if base <= 0 {
      return Err(NonPositiveBase);
    }
    var seed := WaivedSeed(base, vat);
    if seed >= FLAT_WAIVER_THRESHOLD_KOBO {
      seed := FlatSeed(base, vat);
      if FeeBeforeVat(seed) >= FEE_CAP_KOBO {
        seed := CappedSeed(base, vat);
      }
    }
    assert seed == Seed(base, vat);
    var found := ScanWindow(base, vat, Max(1, seed - window), seed + window);
    if window >= 3 {
      ExactInWindow(base, vat, window);
    }
    r := match found
      case Some(amount) => Ok(GrossUpResult(amount, Fee(amount, vat)))
      case None => Err(NoSolution);
  }
}
