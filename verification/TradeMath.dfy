/**
 Sizing, slippage and leverage-window arithmetic of trade-math.ts, telegram-trade-math.ts and jarvis-units.ts.
 Amounts are BigInts, whose division rounds towards zero.
 */
module TradeMath {
  import opened JsBasics

  const PREDICT_PRICE_SCALE := 1_000_000_000
  const MINT_BUDGET_SAFETY_BPS := 50
  const MIN_LEVERAGE_BPS := 10_000
  const MAX_LEVERAGE_BPS := 100_000
  const LEVERAGE_MIN := MIN_LEVERAGE_BPS / 10_000
  const LEVERAGE_MAX := MAX_LEVERAGE_BPS / 10_000

  // ---- amounts -------------------------------------------------------------

  function ApplySlippageBps(amount: int, slippageBps: int): int {
    TruncDiv(amount * (10_000 + slippageBps), 10_000)
  }

  function PositionQuoteAtoms(marginAtoms: int, leverageBps: int): int {
    TruncDiv(marginAtoms * leverageBps, 10_000)
  }

  function MaxMintBudgetAtoms(marginAtoms: int, leverageBps: int): int {
    TruncDiv(PositionQuoteAtoms(marginAtoms, leverageBps) * (10_000 - MINT_BUDGET_SAFETY_BPS), 10_000)
  }

  function EstimateQuantity(marginAtoms: int, leverageBps: int, premiumPerUnit: int): int {
    if premiumPerUnit <= 0 then 1
    else Max(1, TruncDiv(MaxMintBudgetAtoms(marginAtoms, leverageBps) * PREDICT_PRICE_SCALE, premiumPerUnit))
  }

  function CostFromPremiumPerUnit(premiumPerUnit: int, quantity: int): int {
    if premiumPerUnit <= 0 || quantity <= 0 then 0
    else TruncDiv(premiumPerUnit * quantity, PREDICT_PRICE_SCALE)
  }

  function CapMaxMintCost(mintCost: int, slippageBps: int, marginAtoms: int, leverageBps: int, borrowQuote: int): int {
    Min(ApplySlippageBps(mintCost, slippageBps), marginAtoms + borrowQuote)
  }

  /** Ceiling division: the dearer rounding. */
  function PremiumPerUnitFromMintCost(mintCost: int, quantity: int): int {
    if mintCost <= 0 || quantity <= 0 then 0
    else TruncDiv(mintCost * PREDICT_PRICE_SCALE + quantity - 1, quantity)
  }

  /** a / b is the one q with b * q <= a < b * (q + 1). */
  lemma QuotientBounds(a: int, b: int)
    requires a >= 0 && b > 0
    ensures 0 <= TruncDiv(a, b) && b * TruncDiv(a, b) <= a < b * TruncDiv(a, b) + b
  {
    assert a == b * (a / b) + a % b;
  }

  lemma QuotientLargest(a: int, b: int, q: int)
    requires a >= 0 && b > 0
    ensures q <= TruncDiv(a, b) <==> b * q <= a
  {
    QuotientBounds(a, b);
    var d := TruncDiv(a, b);
    if q <= d {
      MulMonotone(b, q, d);
    } else {
      MulMonotone(b, d + 1, q);
      assert b * (d + 1) == b * d + b;
    }
  }

  lemma MulMonotone(k: int, a: int, b: int)
    requires k >= 0 && a <= b
    ensures k * a <= k * b
  {
    assert k * b - k * a == k * (b - a);
  }

  /** The budget never exceeds the leveraged position. */
  lemma BudgetWithinPosition(marginAtoms: nat, leverageBps: nat)
    ensures 0 <= MaxMintBudgetAtoms(marginAtoms, leverageBps) <= PositionQuoteAtoms(marginAtoms, leverageBps)
    ensures 10_000 * PositionQuoteAtoms(marginAtoms, leverageBps) <= marginAtoms * leverageBps
  {
    MulMonotone(leverageBps, 0, marginAtoms);
    QuotientBounds(marginAtoms * leverageBps, 10_000);
    var position := PositionQuoteAtoms(marginAtoms, leverageBps);
    QuotientBounds(position * (10_000 - MINT_BUDGET_SAFETY_BPS), 10_000);
  }

  /** When one contract is affordable, the estimate is the largest affordable quantity, else it is 1. */
  lemma EstimateIsLargestAffordable(marginAtoms: nat, leverageBps: nat, premiumPerUnit: int, q: int)
    requires premiumPerUnit > 0
    ensures var budget := MaxMintBudgetAtoms(marginAtoms, leverageBps);
            var estimate := EstimateQuantity(marginAtoms, leverageBps, premiumPerUnit);
            && (budget * 1_000_000_000 >= premiumPerUnit ==>
                  (q <= estimate <==> premiumPerUnit * q <= budget * 1_000_000_000))
            && (budget * 1_000_000_000 < premiumPerUnit ==> estimate == 1)
  {
    BudgetWithinPosition(marginAtoms, leverageBps);
    var scaled := MaxMintBudgetAtoms(marginAtoms, leverageBps) * PREDICT_PRICE_SCALE;
    QuotientLargest(scaled, premiumPerUnit, q);
    QuotientLargest(scaled, premiumPerUnit, 1);
  }

  /** Without a premium the estimate is one contract, and so it is at least. */
  lemma EstimateIsAtLeastOne(marginAtoms: int, leverageBps: int, premiumPerUnit: int)
    ensures EstimateQuantity(marginAtoms, leverageBps, premiumPerUnit) >= 1
    ensures premiumPerUnit <= 0 ==> EstimateQuantity(marginAtoms, leverageBps, premiumPerUnit) == 1
  {}

  /** The estimate's own cost stays within the budget, rounded down or up. */
  lemma EstimateFitsBudget(marginAtoms: nat, leverageBps: nat, premiumPerUnit: int)
    requires 0 < premiumPerUnit <= MaxMintBudgetAtoms(marginAtoms, leverageBps) * PREDICT_PRICE_SCALE
    ensures var budget := MaxMintBudgetAtoms(marginAtoms, leverageBps);
            var estimate := EstimateQuantity(marginAtoms, leverageBps, premiumPerUnit);
            && CostFromPremiumPerUnit(premiumPerUnit, estimate) <= budget
            && TruncDiv(premiumPerUnit * estimate + PREDICT_PRICE_SCALE - 1, PREDICT_PRICE_SCALE) <= budget
  {
    var budget := MaxMintBudgetAtoms(marginAtoms, leverageBps);
    var estimate := EstimateQuantity(marginAtoms, leverageBps, premiumPerUnit);
    EstimateIsLargestAffordable(marginAtoms, leverageBps, premiumPerUnit, estimate);
    MulMonotone(premiumPerUnit, 0, estimate);
    QuotientBounds(premiumPerUnit * estimate, PREDICT_PRICE_SCALE);
    QuotientBounds(premiumPerUnit * estimate + PREDICT_PRICE_SCALE - 1, PREDICT_PRICE_SCALE);
  }

  /** The cap never exceeds the funding, and it admits the quoted cost exactly when the funding covers that cost. */
  lemma CapAdmitsQuoteExactly(mintCost: nat, slippageBps: nat, marginAtoms: int, leverageBps: int, borrowQuote: int)
    ensures var cap := CapMaxMintCost(mintCost, slippageBps, marginAtoms, leverageBps, borrowQuote);
            cap <= marginAtoms + borrowQuote && (mintCost <= cap <==> mintCost <= marginAtoms + borrowQuote)
  {
    MulMonotone(mintCost, 0, slippageBps);
    assert mintCost * (10_000 + slippageBps) == 10_000 * mintCost + mintCost * slippageBps;
    QuotientLargest(mintCost * (10_000 + slippageBps), 10_000, mintCost);
  }

  /**
   The Telegram path passes no borrow. At 1x its cap admits every cost within the budget; above 1x it admits
   exactly the costs that the margin alone covers, so part of the budget is out of reach.
   */
  lemma UnborrowedCap(mintCost: nat, slippageBps: nat, marginAtoms: nat, leverageBps: nat)
    requires mintCost <= MaxMintBudgetAtoms(marginAtoms, leverageBps)
    ensures var cap := CapMaxMintCost(mintCost, slippageBps, marginAtoms, leverageBps, 0);
            && (mintCost <= cap <==> mintCost <= marginAtoms)
            && (leverageBps <= 10_000 ==> mintCost <= cap)
  {
    CapAdmitsQuoteExactly(mintCost, slippageBps, marginAtoms, leverageBps, 0);
    BudgetWithinPosition(marginAtoms, leverageBps);
    if leverageBps <= MIN_LEVERAGE_BPS { MulMonotone(marginAtoms, leverageBps, MIN_LEVERAGE_BPS); }
  }

  /** Without borrow the cap refuses a cost that the budget allows. */
  predicate Refused(mintCost: nat, slippageBps: nat, marginAtoms: nat, leverageBps: nat) {
    && mintCost <= MaxMintBudgetAtoms(marginAtoms, leverageBps)
    && CapMaxMintCost(mintCost, slippageBps, marginAtoms, leverageBps, 0) < mintCost
  }

  /** Some budgeted cost is refused exactly when the budget exceeds the margin. */
  lemma UnborrowedCapRefusesExactly(slippageBps: nat, marginAtoms: nat, leverageBps: nat)
    ensures (exists mintCost: nat :: Refused(mintCost, slippageBps, marginAtoms, leverageBps))
            <==> marginAtoms < MaxMintBudgetAtoms(marginAtoms, leverageBps)
  {
    forall mintCost: nat | mintCost <= MaxMintBudgetAtoms(marginAtoms, leverageBps)
      ensures Refused(mintCost, slippageBps, marginAtoms, leverageBps) <==> marginAtoms < mintCost
    {
      UnborrowedCap(mintCost, slippageBps, marginAtoms, leverageBps);
    }
    BudgetWithinPosition(marginAtoms, leverageBps);
    hide CapMaxMintCost, MaxMintBudgetAtoms, PositionQuoteAtoms;
    if marginAtoms < MaxMintBudgetAtoms(marginAtoms, leverageBps) {
      assert Refused(MaxMintBudgetAtoms(marginAtoms, leverageBps), slippageBps, marginAtoms, leverageBps);
    }
  }

  /** A margin of 100 at 2x has a budget of 199, but a cost of 150 is capped at 100. */
  lemma CapRefusesBudgetedCost(slippageBps: nat)
    ensures MaxMintBudgetAtoms(100, 20_000) == 199
    ensures CapMaxMintCost(150, slippageBps, 100, 20_000, 0) == 100 && Refused(150, slippageBps, 100, 20_000)
  {
    UnborrowedCap(150, slippageBps, 100, 20_000);
  }

  /**
   Cost to premium (ceiling) and back (floor) never loses value and overshoots by at most (q - 1) / 1e9, so it is
   exact for every quantity up to 1e9.
   */
  lemma PremiumRoundTrip(mintCost: nat, quantity: int)
    requires mintCost > 0 && quantity > 0
    ensures var back := CostFromPremiumPerUnit(PremiumPerUnitFromMintCost(mintCost, quantity), quantity);
            && mintCost <= back <= mintCost + (quantity - 1) / PREDICT_PRICE_SCALE
            && (quantity <= PREDICT_PRICE_SCALE ==> back == mintCost)
  {
    var scaled := mintCost * PREDICT_PRICE_SCALE;
    var premium := PremiumPerUnitFromMintCost(mintCost, quantity);
    QuotientBounds(scaled + quantity - 1, quantity);
    assert scaled <= quantity * premium <= scaled + quantity - 1;
    QuotientLargest(scaled + quantity - 1, quantity, 1);
    assert premium >= 1;
    var paid := premium * quantity;
    QuotientBounds(paid, PREDICT_PRICE_SCALE);
    QuotientLargest(paid, PREDICT_PRICE_SCALE, mintCost);
    var over := (quantity - 1) / PREDICT_PRICE_SCALE;
    assert quantity - 1 == PREDICT_PRICE_SCALE * over + (quantity - 1) % PREDICT_PRICE_SCALE;
    assert paid < PREDICT_PRICE_SCALE * (mintCost + over + 1);
    QuotientLargest(paid, PREDICT_PRICE_SCALE, mintCost + over + 1);
  }

  // ---- every amount as a largest or a smallest -----------------------------

  /** The position is the largest amount that 10_000 times over fits margin times leverage; the budget takes 99.5 %. */
  lemma PositionAndBudgetAreLargest(marginAtoms: nat, leverageBps: nat, q: int)
    ensures q <= PositionQuoteAtoms(marginAtoms, leverageBps) <==> 10_000 * q <= marginAtoms * leverageBps
    ensures q <= MaxMintBudgetAtoms(marginAtoms, leverageBps) <==>
              10_000 * q <= PositionQuoteAtoms(marginAtoms, leverageBps) * 9_950
  {
    MulMonotone(leverageBps, 0, marginAtoms);
    QuotientLargest(marginAtoms * leverageBps, 10_000, q);
    BudgetWithinPosition(marginAtoms, leverageBps);
    QuotientLargest(PositionQuoteAtoms(marginAtoms, leverageBps) * 9_950, 10_000, q);
  }

  /** A cost is the largest that a billion times over fits premium times quantity; nothing costs nothing. */
  lemma CostIsLargest(premiumPerUnit: int, quantity: int, q: int)
    ensures premiumPerUnit > 0 && quantity > 0 ==>
              (q <= CostFromPremiumPerUnit(premiumPerUnit, quantity)
               <==> 1_000_000_000 * q <= premiumPerUnit * quantity)
    ensures premiumPerUnit <= 0 || quantity <= 0 ==> CostFromPremiumPerUnit(premiumPerUnit, quantity) == 0
  {
    if premiumPerUnit > 0 && quantity > 0 {
      MulMonotone(premiumPerUnit, 0, quantity);
      QuotientLargest(premiumPerUnit * quantity, 1_000_000_000, q);
    }
  }

  /** A premium is the smallest that, times the quantity, is worth a billion times the cost. */
  lemma PremiumIsSmallest(mintCost: int, quantity: int, p: int)
    ensures mintCost > 0 && quantity > 0 ==>
              (p >= PremiumPerUnitFromMintCost(mintCost, quantity) <==> quantity * p >= mintCost * 1_000_000_000)
    ensures mintCost <= 0 || quantity <= 0 ==> PremiumPerUnitFromMintCost(mintCost, quantity) == 0
  {
    if mintCost > 0 && quantity > 0 {
      var scaled := mintCost * 1_000_000_000;
      QuotientLargest(scaled + quantity - 1, quantity, p + 1);
      assert quantity * (p + 1) == quantity * p + quantity;
    }
  }

  /** The cap is the largest amount within both the slippage above the quoted cost and the funding. */
  lemma CapIsLargest(mintCost: nat, slippageBps: nat, marginAtoms: int, leverageBps: int, borrowQuote: int, q: int)
    ensures q <= CapMaxMintCost(mintCost, slippageBps, marginAtoms, leverageBps, borrowQuote) <==>
              10_000 * q <= mintCost * (10_000 + slippageBps) && q <= marginAtoms + borrowQuote
  {
    MulMonotone(mintCost, 0, 10_000 + slippageBps);
    QuotientLargest(mintCost * (10_000 + slippageBps), 10_000, q);
  }

  // ---- leverage windows ----------------------------------------------------

  predicate IsFinalHourBeforeExpiry(expiryMs: int, now: int, windowMs: int) {
    expiryMs > 0 && expiryMs > now && expiryMs - windowMs <= now
  }

  predicate IsLeveragedMintAllowed(expiryMs: int, leverageBps: int, now: int, windowMs: int) {
    leverageBps <= MIN_LEVERAGE_BPS || (expiryMs > 0 && now < expiryMs - windowMs)
  }

  predicate IsLeveragedMintBlocked(expiryMs: int, now: int, windowMs: int) {
    !IsLeveragedMintAllowed(expiryMs, MIN_LEVERAGE_BPS + 1, now, windowMs)
  }

  function LeverageClosesAtMs(expiryMs: int, windowMs: int): int {
    if expiryMs <= 0 then 0 else expiryMs - windowMs
  }

  function MaxLeverageForExpiry(expiryMs: int, now: int, windowMs: int, leverageMax: int): int {
    if expiryMs <= 0 || windowMs <= 0 then leverageMax
    else
      var remainingMs := Max(0, expiryMs - now);
      if remainingMs <= 0 then LEVERAGE_MIN
      else Min(leverageMax, Max(LEVERAGE_MIN, remainingMs / windowMs))
  }

  datatype FinalWindowContext = FinalWindowContext(
    inFinalWindow: bool, timeToExpiryMs: int, msUntilFinalWindow: int, leveragedMintBlocked: bool,
    finalWindowPeriodsRemaining: int, maxLeverageForTime: int, leverageClosesAtMs: int, msUntilLeverageCloses: int)

  function ComputeFinalWindowContext(expiryMs: int, now: int, windowMs: int): FinalWindowContext {
    var timeToExpiryMs := if expiryMs > now then expiryMs - now else 0;
    var inFinalWindow := IsFinalHourBeforeExpiry(expiryMs, now, windowMs);
    var leverageClosesAt := LeverageClosesAtMs(expiryMs, windowMs);
    FinalWindowContext(
      inFinalWindow, timeToExpiryMs,
      if inFinalWindow then 0 else Max(0, expiryMs - windowMs - now),
      IsLeveragedMintBlocked(expiryMs, now, windowMs),
      if timeToExpiryMs > 0 && windowMs > 0 then timeToExpiryMs / windowMs else 0,
      MaxLeverageForExpiry(expiryMs, now, windowMs, LEVERAGE_MAX),
      leverageClosesAt, Max(0, leverageClosesAt - now))
  }

  /** The separately computed outputs agree with each other. */
  lemma WindowOutputsAgree(expiryMs: int, now: int, windowMs: int)
    requires expiryMs > 0 && windowMs > 0
    ensures var c := ComputeFinalWindowContext(expiryMs, now, windowMs);
            && (c.leveragedMintBlocked <==> c.msUntilLeverageCloses == 0)
            && (now < expiryMs ==> (c.leveragedMintBlocked <==> c.inFinalWindow))
            && c.msUntilFinalWindow == c.msUntilLeverageCloses
            && (c.maxLeverageForTime >= 2 ==> !c.leveragedMintBlocked)
            && c.maxLeverageForTime == Min(10, Max(1, c.finalWindowPeriodsRemaining))
  {
    var remaining := expiryMs - now;
    if remaining > 0 { QuotientLargest(remaining, windowMs, 2); }
  }

  /** Leverage k is on offer exactly while k whole windows remain: the cap steps down once a window. */
  lemma LeverageSteps(expiryMs: int, now: int, windowMs: int, k: int)
    requires expiryMs > 0 && windowMs > 0 && 2 <= k <= 10
    ensures MaxLeverageForExpiry(expiryMs, now, windowMs, LEVERAGE_MAX) >= k <==> now <= expiryMs - k * windowMs
    ensures 1 <= MaxLeverageForExpiry(expiryMs, now, windowMs, LEVERAGE_MAX) <= 10
  {
    var remaining := Max(0, expiryMs - now);
    QuotientLargest(remaining, windowMs, k);
    MulMonotone(windowMs, 1, k);
  }

  /** As the clock advances the cap never rises and a block never clears. */
  lemma LeverageOnlyFalls(expiryMs: int, earlier: int, later: int, windowMs: int)
    requires expiryMs > 0 && windowMs > 0 && earlier <= later
    ensures MaxLeverageForExpiry(expiryMs, later, windowMs, LEVERAGE_MAX)
         <= MaxLeverageForExpiry(expiryMs, earlier, windowMs, LEVERAGE_MAX)
    ensures IsLeveragedMintBlocked(expiryMs, earlier, windowMs) ==> IsLeveragedMintBlocked(expiryMs, later, windowMs)
  {
    var k := MaxLeverageForExpiry(expiryMs, later, windowMs, LEVERAGE_MAX);
    if k >= 2 {
      LeverageSteps(expiryMs, later, windowMs, k);
      LeverageSteps(expiryMs, earlier, windowMs, k);
    }
  }

  /**
   The final window is the last `windowMs` before the expiry, its first moment included and the expiry not. Leverage is
   blocked from its first moment on, after the expiry too, and always without an expiry.
   */
  lemma WindowExactly(expiryMs: int, now: int, windowMs: int, leverageBps: int)
    ensures var c := ComputeFinalWindowContext(expiryMs, now, windowMs);
            && (c.inFinalWindow <==> 0 < expiryMs && now < expiryMs <= now + windowMs)
            && (c.leveragedMintBlocked <==> expiryMs <= 0 || expiryMs <= now + windowMs)
            && c.timeToExpiryMs == Max(0, expiryMs - now)
            && (!c.inFinalWindow ==> c.msUntilFinalWindow == Max(0, expiryMs - windowMs - now))
            && (c.inFinalWindow ==> c.msUntilFinalWindow == 0)
            && c.leverageClosesAtMs == (if expiryMs <= 0 then 0 else expiryMs - windowMs)
            && c.msUntilLeverageCloses == Max(0, c.leverageClosesAtMs - now)
            && (expiryMs <= 0 || windowMs <= 0 ==> c.maxLeverageForTime == 10)
            && (expiryMs > 0 && windowMs > 0 && now >= expiryMs ==> c.maxLeverageForTime == 1)
    ensures IsLeveragedMintAllowed(expiryMs, leverageBps, now, windowMs) <==>
              leverageBps <= 10_000 || (0 < expiryMs && now + windowMs < expiryMs)
  {}
}
