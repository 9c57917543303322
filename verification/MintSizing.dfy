/** The sizing loop of resolveMintQuote in predict-quote.service.ts, against an arbitrary price source. */
module MintSizing {
  import opened JsBasics
  import opened TradeMath

  const PREDICT_QUOTE_REFERENCE_QUANTITY := 1_000_000
  const MAX_ATTEMPTS := 12

  /** A price read: unit premium and total mint cost, or None. `read` numbers the reads, since prices move. */
  type Price = (nat, int) -> Option<(int, int)>

  datatype Quote = Quote(marketAskPerUnit: int, mintCost: int, tradeQuantity: int)

  function FetchMarketAskPair(price: Price, read: nat, quantity: int): Option<(int, int)> {
    var pair := price(read, if quantity > 0 then quantity else PREDICT_QUOTE_REFERENCE_QUANTITY);
    if pair.None? || pair.value.0 <= 0 then None else pair
  }

  /** What one probe decides: a quote, a failure, or a smaller quantity to try. */
  datatype Verdict = Fits(quote: Quote) | GiveUp | Smaller(quantity: int)

  function Probe(ask: Option<(int, int)>, budget: int, quantity: int): Verdict
    requires budget > 0
  {
    if ask.None? then GiveUp
    else
      var (unit, cost) := ask.value;
      if 0 < cost <= budget then Fits(Quote(unit, cost, quantity))
      else if cost <= 0 then (if quantity <= 1 then GiveUp else Smaller(TruncDiv(quantity, 2)))
      else
        var scaled := TruncDiv(quantity * budget, cost);
        if scaled < 1 then GiveUp else Smaller(scaled)
  }

  /** Every retry is with a smaller quantity that is still at least one. */
  lemma ProbeShrinks(ask: Option<(int, int)>, budget: int, quantity: int)
    requires budget > 0 && quantity >= 1
    ensures var v := Probe(ask, budget, quantity); v.Smaller? ==> 1 <= v.quantity < quantity
  {
    if ask.Some? && ask.value.1 > budget {
      var cost := ask.value.1;
      MulMonotone(quantity, 0, budget);
      QuotientBounds(quantity * budget, cost);
      MulMonotone(quantity, budget, cost - 1);
      QuotientLargest(quantity * budget, cost, quantity);
    }
  }

  /**
   A cost within the budget is a quote at once. One that is nothing halves the quantity, and one above the budget leaves
   the largest quantity that fits the budget at the same average cost; where that leaves none, the search gives up.
   */
  lemma ProbeExactly(unit: int, cost: int, budget: int, quantity: int)
    requires budget > 0 && quantity >= 1 && unit > 0
    ensures var v := Probe(Some((unit, cost)), budget, quantity);
            && (0 < cost <= budget <==> v == Fits(Quote(unit, cost, quantity)))
            && (cost <= 0 ==> if quantity == 1 then v == GiveUp
                              else v.Smaller? && 2 * v.quantity <= quantity <= 2 * v.quantity + 1)
            && (cost > budget ==> forall q :: q >= 1 ==>
                  (q * cost <= quantity * budget <==> v.Smaller? && q <= v.quantity))
    ensures Probe(None, budget, quantity) == GiveUp
  {
    if cost > budget {
      MulMonotone(quantity, 0, budget);
      var scaled := quantity * budget;
      forall q | q >= 1 ensures q <= TruncDiv(scaled, cost) <==> q * cost <= scaled {
        QuotientLargest(scaled, cost, q);
        assert q * cost == cost * q;
      }
    }
  }

  /** The search without a cap on the attempts: it ends by itself, as the quantity shrinks. */
  function Search(price: Price, read: nat, budget: int, quantity: int): Option<Quote>
    requires budget > 0 && quantity >= 1
    decreases quantity
  {
    ProbeShrinks(FetchMarketAskPair(price, read, quantity), budget, quantity);
    match Probe(FetchMarketAskPair(price, read, quantity), budget, quantity)
    case Fits(quote) => Some(quote)
    case GiveUp => None
    case Smaller(q) => Search(price, read + 1, budget, q)
  }

  /** The same search with at most `tries` probes. */
  function CappedSearch(price: Price, read: nat, budget: int, quantity: int, tries: nat): (r: Option<Quote>)
    requires budget > 0 && quantity >= 1
    ensures r.Some? ==>
              && 0 < r.value.mintCost <= budget && 1 <= r.value.tradeQuantity <= quantity
              && exists i: nat :: FetchMarketAskPair(price, i, r.value.tradeQuantity)
                                  == Some((r.value.marketAskPerUnit, r.value.mintCost))
    ensures r.Some? ==> Search(price, read, budget, quantity) == r
    decreases tries
  {
    if tries == 0 then None
    else
      ProbeShrinks(FetchMarketAskPair(price, read, quantity), budget, quantity);
      match Probe(FetchMarketAskPair(price, read, quantity), budget, quantity)
      case Fits(quote) => Some(quote)
      case GiveUp => None
      case Smaller(q) => CappedSearch(price, read + 1, budget, q, tries - 1)
  }

  /** With enough tries the cap does not bind. */
  lemma {:induction false} CapNeedNotBind(price: Price, read: nat, budget: int, quantity: int, tries: nat)
    requires budget > 0 && 1 <= quantity <= tries
    ensures CappedSearch(price, read, budget, quantity, tries) == Search(price, read, budget, quantity)
    decreases tries
  {
    var v := Probe(FetchMarketAskPair(price, read, quantity), budget, quantity);
    ProbeShrinks(FetchMarketAskPair(price, read, quantity), budget, quantity);
    if v.Smaller? { CapNeedNotBind(price, read + 1, budget, v.quantity, tries - 1); }
  }

  /** How many prices the uncapped search reads. */
  function Probes(price: Price, read: nat, budget: int, quantity: int): (n: nat)
    requires budget > 0 && quantity >= 1
    decreases quantity
  {
    ProbeShrinks(FetchMarketAskPair(price, read, quantity), budget, quantity);
    match Probe(FetchMarketAskPair(price, read, quantity), budget, quantity)
    case Smaller(q) => 1 + Probes(price, read + 1, budget, q)
    case _ => 1
  }

  /** The cap turns the outcome of the search into nothing exactly when the search takes more probes. */
  lemma {:induction false} CapBindsExactly(price: Price, read: nat, budget: int, quantity: int, tries: nat)
    requires budget > 0 && quantity >= 1
    ensures CappedSearch(price, read, budget, quantity, tries)
         == if Probes(price, read, budget, quantity) <= tries then Search(price, read, budget, quantity) else None
    decreases tries
  {
    var v := Probe(FetchMarketAskPair(price, read, quantity), budget, quantity);
    ProbeShrinks(FetchMarketAskPair(price, read, quantity), budget, quantity);
    if tries > 0 && v.Smaller? { CapBindsExactly(price, read + 1, budget, v.quantity, tries - 1); }
  }

  // ---- when the cap can lose a quote ---------------------------------------

  /** What is left after a cost just above the budget: the mildest rescaling. */
  function Down(budget: nat, quantity: nat): nat { quantity * budget / (budget + 1) }

  /** The slowest way down: the cost is just above the budget, `steps` times in a row. */
  function Shrunk(budget: nat, quantity: nat, steps: nat): nat
    decreases steps
  {
    if steps == 0 then quantity else Shrunk(budget, Down(budget, quantity), steps - 1)
  }

  /** The search finds a quote, but not within the tries. */
  predicate LosesQuote(price: Price, read: nat, budget: int, quantity: int, tries: nat)
    requires budget > 0 && quantity >= 1
  {
    Search(price, read, budget, quantity).Some? && CappedSearch(price, read, budget, quantity, tries).None?
  }

  lemma {:induction false} ShrunkMonotone(budget: nat, p: nat, q: nat, steps: nat)
    requires p <= q
    ensures Shrunk(budget, p, steps) <= Shrunk(budget, q, steps)
    decreases steps
  {
    if steps > 0 {
      DownMonotone(budget, p, q);
      hide Down;
      ShrunkMonotone(budget, Down(budget, p), Down(budget, q), steps - 1);
    }
  }

  lemma DownMonotone(budget: nat, p: nat, q: nat)
    requires p <= q
    ensures Down(budget, p) <= Down(budget, q)
  {
    MulMonotone(budget, p, q);
    QuotientMonotone(p * budget, q * budget, budget + 1);
  }

  lemma QuotientMonotone(a: nat, b: nat, c: nat)
    requires a <= b && c > 0
    ensures a / c <= b / c
  {
    QuotientLargest(b, c, a / c);
    QuotientBounds(a, c);
  }

  /** No probe shrinks the quantity less than a cost just above the budget does. */
  lemma SmallerAtMost(ask: Option<(int, int)>, budget: nat, quantity: nat)
    requires budget > 0 && quantity >= 1 && Probe(ask, budget, quantity).Smaller?
    ensures Probe(ask, budget, quantity).quantity <= Down(budget, quantity)
  {
    var cost := ask.value.1;
    var scaled := quantity * budget;
    MulMonotone(quantity, 0, budget);
    if cost <= 0 {
      var half := quantity / 2;
      assert (budget + 1) * half <= scaled by {
        MulMonotone(half, 1, budget);
        assert (budget + 1) * half == budget * half + half;
        MulMonotone(budget, 2 * half, quantity);
      }
      QuotientLargest(scaled, budget + 1, half);
    } else {
      var q := TruncDiv(scaled, cost);
      QuotientBounds(scaled, cost);
      MulMonotone(q, budget + 1, cost);
      QuotientLargest(scaled, budget + 1, q);
    }
  }

  lemma {:induction false} LossTakesSteps(price: Price, read: nat, budget: nat, quantity: nat, tries: nat)
    requires budget > 0 && quantity >= 1 && LosesQuote(price, read, budget, quantity, tries)
    ensures Shrunk(budget, quantity, tries) >= 1
    decreases tries
  {
    if tries > 0 {
      var ask := FetchMarketAskPair(price, read, quantity);
      ProbeShrinks(ask, budget, quantity);
      var q := Probe(ask, budget, quantity).quantity;
      LossTakesSteps(price, read + 1, budget, q, tries - 1);
      SmallerAtMost(ask, budget, quantity);
      hide Down;
      ShrunkMonotone(budget, q, Down(budget, quantity), tries - 1);
    }
  }

  /** A price that stays just above the budget up to read `last` and meets it then. */
  function SinkingPrice(budget: int, last: nat): Price {
    (read, q) => Some((1, if read <= last then budget + 1 else budget))
  }

  lemma SinkingProbe(budget: nat, quantity: nat)
    requires budget > 0 && quantity >= 1
    ensures var q := Down(budget, quantity);
            Probe(Some((1, budget + 1)), budget, quantity) == if q < 1 then GiveUp else Smaller(q)
    ensures Probe(Some((1, budget)), budget, quantity) == Fits(Quote(1, budget, quantity))
  {
    MulMonotone(quantity, 0, budget);
  }

  lemma LossGoesOn(price: Price, read: nat, budget: nat, quantity: nat, next: nat, tries: nat)
    requires budget > 0 && quantity >= 1 && next >= 1 && tries > 0
    requires Probe(FetchMarketAskPair(price, read, quantity), budget, quantity) == Smaller(next)
    requires LosesQuote(price, read + 1, budget, next, tries - 1)
    ensures LosesQuote(price, read, budget, quantity, tries)
  {
    hide Probe, FetchMarketAskPair;
  }

  lemma SinkingVerdict(budget: nat, last: nat, read: nat, quantity: nat)
    requires budget > 0 && quantity >= 1
    ensures var q := Down(budget, quantity);
            Probe(FetchMarketAskPair(SinkingPrice(budget, last), read, quantity), budget, quantity)
            == if read > last then Fits(Quote(1, budget, quantity)) else if q < 1 then GiveUp else Smaller(q)
  {
    SinkingProbe(budget, quantity);
    hide Probe;
  }

  lemma LossAtEnd(price: Price, read: nat, budget: nat, quantity: nat)
    requires budget > 0 && quantity >= 1 && Probe(FetchMarketAskPair(price, read, quantity), budget, quantity).Fits?
    ensures LosesQuote(price, read, budget, quantity, 0)
  {
    hide Probe, FetchMarketAskPair;
  }

  lemma ShrunkOneLess(budget: nat, quantity: nat, steps: nat)
    requires steps > 0 && Shrunk(budget, quantity, steps) >= 1
    ensures var q := Down(budget, quantity); q >= 1 && Shrunk(budget, q, steps - 1) >= 1
  {
    hide Down;
    if Down(budget, quantity) == 0 { ShrunkToNothing(budget, steps - 1); }
  }

  lemma {:induction false} SinkingPriceLoses(budget: nat, last: nat, read: nat, quantity: nat, tries: nat)
    requires budget > 0 && quantity >= 1 && read + tries == last + 1 && Shrunk(budget, quantity, tries) >= 1
    ensures LosesQuote(SinkingPrice(budget, last), read, budget, quantity, tries)
    decreases tries
  {
    hide Probe, FetchMarketAskPair, SinkingPrice, Shrunk, Down, LosesQuote, Search, CappedSearch;
    SinkingVerdict(budget, last, read, quantity);
    if tries == 0 {
      LossAtEnd(SinkingPrice(budget, last), read, budget, quantity);
    } else {
      var q := Down(budget, quantity);
      ShrunkOneLess(budget, quantity, tries);
      SinkingPriceLoses(budget, last, read + 1, q, tries - 1);
      LossGoesOn(SinkingPrice(budget, last), read, budget, quantity, q, tries);
    }
  }

  lemma {:induction false} ShrunkToNothing(budget: nat, steps: nat)
    ensures Shrunk(budget, 0, steps) == 0
  {
    if steps > 0 { ShrunkToNothing(budget, steps - 1); }
  }

  /**
   Some price source makes the cap lose a quote exactly when the slowest way down is still at one contract after all
   the tries.
   */
  lemma CapCanLoseExactly(budget: nat, quantity: nat, tries: nat)
    requires budget > 0 && quantity >= 1
    ensures (exists price: Price :: LosesQuote(price, 1, budget, quantity, tries))
            <==> Shrunk(budget, quantity, tries) >= 1
  {
    if Shrunk(budget, quantity, tries) >= 1 {
      SinkingPriceLoses(budget, tries, 1, quantity, tries);
    }
    forall price: Price | LosesQuote(price, 1, budget, quantity, tries) ensures Shrunk(budget, quantity, tries) >= 1 {
      LossTakesSteps(price, 1, budget, quantity, tries);
    }
  }

  /** Up to a size of budget + 1, the slowest way down takes one contract at a time. */
  lemma {:induction false} ShrunkByOne(budget: nat, quantity: nat, steps: nat)
    requires budget > 0 && steps < quantity <= budget + 1
    ensures Shrunk(budget, quantity, steps) == quantity - steps
    decreases steps
  {
    if steps > 0 {
      OneLess(budget, quantity);
      hide Down;
      ShrunkByOne(budget, quantity - 1, steps - 1);
    }
  }

  lemma OneLess(budget: nat, quantity: nat)
    requires budget > 0 && 1 <= quantity <= budget + 1
    ensures Down(budget, quantity) == quantity - 1
  {
    var scaled := quantity * budget;
    assert (budget + 1) * (quantity - 1) == scaled - (budget + 1 - quantity);
    assert (budget + 1) * quantity == scaled + quantity;
    QuotientLargest(scaled, budget + 1, quantity - 1);
    QuotientLargest(scaled, budget + 1, quantity);
  }

  /** The real cap may lose a quote for any size from 13 up to one more than the budget, and for none up to 12. */
  lemma RealCapCanLose(budget: nat, quantity: nat)
    requires 1 <= quantity <= budget + 1 && budget > 0
    ensures (exists price: Price :: LosesQuote(price, 1, budget, quantity, 12)) <==> quantity > 12
  {
    if quantity > 12 {
      ShrunkByOne(budget, quantity, 12);
      SinkingPriceLoses(budget, 12, 1, quantity, 12);
    } else {
      forall price: Price ensures !LosesQuote(price, 1, budget, quantity, 12) {
        CapNeedNotBind(price, 1, budget, quantity, 12);
      }
    }
  }

  /** A read that fails, or brings no positive premium, is no read. */
  function Ask(pair: Option<(int, int)>): Option<(int, int)> {
    if pair.Some? && pair.value.0 > 0 then pair else None
  }

  /**
   The quote, told without the loop: nothing without a budget or without a reference ask for a million contracts; else
   the outcome of the search from the estimate on, if that takes no more than twelve prices.
   */
  function Resolution(price: Price, marginQuoteAtoms: nat, leverageBps: nat): (r: Option<Quote>) {
    var budget := MaxMintBudgetAtoms(marginQuoteAtoms, leverageBps);
    var ref := Ask(price(0, 1_000_000));
    if budget <= 0 || ref.None? then None
    else
      var estimate := EstimateQuantity(marginQuoteAtoms, leverageBps, ref.value.0);
      if Probes(price, 1, budget, estimate) <= 12 then Search(price, 1, budget, estimate) else None
  }

  method ResolveMintQuote(price: Price, marginQuoteAtoms: nat, leverageBps: nat) returns (r: Option<Quote>)
    ensures r.Some? ==>
              && 0 < r.value.mintCost <= MaxMintBudgetAtoms(marginQuoteAtoms, leverageBps)
              && 10_000 * r.value.mintCost <= marginQuoteAtoms * leverageBps
              && FetchMarketAskPair(price, 0, 0).Some?
              && 1 <= r.value.tradeQuantity
                   <= EstimateQuantity(marginQuoteAtoms, leverageBps, FetchMarketAskPair(price, 0, 0).value.0)
              && exists i: nat :: FetchMarketAskPair(price, i, r.value.tradeQuantity)
                                  == Some((r.value.marketAskPerUnit, r.value.mintCost))
    ensures r == Resolution(price, marginQuoteAtoms, leverageBps)
  {
    BudgetWithinPosition(marginQuoteAtoms, leverageBps);
    var budget := MaxMintBudgetAtoms(marginQuoteAtoms, leverageBps);
    if budget <= 0 { return None; }
    var refAsk := FetchMarketAskPair(price, 0, 0);
    if refAsk.None? { return None; }

    var estimate := EstimateQuantity(marginQuoteAtoms, leverageBps, refAsk.value.0);
    var quantity := estimate;
    assert Resolution(price, marginQuoteAtoms, leverageBps)
        == CappedSearch(price, 1, budget, estimate, MAX_ATTEMPTS) by
    {
      CapBindsExactly(price, 1, budget, estimate, 12);
    }
    hide TruncDiv, MaxMintBudgetAtoms, EstimateQuantity, Resolution;
    for attempt := 0 to MAX_ATTEMPTS
      invariant 1 <= quantity <= estimate
      invariant CappedSearch(price, 1, budget, estimate, MAX_ATTEMPTS)
             == CappedSearch(price, 1 + attempt, budget, quantity, MAX_ATTEMPTS - attempt)
    {
      var atQty := FetchMarketAskPair(price, 1 + attempt, quantity);
      ProbeShrinks(atQty, budget, quantity);
      if atQty.None? { return None; }
      var (marketAskPerUnit, mintCost) := atQty.value;
      if mintCost > 0 && mintCost <= budget {
        return Some(Quote(marketAskPerUnit, mintCost, quantity));
      }
      if mintCost <= 0 {
        if quantity <= 1 { return None; }
        quantity := TruncDiv(quantity, 2);
        continue;
      }
      quantity := TruncDiv(quantity * budget, mintCost);
      if quantity < 1 { return None; }
    }
    return None;
  }

  // ---- a steady price whose average does not fall with size ----------------

  /**
   Total cost `num(q) / scale`, rounded down, at every read. Rounding aside, the average cost per contract does not
   fall as the quantity grows; a linear price is the plainest case.
   */
  ghost predicate SteadyPrice(price: Price, num: int -> nat, scale: int) {
    && scale > 0
    && (forall read: nat, q: int {:trigger price(read, q)} :: q >= 1 ==>
          && price(read, q).Some? && price(read, q).value.0 > 0
          && price(read, q).value.1 == TruncDiv(num(q), scale))
    && forall p: int, q: int {:trigger num(p), num(q)} :: 1 <= p <= q ==> num(p) * q <= num(q) * p
  }

  /** A fixed unit premium is such a price. */
  lemma LinearPriceIsSteady(premium: nat)
    requires premium > 0
    ensures SteadyPrice((_, q) => Some((premium, CostFromPremiumPerUnit(premium, q))),
                        q => if q >= 1 then premium * q else 0, PREDICT_PRICE_SCALE)
  {
    var num := (q: int) => (if q >= 1 then premium * q else 0) as nat;
    forall p: int, q: int | 1 <= p <= q ensures num(p) * q <= num(q) * p {
      assert (premium * p) * q == (premium * q) * p;
    }
  }

  lemma Cancel(a: int, b: int, k: int)
    requires k > 0 && a * k <= b * k
    ensures a <= b
  {
    if a > b { MulMonotone(k, b + 1, a); }
  }

  lemma CrossScale(numQ: nat, numS: nat, cost: nat, budget: nat, q: nat, s: nat)
    requires q > 0 && cost * s <= q * budget && numS * q <= numQ * s
    ensures numS * cost <= numQ * budget
  {
    calc {
      (numS * cost) * q;
      == { assert (numS * cost) * q == cost * (numS * q); }
      cost * (numS * q);
      <= { MulMonotone(cost, numS * q, numQ * s); }
      cost * (numQ * s);
      == { assert cost * (numQ * s) == numQ * (cost * s); }
      numQ * (cost * s);
      <= { MulMonotone(numQ, cost * s, q * budget); }
      numQ * (q * budget);
      == { assert numQ * (q * budget) == (numQ * budget) * q; }
      (numQ * budget) * q;
    }
    Cancel(numS * cost, numQ * budget, q);
  }

  lemma FloorFits(numQ: nat, numS: nat, scale: nat, cost: nat, budget: nat)
    requires numS * cost <= numQ * budget
    requires numQ < scale * (cost + 1) && 0 < budget < cost
    ensures numS < scale * (budget + 1)
  {
    var u, v := scale * (budget + 1), scale * (cost + 1);
    assert numQ * budget <= v * budget by { MulMonotone(budget, numQ, v); }
    assert v * budget <= u * cost by { Rearrange(scale, cost, budget); }
    if numS >= u {
      assert u * cost <= numS * cost by { MulMonotone(cost, u, numS); }
      assert v * budget < u * cost by { Rearrange(scale, cost, budget); }
      assert false;
    }
  }

  /** (cost + 1) * budget is less than (budget + 1) * cost when the budget is less than the cost. */
  lemma Rearrange(scale: nat, cost: nat, budget: nat)
    requires 0 < budget < cost && scale > 0
    ensures scale * (cost + 1) * budget < scale * (budget + 1) * cost
  {
    assert scale * (cost + 1) * budget == scale * (cost * budget + budget);
    assert scale * (budget + 1) * cost == scale * (cost * budget + cost);
    assert scale * (cost * budget + cost) - scale * (cost * budget + budget) == scale * (cost - budget);
    MulMonotone(cost - budget, 1, scale);
  }

  /** One rescaling by cost is enough: the rescaled quantity fits the budget. */
  lemma RescaledFits(numQ: nat, numS: nat, scale: nat, budget: int, q: int, s: int)
    requires scale > 0 && budget > 0 && 1 <= s <= q
    requires TruncDiv(numQ, scale) > budget && s == TruncDiv(q * budget, TruncDiv(numQ, scale))
    requires numS * q <= numQ * s
    ensures TruncDiv(numS, scale) <= budget
  {
    hide TruncDiv;
    var cost := TruncDiv(numQ, scale);
    assert cost * s <= q * budget by {
      MulMonotone(q, 0, budget);
      QuotientBounds(q * budget, cost);
    }
    assert numQ < scale * (cost + 1) by {
      QuotientBounds(numQ, scale);
      assert scale * (cost + 1) == scale * cost + scale;
    }
    CrossScale(numQ, numS, cost, budget, q, s);
    FloorFits(numQ, numS, scale, cost, budget);
    QuotientLargest(numS, scale, budget + 1);
  }

  /**
   What the search returns at a steady price, told without the loop: the first estimate when it fits; else the
   quantity rescaled by its cost, when that is at least one and costs anything; else nothing. The second
   rescaling never happens.
   */
  function SteadyOutcome(num: int -> nat, scale: int, budget: int, quantity: int): Option<int>
    requires scale > 0
  {
    var cost := TruncDiv(num(quantity), scale);
    if cost <= 0 then None
    else if cost <= budget then Some(quantity)
    else
      var s := TruncDiv(quantity * budget, cost);
      if s >= 1 && TruncDiv(num(s), scale) > 0 then Some(s) else None
  }

  /** A smaller quantity of something that costs nothing costs nothing. */
  lemma FreeStaysFree(numQ: nat, numS: nat, scale: nat, q: int, s: int)
    requires scale > 0 && 1 <= s < q && numS * q <= numQ * s && TruncDiv(numQ, scale) == 0
    ensures TruncDiv(numS, scale) == 0
  {
    QuotientLargest(numQ, scale, 1);
    QuotientLargest(numS, scale, 1);
    QuotientBounds(numS, scale);
    hide TruncDiv;
    if numS >= scale {
      assert numQ * s <= scale * s by { MulMonotone(s, numQ, scale); }
      assert scale * s < scale * q by { MulMonotone(scale, s + 1, q); assert scale * (s + 1) == scale * s + scale; }
      assert scale * q <= numS * q by { MulMonotone(q, scale, numS); }
      assert false;
    }
  }

  /** Where the cost is nothing, it is nothing for every smaller quantity, and the search gives up. */
  lemma {:induction false} FreeMeansNone(price: Price, num: int -> nat, scale: int, read: nat, budget: int,
                                         quantity: int, tries: nat)
    requires SteadyPrice(price, num, scale) && budget > 0 && quantity >= 1
    requires TruncDiv(num(quantity), scale) == 0
    ensures CappedSearch(price, read, budget, quantity, tries) == None
    decreases tries
  {
    assert price(read, quantity).Some?;
    if tries > 0 && quantity > 1 {
      var half := TruncDiv(quantity, 2);
      assert 1 <= half < quantity;
      hide TruncDiv;
      assert num(half) * quantity <= num(quantity) * half;
      FreeStaysFree(num(quantity), num(half), scale, quantity, half);
      FreeMeansNone(price, num, scale, read + 1, budget, half, tries - 1);
    }
  }

  /** A quantity whose cost is within the budget decides the search at once. */
  lemma AffordableDecides(price: Price, num: int -> nat, scale: int, read: nat, budget: int, quantity: int, tries: nat)
    requires SteadyPrice(price, num, scale) && budget > 0 && quantity >= 1 && tries >= 1
    requires TruncDiv(num(quantity), scale) <= budget
    ensures var r := CappedSearch(price, read, budget, quantity, tries);
            var cost := TruncDiv(num(quantity), scale);
            if cost > 0 then r.Some? && r.value.tradeQuantity == quantity && r.value.mintCost == cost else r == None
  {
    QuotientBounds(num(quantity), scale);
    hide TruncDiv;
    if TruncDiv(num(quantity), scale) == 0 {
      FreeMeansNone(price, num, scale, read, budget, quantity, tries);
    } else {
      assert price(read, quantity).Some?;
    }
  }

  /** At a steady price the search rescales by cost at most once, and its outcome is the one told above. */
  lemma SteadySearch(price: Price, num: int -> nat, scale: int, read: nat, budget: int, quantity: int, tries: nat)
    requires SteadyPrice(price, num, scale) && budget > 0 && quantity >= 1 && tries >= 2
    ensures var r := CappedSearch(price, read, budget, quantity, tries);
            match SteadyOutcome(num, scale, budget, quantity)
            case Some(q) => r.Some? && r.value.tradeQuantity == q && r.value.mintCost == TruncDiv(num(q), scale)
            case None => r == None
  {
    var cost := TruncDiv(num(quantity), scale);
    QuotientBounds(num(quantity), scale);
    if cost <= budget {
      hide TruncDiv;
      AffordableDecides(price, num, scale, read, budget, quantity, tries);
    } else {
      hide TruncDiv, SteadyPrice;
      RescaledOnce(price, num, scale, read, budget, quantity, tries);
      var s := TruncDiv(quantity * budget, cost);
      if s >= 1 {
        QuotientBounds(num(s), scale);
        AffordableDecides(price, num, scale, read + 1, budget, s, tries - 1);
      }
    }
  }

  lemma RescaledOnce(price: Price, num: int -> nat, scale: int, read: nat, budget: int, quantity: int, tries: nat)
    requires SteadyPrice(price, num, scale) && budget > 0 && quantity >= 1 && tries >= 1
    requires TruncDiv(num(quantity), scale) > budget
    ensures var s := TruncDiv(quantity * budget, TruncDiv(num(quantity), scale));
            CappedSearch(price, read, budget, quantity, tries)
            == (if s < 1 then None else CappedSearch(price, read + 1, budget, s, tries - 1))
    ensures var s := TruncDiv(quantity * budget, TruncDiv(num(quantity), scale));
            s >= 1 ==> s < quantity && TruncDiv(num(s), scale) <= budget
  {
    assert price(read, quantity).Some?;
    var s := TruncDiv(quantity * budget, TruncDiv(num(quantity), scale));
    ProbeShrinks(FetchMarketAskPair(price, read, quantity), budget, quantity);
    hide TruncDiv;
    if s >= 1 {
      assert num(s) * quantity <= num(quantity) * s;
      RescaledFits(num(quantity), num(s), scale, budget, quantity, s);
    }
  }

  /** At a steady price the quote of the whole operation is the outcome told without the loop, at the estimate. */
  lemma SteadyResolution(price: Price, num: int -> nat, scale: int, marginQuoteAtoms: nat, leverageBps: nat)
    requires SteadyPrice(price, num, scale) && MaxMintBudgetAtoms(marginQuoteAtoms, leverageBps) > 0
    ensures var budget := MaxMintBudgetAtoms(marginQuoteAtoms, leverageBps);
            var estimate := EstimateQuantity(marginQuoteAtoms, leverageBps, price(0, 1_000_000).value.0);
            var r := Resolution(price, marginQuoteAtoms, leverageBps);
            match SteadyOutcome(num, scale, budget, estimate)
            case Some(q) => r.Some? && r.value.tradeQuantity == q && r.value.mintCost == TruncDiv(num(q), scale)
            case None => r == None
  {
    var budget := MaxMintBudgetAtoms(marginQuoteAtoms, leverageBps);
    assert price(0, 1_000_000).Some? && price(0, 1_000_000).value.0 > 0;
    var estimate := EstimateQuantity(marginQuoteAtoms, leverageBps, price(0, 1_000_000).value.0);
    CapBindsExactly(price, 1, budget, estimate, 12);
    hide TruncDiv, MaxMintBudgetAtoms, EstimateQuantity, SteadyPrice, SteadyOutcome;
    SteadySearch(price, num, scale, 1, budget, estimate, 12);
  }
}
