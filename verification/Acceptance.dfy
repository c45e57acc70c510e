/** Exactly when an order call is accepted, in every market that users' calls can reach. */
module Acceptance {
  import opened Prelude
  import opened FixedPoint
  import opened OrderBook
  import opened Soundness
  import opened Safety
  import opened Matching
  import opened Guarantees
  import opened Custody

  // ---- crossing --------------------------------------------------------------------------

  /** Balances so far from 128 bits that no credit of a fill can overflow. */
  ghost predicate Roomy(b: Balances) {
    forall t :: 2 * Owed(b, t) <= U128_MAX
  }

  lemma SwapFits(b: Balances, taker: Address, maker: Address, paid: Address, payment: u128, bought: Address,
                 amount: u128)
    requires paid != bought && 2 * Owed(b, paid) <= U128_MAX && 2 * Owed(b, bought) <= U128_MAX
    requires amount <= BalanceOf(b, maker, bought)
    ensures Swap(b, taker, maker, paid, payment, bought, amount) != Err(Arithmetic(Overflow))
  {
    hide Owed, BalanceOf;
    if BalanceOf(b, taker, paid) >= payment {
      var b1 := Debit(b, taker, paid, payment).value;
      OwedUpdate(b, taker, paid, BalanceOf(b, taker, paid) - payment, paid);
      OwedUpdate(b, taker, paid, BalanceOf(b, taker, paid) - payment, bought);
      SomeoneIsOwed(b1, taker, bought);
      SomeoneIsOwed(b, maker, bought);
      var b2 := Credit(b1, taker, bought, amount).value;
      OwedUpdate(b1, taker, bought, BalanceOf(b1, taker, bought) + amount, paid);
      if BalanceOf(b2, maker, bought) >= amount {
        var b3 := Debit(b2, maker, bought, amount).value;
        OwedUpdate(b2, maker, bought, BalanceOf(b2, maker, bought) - amount, paid);
        SomeoneIsOwed(b3, maker, paid);
      }
    }
  }

  /** With room, a fill fails exactly when it cannot be quoted. */
  lemma FillSucceedsIff(m: Market, k: BookKey, makerIsBid: bool, takerId: nat, taker: Address, limit: u128, want: u128)
    requires k in m.books && SideOf(m.books[k], makerIsBid) != [] && Roomy(m.balances)
    requires Crosses(makerIsBid, SideOf(m.books[k], makerIsBid)[0].price, limit)
    requires Sound(m, TakerFlight(k, makerIsBid, takerId, taker, limit, want))
    ensures var best := SideOf(m.books[k], makerIsBid)[0];
            && (FillBest(m, k, makerIsBid, takerId, taker, want).Ok? <==> Quotable(Take(best, Min(want, best.qty))))
            && (FillBest(m, k, makerIsBid, takerId, taker, want).Err? ==>
                  FillBest(m, k, makerIsBid, takerId, taker, want).error == Arithmetic(QuoteOutOfRange))
  {
    var best := SideOf(m.books[k], makerIsBid)[0];
    var fill: u128 := Min(want, best.qty);
    FillQuotes(m, k, makerIsBid, takerId, taker, want);
    FillBestSound(m, k, makerIsBid, takerId, taker, limit, want);
    if QuoteAmount(fill, best.price).Some? {
      var quote := QuoteAmount(fill, best.price).value;
      MakerCovers(m, k, makerIsBid, takerId, taker, limit, want, fill);
      hide Sound, Owed, QuoteAmount, BalanceOf, Quotable;
      if makerIsBid {
        SwapFits(m.balances, taker, best.maker, k.base, fill, k.quote, quote);
      } else {
        SwapFits(m.balances, taker, best.maker, k.quote, quote, k.base, fill);
      }
    }
  }

  lemma MakerCovers(m: Market, k: BookKey, makerIsBid: bool, takerId: nat, taker: Address, limit: u128, want: u128,
                    fill: u128)
    requires k in m.books && SideOf(m.books[k], makerIsBid) != [] && fill <= SideOf(m.books[k], makerIsBid)[0].qty
    requires Sound(m, TakerFlight(k, makerIsBid, takerId, taker, limit, want))
    ensures var best := SideOf(m.books[k], makerIsBid)[0];
            && k.base != k.quote
            && BalanceOf(m.balances, best.maker, GivenToken(k, makerIsBid))
               >= if makerIsBid then QuoteFloor(fill, best.price) else fill
  {
    hide Uncrossed, Balanced, GoodSide, Escrow, QuoteFloor, BalanceOf, Reserved;
    var best := SideOf(m.books[k], makerIsBid)[0];
    ReservedCoversBest(m, k, makerIsBid);
    ReservationCoversFill(makerIsBid, best, fill);
    assert BalanceOf(m.balances, best.maker, GivenToken(k, makerIsBid))
        >= Reserved(m, best.maker, GivenToken(k, makerIsBid));
  }

  ghost predicate AllQuotable(plan: seq<Take>) {
    forall i :: 0 <= i < |plan| ==> Quotable(plan[i])
  }

  lemma AllQuotableSplit(plan: seq<Take>)
    requires plan != []
    ensures AllQuotable(plan) <==> Quotable(plan[0]) && AllQuotable(plan[1..])
  {
    hide Quotable;
    if Quotable(plan[0]) && AllQuotable(plan[1..]) {
      forall i | 0 <= i < |plan| ensures Quotable(plan[i]) {
        assert i == 0 || plan[i] == plan[1..][i - 1];
      }
    }
  }

  /** With room, a crossing succeeds exactly when every fill of its plan can be quoted. */
  lemma {:induction false} CrossSucceedsIff(m: Market, k: BookKey, makerIsBid: bool, takerId: nat, taker: Address,
                                            limit: u128, want: u128)
    requires k in m.books && Sound(m, TakerFlight(k, makerIsBid, takerId, taker, limit, want)) && Roomy(m.balances)
    ensures Cross(m, k, makerIsBid, takerId, taker, limit, want).Ok?
            <==> AllQuotable(Plan(makerIsBid, SideOf(m.books[k], makerIsBid), limit, want))
    ensures var r := Cross(m, k, makerIsBid, takerId, taker, limit, want);
            r.Err? ==> r.error == Arithmetic(QuoteOutOfRange)
    decreases |SideOf(m.books[k], makerIsBid)| + want
  {
    hide Cross, FillBest, Sound, Exchange, Owed, AfterFill, SameElsewhere, QuoteFloor, Quotable;
    var side := SideOf(m.books[k], makerIsBid);
    var plan := Plan(makerIsBid, side, limit, want);
    if want == 0 || side == [] || !Crosses(makerIsBid, side[0].price, limit) {
      CrossEnds(m, k, makerIsBid, takerId, taker, limit, want);
    } else {
      CrossTurn(m, k, makerIsBid, takerId, taker, limit, want);
      PlanAfterFill(makerIsBid, side, limit, want);
      FillSucceedsIff(m, k, makerIsBid, takerId, taker, limit, want);
      FillBestSound(m, k, makerIsBid, takerId, taker, limit, want);
      AllQuotableSplit(plan);
      hide AllQuotable, Plan;
      var f := FillBest(m, k, makerIsBid, takerId, taker, want);
      if f.Ok? {
        FillFacts(m, k, makerIsBid, takerId, taker, want, f.value);
        forall t ensures Owed(f.value.market.balances, t) == Owed(m.balances, t) {
          ExchangeConserves(m.balances, k, makerIsBid, taker, side[0].maker, f.value.amount, f.value.quote,
                            f.value.market.balances, t);
        }
        CrossSucceedsIff(f.value.market, k, makerIsBid, takerId, taker, limit, want - f.value.amount);
      }
    }
  }

  // ---- funding ---------------------------------------------------------------------------

  /** The sender's wallet can make up what the available balance lacks. */
  predicate Affordable(rules: Tip20, m: Market, sender: Address, token: Address, pulled: nat) {
    pulled == 0 || ((sender, token) !in rules.blocked && pulled <= WalletOf(m.wallets, sender, token))
  }

  /** Twice what the darkpool and the sender hold of any token fits 128 bits. */
  ghost predicate RoomFor(m: Market, sender: Address) {
    forall t :: 2 * (WalletOf(m.wallets, DARKPOOL_ADDRESS, t) + WalletOf(m.wallets, sender, t)) <= U128_MAX
  }

  ghost predicate Covered(m: Market) {
    forall t :: Surplus(m, t) >= 0
  }

  lemma FundedIff(rules: Tip20, m: Market, sender: Address, token: Address, required: u128)
    requires Sound(m, LANDED) && Covered(m) && RoomFor(m, sender) && token in rules.tokens
    ensures EnsureBalance(rules, m, sender, token, required).Ok?
            <==> Affordable(rules, m, sender, token, Shortfall(m, sender, token, required))
    ensures EnsureBalance(rules, m, sender, token, required).Err? ==>
              EnsureBalance(rules, m, sender, token, required).error == TransferRefused
  {
    AvailableIsExact(m, sender, token);
    SomeoneIsOwed(m.balances, sender, token);
    assert Surplus(m, token) >= 0;
    hide Sound, Available, Reserved, Owed;
  }

  lemma FundedIsRoomy(rules: Tip20, m: Market, sender: Address, token: Address, required: u128, funded: Market)
    requires Covered(m) && RoomFor(m, sender) && sender != DARKPOOL_ADDRESS
    requires EnsureBalance(rules, m, sender, token, required) == Ok(funded)
    ensures Roomy(funded.balances)
  {
    forall t ensures 2 * Owed(funded.balances, t) <= U128_MAX {
      EnsureBalanceDrift(rules, m, sender, token, required, t);
      EnsureBalanceMoves(rules, m, sender, token, required, DARKPOOL_ADDRESS, t);
      EnsureBalanceMoves(rules, m, sender, token, required, sender, t);
      assert Surplus(m, t) >= 0;
      hide EnsureBalance, Owed, Shortfall, WalletOf;
    }
  }

  /** Whether a listed order can be funded and crossed. */
  ghost predicate Takes(rules: Tip20, m: Market, sender: Address, k: BookKey, amount: u128, limit: u128, isBid: bool) {
    && Affordable(rules, m, sender, GivenToken(k, isBid), Pulled(m, k, isBid, sender, limit, amount))
    && AllQuotable(Plan(!isBid, SideIn(m, k, !isBid), limit, amount))
  }

  lemma ListedKeeps(rules: Tip20, m: Market, k: BookKey, listed: Market)
    requires Sound(m, LANDED) && k.base != k.quote && OpenPair(rules, m, k.base, k.quote) == Ok(listed)
    ensures Sound(listed, LANDED) && k in listed.books && (Covered(m) ==> Covered(listed))
    ensures listed.wallets == m.wallets && listed.nextId == m.nextId
    ensures forall isBid :: SideIn(m, k, isBid) == SideOf(listed.books[k], isBid)
  {
    hide Sound, Owed;
    OpenPairSound(rules, m, k.base, k.quote);
    assert forall t :: Surplus(listed, t) == Surplus(m, t);
  }

  /** A funded order crosses exactly when its plan can be quoted. */
  lemma FundedCrossesIff(rules: Tip20, m: Market, sender: Address, k: BookKey, amount: u128, limit: u128, isBid: bool,
                         funded: Market, e: Event)
    requires Sound(m, LANDED) && Covered(m) && RoomFor(m, sender) && sender != DARKPOOL_ADDRESS && k in m.books
    requires Need(!isBid, limit, amount) <= U128_MAX
    requires EnsureBalance(rules, m, sender, GivenToken(k, isBid), Need(!isBid, limit, amount)) == Ok(funded)
    requires e.OrderSubmitted? && e.orderId == m.nextId && e.amount == amount
    ensures k in funded.books && funded.nextId == m.nextId
    ensures Cross(Submit(funded, e), k, !isBid, m.nextId, sender, limit, amount).Ok?
            <==> AllQuotable(Plan(!isBid, SideOf(m.books[k], !isBid), limit, amount))
    ensures var r := Cross(Submit(funded, e), k, !isBid, m.nextId, sender, limit, amount);
            r.Err? ==> r.error == Arithmetic(QuoteOutOfRange)
  {
    hide Sound, Owed, EnsureBalance, Cross, Plan, AllQuotable, Covered, RoomFor, Need, Roomy;
    var token, need := GivenToken(k, isBid), Need(!isBid, limit, amount);
    EnsureBalanceSound(rules, m, sender, token, need);
    FundedIsRoomy(rules, m, sender, token, need, funded);
    var f := LANDED.(user := sender, token := token, need := need);
    SubmitSound(funded, f, e);
    assert f.(id := m.nextId, left := amount) == TakerFlight(k, !isBid, m.nextId, sender, limit, amount);
    CrossSucceedsIff(Submit(funded, e), k, !isBid, m.nextId, sender, limit, amount);
  }

  // ---- calls -----------------------------------------------------------------------------

  predicate PlaceWellFormed(rules: Tip20, base: Address, quote: Address, amount: u128, price: u128, isBid: bool,
                            tif: nat) {
    && tif == TIME_IN_FORCE_GTC && base != quote && amount >= MIN_ORDER_AMOUNT
    && 0 < price && QuoteAmount(amount, price).Some? && (isBid ==> BidEscrow(amount, price).Some?)
    && base in rules.tokens && quote in rules.tokens
  }

  predicate MarketWellFormed(rules: Tip20, base: Address, quote: Address, amount: u128, guard: u128, isBuy: bool,
                             tif: nat) {
    && (tif == TIME_IN_FORCE_IOC || tif == TIME_IN_FORCE_FOK) && base != quote && amount >= MIN_ORDER_AMOUNT
    && (isBuy ==> BidEscrow(amount, guard).Some?) && (!isBuy && guard != 0 ==> QuoteAmount(amount, guard).Some?)
    && base in rules.tokens && quote in rules.tokens
  }

  lemma EscrowIsNeed(amount: u128, price: u128)
    requires BidEscrow(amount, price).Some?
    ensures BidEscrow(amount, price).value == Need(false, price, amount)
  {
  }

  lemma PlaceAccepted(rules: Tip20, m: Market, sender: Address, base: Address, quote: Address, amount: u128,
                      price: u128, isBid: bool, tif: nat)
    requires Sound(m, LANDED) && Covered(m) && RoomFor(m, sender) && sender != DARKPOOL_ADDRESS
    requires PlaceWellFormed(rules, base, quote, amount, price, isBid, tif)
    ensures CallPlace(rules, m, sender, base, quote, amount, price, isBid, tif).Ok?
            <==> Takes(rules, m, sender, BookKey(base, quote), amount, price, isBid)
    ensures var k, r := BookKey(base, quote), CallPlace(rules, m, sender, base, quote, amount, price, isBid, tif);
            var pulled := Pulled(m, k, isBid, sender, price, amount);
            r.Err? ==> r.error == if Affordable(rules, m, sender, GivenToken(k, isBid), pulled)
                                  then Arithmetic(QuoteOutOfRange) else TransferRefused
  {
    hide Sound, EnsureBalance, Cross, Plan, AllQuotable, Covered, Shortfall, Rest, QuoteAmount, BidEscrow, Affordable;
    var k := BookKey(base, quote);
    var listed := OpenPair(rules, m, base, quote).value;
    ListedKeeps(rules, m, k, listed);
    if isBid {
      EscrowIsNeed(amount, price);
    }
    hide Need;
    var token, need := GivenToken(k, isBid), Need(!isBid, price, amount);
    ListingKeepsShortfall(rules, m, k, sender, token, need, listed);
    FundedIff(rules, listed, sender, token, need);
    SameAffordable(rules, m, listed, sender, token, Shortfall(m, sender, token, need));
    var funded := EnsureBalance(rules, listed, sender, token, need);
    if funded.Ok? {
      var e := OrderSubmitted(m.nextId, sender, base, quote, amount, price, isBid, Limit, tif);
      FundedCrossesIff(rules, listed, sender, k, amount, price, isBid, funded.value, e);
    }
  }

  lemma MarketAccepted(rules: Tip20, m: Market, sender: Address, base: Address, quote: Address, amount: u128,
                       guard: u128, isBuy: bool, tif: nat)
    requires Sound(m, LANDED) && Covered(m) && RoomFor(m, sender) && sender != DARKPOOL_ADDRESS
    requires MarketWellFormed(rules, base, quote, amount, guard, isBuy, tif)
    ensures var k := BookKey(base, quote);
            var r := CallMarketOrder(rules, m, sender, base, quote, amount, guard, isBuy, tif);
            var side := SideIn(m, k, !isBuy);
            var pulled := Pulled(m, k, isBuy, sender, guard, amount);
            if !Affordable(rules, m, sender, GivenToken(k, isBuy), pulled) then r == Err(TransferRefused)
            else if !AllQuotable(Plan(!isBuy, side, guard, amount)) then r == Err(Arithmetic(QuoteOutOfRange))
            else if Cost(Plan(!isBuy, side, guard, amount)) > U128_MAX then r == Err(Arithmetic(Overflow))
            else if tif == TIME_IN_FORCE_FOK && Liquidity(!isBuy, side, guard) < amount then
              r == Err(InsufficientLiquidity)
            else r.Ok?
  {
    hide Sound, EnsureBalance, Cross, Plan, AllQuotable, Covered, Shortfall, QuoteAmount, BidEscrow, Affordable, Cost,
         Taken, Liquidity, GoodSide;
    var k := BookKey(base, quote);
    var listed := OpenPair(rules, m, base, quote).value;
    ListedKeeps(rules, m, k, listed);
    if isBuy {
      EscrowIsNeed(amount, guard);
    }
    hide Need;
    var token, need := GivenToken(k, isBuy), Need(!isBuy, guard, amount);
    ListingKeepsShortfall(rules, m, k, sender, token, need, listed);
    FundedIff(rules, listed, sender, token, need);
    SameAffordable(rules, m, listed, sender, token, Shortfall(m, sender, token, need));
    var funded := EnsureBalance(rules, listed, sender, token, need);
    if funded.Ok? {
      var e := OrderSubmitted(m.nextId, sender, base, quote, amount, guard, isBuy, AtMarket, tif);
      FundedCrossesIff(rules, listed, sender, k, amount, guard, isBuy, funded.value, e);
      FundedKeepsBooks(rules, listed, sender, token, need, funded.value);
      CrossTotals(Submit(funded.value, e), k, !isBuy, m.nextId, sender, guard, amount);
      SideInGood(m, k, !isBuy);
      PlanIsPriceTime(!isBuy, SideIn(m, k, !isBuy), m.nextId, guard, amount);
    }
  }

  lemma FundedKeepsBooks(rules: Tip20, m: Market, sender: Address, token: Address, required: u128, funded: Market)
    requires EnsureBalance(rules, m, sender, token, required) == Ok(funded)
    ensures funded.books == m.books
  {
  }

  /** Why a limit order is malformed: the first check that fails decides. */
  function PlaceFault(rules: Tip20, base: Address, quote: Address, amount: u128, price: u128, isBid: bool,
                      tif: nat): Option<Error>
  {
    if tif != TIME_IN_FORCE_GTC then Some(InvalidTimeInForce)
    else if base == quote then Some(InvalidToken)
    else if amount < MIN_ORDER_AMOUNT then Some(AmountBelowMinimum)
    else if amount * price < PRICE_SCALE || amount * price >= (U128_MAX + 1) * PRICE_SCALE then Some(PriceOutOfRange)
    else if base !in rules.tokens || quote !in rules.tokens then Some(NotATip20)
    else if isBid && amount * price > U128_MAX * PRICE_SCALE then Some(PriceOutOfRange)
    else None
  }

  /**
    The outcome of a limit order after any run of users' calls: refused for its first fault, or
    because its sender cannot fund it, or because a fill of its plan cannot be quoted; accepted
    otherwise.
   */
  lemma PlaceAcceptedIff(steps: seq<Step>, rules: Tip20, sender: Address, base: Address, quote: Address, amount: u128,
                         price: u128, isBid: bool, tif: nat)
    requires CalledByUsers(steps) && sender != DARKPOOL_ADDRESS && RoomFor(Run(steps), sender)
    ensures var m, k := Run(steps), BookKey(base, quote);
            var r := Execute(rules, m, sender, Place(base, quote, amount, price, isBid, tif));
            var fault := PlaceFault(rules, base, quote, amount, price, isBid, tif);
            var pulled := Pulled(m, k, isBid, sender, price, amount);
            if fault.Some? then r == Err(fault.value)
            else if !Affordable(rules, m, sender, GivenToken(k, isBid), pulled) then r == Err(TransferRefused)
            else if !AllQuotable(Plan(!isBid, SideIn(m, k, !isBid), price, amount)) then
              r == Err(Arithmetic(QuoteOutOfRange))
            else r.Ok?
  {
    hide Run, Sound, CallPlace, RoomFor, Surplus, PlaceWellFormed, CalledByUsers, AllQuotable, Affordable, PlaceFault,
         Pulled, Plan, SideIn;
    if PlaceFault(rules, base, quote, amount, price, isBid, tif).None? {
      PlaceIsWellFormed(rules, base, quote, amount, price, isBid, tif);
      RunSound(steps);
      forall t ensures Surplus(Run(steps), t) >= 0 {
        RunCovered(steps, t);
      }
      PlaceAccepted(rules, Run(steps), sender, base, quote, amount, price, isBid, tif);
    } else {
      PlaceFaultRefuses(rules, Run(steps), sender, base, quote, amount, price, isBid, tif);
    }
  }

  lemma PlaceFaultRefuses(rules: Tip20, m: Market, sender: Address, base: Address, quote: Address, amount: u128,
                          price: u128, isBid: bool, tif: nat)
    requires PlaceFault(rules, base, quote, amount, price, isBid, tif).Some?
    ensures CallPlace(rules, m, sender, base, quote, amount, price, isBid, tif)
         == Err(PlaceFault(rules, base, quote, amount, price, isBid, tif).value)
  {
    hide EnsureBalance, Cross, QuoteFloor, Escrow, Rest;
  }

  lemma PlaceIsWellFormed(rules: Tip20, base: Address, quote: Address, amount: u128, price: u128, isBid: bool, tif: nat)
    requires PlaceFault(rules, base, quote, amount, price, isBid, tif).None?
    ensures PlaceWellFormed(rules, base, quote, amount, price, isBid, tif)
  {
  }

  /** Why a market order is malformed: the first check that fails decides. */
  function MarketFault(rules: Tip20, base: Address, quote: Address, amount: u128, guard: u128, isBuy: bool,
                       tif: nat): Option<Error>
  {
    if tif != TIME_IN_FORCE_IOC && tif != TIME_IN_FORCE_FOK then Some(InvalidTimeInForce)
    else if base == quote then Some(InvalidToken)
    else if amount < MIN_ORDER_AMOUNT then Some(AmountBelowMinimum)
    else if isBuy && (guard == 0 || amount * guard > U128_MAX * PRICE_SCALE) then Some(PriceOutOfRange)
    else if !isBuy && guard != 0
         && (amount * guard < PRICE_SCALE || amount * guard >= (U128_MAX + 1) * PRICE_SCALE) then Some(PriceOutOfRange)
    else if base !in rules.tokens || quote !in rules.tokens then Some(NotATip20)
    else None
  }

  /**
    The same for market orders; besides, the quote total must fit 128 bits, and fill-or-kill
    needs liquidity for the whole amount within the guard price.
   */
  lemma MarketOrderAcceptedIff(steps: seq<Step>, rules: Tip20, sender: Address, base: Address, quote: Address,
                               amount: u128, guard: u128, isBuy: bool, tif: nat)
    requires CalledByUsers(steps) && sender != DARKPOOL_ADDRESS && RoomFor(Run(steps), sender)
    ensures var m, k := Run(steps), BookKey(base, quote);
            var r := Execute(rules, m, sender, MarketOrder(base, quote, amount, guard, isBuy, tif));
            var fault := MarketFault(rules, base, quote, amount, guard, isBuy, tif);
            var side := SideIn(m, k, !isBuy);
            var pulled := Pulled(m, k, isBuy, sender, guard, amount);
            if fault.Some? then r == Err(fault.value)
            else if !Affordable(rules, m, sender, GivenToken(k, isBuy), pulled) then r == Err(TransferRefused)
            else if !AllQuotable(Plan(!isBuy, side, guard, amount)) then r == Err(Arithmetic(QuoteOutOfRange))
            else if Cost(Plan(!isBuy, side, guard, amount)) > U128_MAX then r == Err(Arithmetic(Overflow))
            else if tif == TIME_IN_FORCE_FOK && Liquidity(!isBuy, side, guard) < amount then
              r == Err(InsufficientLiquidity)
            else r.Ok?
  {
    hide Run, Sound, CallMarketOrder, RoomFor, Surplus, MarketWellFormed, CalledByUsers, Cost, Plan, Liquidity,
         AllQuotable, Affordable, Pulled, MarketFault, SideIn;
    if MarketFault(rules, base, quote, amount, guard, isBuy, tif).None? {
      MarketIsWellFormed(rules, base, quote, amount, guard, isBuy, tif);
      RunSound(steps);
      forall t ensures Surplus(Run(steps), t) >= 0 {
        RunCovered(steps, t);
      }
      MarketAccepted(rules, Run(steps), sender, base, quote, amount, guard, isBuy, tif);
    } else {
      MarketFaultRefuses(rules, Run(steps), sender, base, quote, amount, guard, isBuy, tif);
    }
  }

  lemma MarketIsWellFormed(rules: Tip20, base: Address, quote: Address, amount: u128, guard: u128, isBuy: bool,
                           tif: nat)
    requires MarketFault(rules, base, quote, amount, guard, isBuy, tif).None?
    ensures MarketWellFormed(rules, base, quote, amount, guard, isBuy, tif)
  {
  }

  lemma MarketFaultRefuses(rules: Tip20, m: Market, sender: Address, base: Address, quote: Address, amount: u128,
                           guard: u128, isBuy: bool, tif: nat)
    requires MarketFault(rules, base, quote, amount, guard, isBuy, tif).Some?
    ensures CallMarketOrder(rules, m, sender, base, quote, amount, guard, isBuy, tif)
         == Err(MarketFault(rules, base, quote, amount, guard, isBuy, tif).value)
  {
    hide EnsureBalance, Cross, QuoteFloor, Escrow;
  }

  lemma SameAffordable(rules: Tip20, m: Market, m': Market, sender: Address, token: Address, pulled: nat)
    requires m.wallets == m'.wallets
    ensures Affordable(rules, m, sender, token, pulled) == Affordable(rules, m', sender, token, pulled)
  {
  }
}
