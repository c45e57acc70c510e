/** A successful order call, taken apart into its stages. */
module Stages {
  import opened Prelude
  import opened FixedPoint
  import opened OrderBook
  import opened Soundness

  /** The pair is open, the funds are in, and the submitted order has been crossed. */
  datatype Stage = Stage(listed: Market, funded: Market, submitted: Event, crossed: Crossed)

  /** Shared by limit and market orders. */
  ghost predicate Took(rules: Tip20, m: Market, sender: Address, k: BookKey, amount: u128, limit: u128, isBid: bool,
                       s: Stage) {
    && k.base != k.quote
    && k in s.listed.books && k in s.funded.books
    && OpenPair(rules, m, k.base, k.quote) == Ok(s.listed)
    && Need(!isBid, limit, amount) <= U128_MAX
    && EnsureBalance(rules, s.listed, sender, GivenToken(k, isBid), Need(!isBid, limit, amount)) == Ok(s.funded)
    && s.funded == s.listed.(wallets := s.funded.wallets, balances := s.funded.balances)
    && s.submitted.OrderSubmitted? && s.submitted.orderId == m.nextId && s.submitted.amount == amount
    && s.submitted.maker == sender && s.submitted.base == k.base && s.submitted.quote == k.quote
    && s.funded.nextId == m.nextId
    && Cross(Submit(s.funded, s.submitted), k, !isBid, m.nextId, sender, limit, amount) == Ok(s.crossed)
    && k in s.crossed.market.books
  }

  lemma PlaceStages(rules: Tip20, m: Market, sender: Address, base: Address, quote: Address, amount: u128,
                    price: u128, isBid: bool, timeInForce: nat, o: Outcome) returns (s: Stage)
    requires CallPlace(rules, m, sender, base, quote, amount, price, isBid, timeInForce) == Ok(o)
    ensures Took(rules, m, sender, BookKey(base, quote), amount, price, isBid, s)
    ensures 0 < price && amount >= MIN_ORDER_AMOUNT && (isBid ==> BidEscrow(amount, price).Some?)
    ensures BookKey(base, quote) in s.crossed.market.books
    ensures o.market == if s.crossed.left == 0 then s.crossed.market
                        else Rest(s.crossed.market, BookKey(base, quote), isBid,
                          Resting(m.nextId, sender, price, s.crossed.left))
    ensures o.output == Placed(m.nextId) && timeInForce == TIME_IN_FORCE_GTC
    ensures s.submitted == OrderSubmitted(m.nextId, sender, base, quote, amount, price, isBid, Limit, timeInForce)
  {
    hide Cross, QuoteAmount, Rest, Available, Transfer, Credit;
    var k := BookKey(base, quote);
    var m1 := OpenPair(rules, m, base, quote).value;
    var need := if isBid then BidEscrow(amount, price).value else amount;
    var m2 := EnsureBalance(rules, m1, sender, GivenToken(k, isBid), need).value;
    var e := OrderSubmitted(m.nextId, sender, base, quote, amount, price, isBid, Limit, timeInForce);
    s := Stage(m1, m2, e, Cross(Submit(m2, e), k, !isBid, m.nextId, sender, price, amount).value);
  }

  lemma MarketStages(rules: Tip20, m: Market, sender: Address, base: Address, quote: Address, amount: u128,
                     guard: u128, isBuy: bool, timeInForce: nat, o: Outcome) returns (s: Stage)
    requires CallMarketOrder(rules, m, sender, base, quote, amount, guard, isBuy, timeInForce) == Ok(o)
    ensures Took(rules, m, sender, BookKey(base, quote), amount, guard, isBuy, s)
    ensures o.market == if s.crossed.left == 0 then s.crossed.market
                        else s.crossed.market.(log := s.crossed.market.log
                          + [OrderCancelled(m.nextId, sender, s.crossed.left, IocRemainder)])
    ensures s.crossed.quote <= U128_MAX && o.output == Traded(m.nextId, amount - s.crossed.left, s.crossed.quote)
    ensures timeInForce == TIME_IN_FORCE_FOK ==> s.crossed.left == 0
    ensures s.submitted == OrderSubmitted(m.nextId, sender, base, quote, amount, guard, isBuy, AtMarket, timeInForce)
  {
    hide Cross, QuoteAmount, Available, Transfer, Credit;
    var k := BookKey(base, quote);
    var m1 := OpenPair(rules, m, base, quote).value;
    var need := if isBuy then BidEscrow(amount, guard).value else amount;
    var m2 := EnsureBalance(rules, m1, sender, GivenToken(k, isBuy), need).value;
    var e := OrderSubmitted(m.nextId, sender, base, quote, amount, guard, isBuy, AtMarket, timeInForce);
    s := Stage(m1, m2, e, Cross(Submit(m2, e), k, !isBuy, m.nextId, sender, guard, amount).value);
  }

  lemma MarketChecks(rules: Tip20, m: Market, sender: Address, base: Address, quote: Address, amount: u128,
                     guard: u128, isBuy: bool, timeInForce: nat)
    requires CallMarketOrder(rules, m, sender, base, quote, amount, guard, isBuy, timeInForce).Ok?
    ensures amount >= MIN_ORDER_AMOUNT && timeInForce <= TIME_IN_FORCE_FOK
  {
    hide Cross, QuoteAmount, BidEscrow, EnsureBalance, OpenPair;
  }
}
