/**
  Matching against its declarative form: a greedy plan read off the sorted maker side, at maker
  prices, with price-time priority.
 */
module Matching {
  import opened Prelude
  import opened FixedPoint
  import opened OrderBook
  import opened Soundness

  datatype Take = Take(order: Resting, amount: u128)

  /** Which orders a taker consumes, and how much of each. */
  function Plan(makerIsBid: bool, side: seq<Resting>, limit: u128, want: u128): seq<Take> {
    if want == 0 || side == [] || !Crosses(makerIsBid, side[0].price, limit) then []
    else
      var amount := Min(want, side[0].qty);
      [Take(side[0], amount)] + Plan(makerIsBid, side[1..], limit, want - amount)
  }

  function Taken(plan: seq<Take>): nat {
    if plan == [] then 0 else plan[0].amount + Taken(plan[1..])
  }

  /** Quote value of a plan, each fill rounded down on its own. */
  function Cost(plan: seq<Take>): nat {
    if plan == [] then 0 else QuoteFloor(plan[0].amount, plan[0].order.price) + Cost(plan[1..])
  }

  /** Net effect of a plan on one balance. */
  function Flow(k: BookKey, makerIsBid: bool, taker: Address, plan: seq<Take>, u: Address, t: Address): int {
    if plan == [] then 0
    else
      var x := plan[0];
      ExchangeDelta(k, makerIsBid, taker, x.order.maker, x.amount, QuoteFloor(x.amount, x.order.price), u, t)
      + Flow(k, makerIsBid, taker, plan[1..], u, t)
  }

  function PlanEvents(plan: seq<Take>, takerId: nat, taker: Address): seq<Event> {
    if plan == [] then []
    else [FillEvent(plan[0].order, takerId, taker, plan[0].amount)] + PlanEvents(plan[1..], takerId, taker)
  }

  /** The maker side with the plan's orders gone, or reduced when the last one was partly taken. */
  function LeftOnSide(side: seq<Resting>, plan: seq<Take>): seq<Resting> {
    var n := |plan| - 1;
    if plan == [] || n >= |side| || plan[n].amount > side[n].qty then side else AfterFill(side[n..], plan[n].amount)
  }

  /** Quantity offered within a limit, anywhere on the side. */
  function Liquidity(makerIsBid: bool, side: seq<Resting>, limit: u128): nat {
    if side == [] then 0
    else
      (if Crosses(makerIsBid, side[0].price, limit) then side[0].qty else 0) + Liquidity(makerIsBid, side[1..], limit)
  }

  lemma {:induction false} NoLiquidity(makerIsBid: bool, side: seq<Resting>, limit: u128)
    requires forall o :: o in side ==> !Crosses(makerIsBid, o.price, limit)
    ensures Liquidity(makerIsBid, side, limit) == 0
  {
    if side != [] {
      NoLiquidity(makerIsBid, side[1..], limit);
    }
  }

  lemma TailGood(isBid: bool, side: seq<Resting>, nextId: nat)
    requires GoodSide(isBid, side, nextId) && side != []
    ensures GoodSide(isBid, side[1..], nextId)
  {
  }

  lemma {:induction false} PlanFromFront(makerIsBid: bool, side: seq<Resting>, limit: u128, want: u128)
    ensures var plan := Plan(makerIsBid, side, limit, want);
            && |plan| <= |side|
            && (forall i :: 0 <= i < |plan| ==> plan[i].order == side[i] && plan[i].amount <= side[i].qty)
            && (forall i :: 0 <= i < |plan| - 1 ==> plan[i].amount == side[i].qty)
            && (forall i :: 0 <= i < |plan| ==> Crosses(makerIsBid, plan[i].order.price, limit))
  {
    var plan := Plan(makerIsBid, side, limit, want);
    if plan != [] {
      var amount := Min(want, side[0].qty);
      var rest := Plan(makerIsBid, side[1..], limit, want - amount);
      PlanFromFront(makerIsBid, side[1..], limit, want - amount);
      assert plan[1..] == rest;
      hide Plan;
      assert forall i :: 0 < i < |plan| ==> plan[i] == rest[i - 1] && side[i] == side[1..][i - 1];
    }
  }

  lemma {:induction false} PlanTakesLiquidity(makerIsBid: bool, side: seq<Resting>, nextId: nat, limit: u128,
                                              want: u128)
    requires GoodSide(makerIsBid, side, nextId)
    ensures Taken(Plan(makerIsBid, side, limit, want)) == Min(want, Liquidity(makerIsBid, side, limit))
  {
    if side == [] {
    } else if !Crosses(makerIsBid, side[0].price, limit) {
      BestRules(makerIsBid, side, nextId, limit);
      NoLiquidity(makerIsBid, side, limit);
    } else if want != 0 {
      TailGood(makerIsBid, side, nextId);
      hide GoodSide;
      var amount := Min(want, side[0].qty);
      PlanTakesLiquidity(makerIsBid, side[1..], nextId, limit, want - amount);
      assert Plan(makerIsBid, side, limit, want)[1..] == Plan(makerIsBid, side[1..], limit, want - amount);
    }
  }

  /**
    Price-time priority: the plan takes the side's orders from the front without skipping any,
    takes every one but the last in full, never one outside the limit, and fills exactly the
    smaller of what is wanted and what the whole side offers within the limit.
   */
  lemma PlanIsPriceTime(makerIsBid: bool, side: seq<Resting>, nextId: nat, limit: u128, want: u128)
    requires GoodSide(makerIsBid, side, nextId)
    ensures var plan := Plan(makerIsBid, side, limit, want);
            && |plan| <= |side|
            && Taken(plan) == Min(want, Liquidity(makerIsBid, side, limit))
            && (forall i :: 0 <= i < |plan| ==> plan[i].order == side[i] && plan[i].amount <= side[i].qty)
            && (forall i :: 0 <= i < |plan| - 1 ==> plan[i].amount == side[i].qty)
            && (forall i :: 0 <= i < |plan| ==> Crosses(makerIsBid, plan[i].order.price, limit))
  {
    hide *;
    PlanFromFront(makerIsBid, side, limit, want);
    PlanTakesLiquidity(makerIsBid, side, nextId, limit, want);
  }

  // ---- the loop carries out the plan -----------------------------------------------------

  /** The plan of a side whose best order was just filled is the rest of the plan. */
  lemma PlanAfterFill(makerIsBid: bool, side: seq<Resting>, limit: u128, want: u128)
    requires side != [] && 0 < want && Crosses(makerIsBid, side[0].price, limit)
    ensures var amount: u128 := Min(want, side[0].qty);
            var plan := Plan(makerIsBid, side, limit, want);
            && plan[0] == Take(side[0], amount)
            && plan[1..] == Plan(makerIsBid, AfterFill(side, amount), limit, want - amount)
  {
  }

  lemma {:induction false} CrossTotals(m: Market, k: BookKey, makerIsBid: bool, takerId: nat, taker: Address,
                                       limit: u128, want: u128)
    requires k in m.books
    ensures var r := Cross(m, k, makerIsBid, takerId, taker, limit, want);
            var plan := Plan(makerIsBid, SideOf(m.books[k], makerIsBid), limit, want);
            r.Ok? ==>
              && r.value.left + Taken(plan) == want
              && r.value.quote == Cost(plan)
    decreases |SideOf(m.books[k], makerIsBid)| + want
  {
    hide Cross, FillBest, QuoteFloor, AfterFill, SameElsewhere, Exchange, FillEvent;
    var side := SideOf(m.books[k], makerIsBid);
    if want == 0 || side == [] || !Crosses(makerIsBid, side[0].price, limit) {
      CrossEnds(m, k, makerIsBid, takerId, taker, limit, want);
    } else {
      CrossTurn(m, k, makerIsBid, takerId, taker, limit, want);
      var f := FillBest(m, k, makerIsBid, takerId, taker, want);
      if f.Ok? {
        PlanAfterFill(makerIsBid, side, limit, want);
        FillFacts(m, k, makerIsBid, takerId, taker, want, f.value);
        CrossTotals(f.value.market, k, makerIsBid, takerId, taker, limit, want - f.value.amount);
      }
    }
  }

  lemma {:induction false} CrossLog(m: Market, k: BookKey, makerIsBid: bool, takerId: nat, taker: Address, limit: u128,
                                    want: u128)
    requires k in m.books
    ensures var r := Cross(m, k, makerIsBid, takerId, taker, limit, want);
            var plan := Plan(makerIsBid, SideOf(m.books[k], makerIsBid), limit, want);
            r.Ok? ==> r.value.market.log == m.log + PlanEvents(plan, takerId, taker)
    decreases |SideOf(m.books[k], makerIsBid)| + want
  {
    hide Cross, FillBest, QuoteFloor, AfterFill, SameElsewhere, Exchange, FillEvent;
    var side := SideOf(m.books[k], makerIsBid);
    if want == 0 || side == [] || !Crosses(makerIsBid, side[0].price, limit) {
      CrossEnds(m, k, makerIsBid, takerId, taker, limit, want);
    } else {
      CrossTurn(m, k, makerIsBid, takerId, taker, limit, want);
      var f := FillBest(m, k, makerIsBid, takerId, taker, want);
      if f.Ok? {
        PlanAfterFill(makerIsBid, side, limit, want);
        FillFacts(m, k, makerIsBid, takerId, taker, want, f.value);
        var plan := Plan(makerIsBid, side, limit, want);
        var e := FillEvent(side[0], takerId, taker, f.value.amount);
        assert (m.log + [e]) + PlanEvents(plan[1..], takerId, taker) == m.log + PlanEvents(plan, takerId, taker);
        CrossLog(f.value.market, k, makerIsBid, takerId, taker, limit, want - f.value.amount);
      }
    }
  }

  lemma LeftByNothing(side: seq<Resting>)
    ensures LeftOnSide(side, []) == side
  {
  }

  lemma LeftAfterFill(side: seq<Resting>, plan: seq<Take>, amount: u128)
    requires 0 < |plan| <= |side| && amount <= side[0].qty && plan[0].amount == amount
    requires forall i :: 0 <= i < |plan| ==> plan[i].amount <= side[i].qty
    requires 1 < |plan| ==> amount == side[0].qty
    ensures LeftOnSide(side, plan) == LeftOnSide(AfterFill(side, amount), plan[1..])
  {
    if |plan| > 1 {
      assert side[1..][|plan| - 2..] == side[|plan| - 1..];
    }
  }

  lemma {:induction false} CrossSide(m: Market, k: BookKey, makerIsBid: bool, takerId: nat, taker: Address, limit: u128,
                                     want: u128)
    requires k in m.books
    ensures var r := Cross(m, k, makerIsBid, takerId, taker, limit, want);
            var side := SideOf(m.books[k], makerIsBid);
            var plan := Plan(makerIsBid, side, limit, want);
            r.Ok? ==> SideOf(r.value.market.books[k], makerIsBid) == LeftOnSide(side, plan)
    decreases |SideOf(m.books[k], makerIsBid)| + want
  {
    hide Cross, FillBest, SameElsewhere, LeftOnSide, AfterFill, Exchange, QuoteFloor;
    PlanFromFront(makerIsBid, SideOf(m.books[k], makerIsBid), limit, want);
    LeftByNothing(SideOf(m.books[k], makerIsBid));
    var side := SideOf(m.books[k], makerIsBid);
    var plan := Plan(makerIsBid, side, limit, want);
    if want == 0 || side == [] || !Crosses(makerIsBid, side[0].price, limit) {
      CrossEnds(m, k, makerIsBid, takerId, taker, limit, want);
    } else {
      CrossTurn(m, k, makerIsBid, takerId, taker, limit, want);
      var f := FillBest(m, k, makerIsBid, takerId, taker, want);
      if f.Ok? {
        PlanAfterFill(makerIsBid, side, limit, want);
        FillFacts(m, k, makerIsBid, takerId, taker, want, f.value);
        LeftAfterFill(side, plan, f.value.amount);
        CrossSide(f.value.market, k, makerIsBid, takerId, taker, limit, want - f.value.amount);
      }
    }
  }

  /** Each account's balance moves by exactly its share of the plan, self-matches included. */
  lemma {:induction false} CrossFlow(m: Market, k: BookKey, makerIsBid: bool, takerId: nat, taker: Address, limit: u128,
                                     want: u128, u: Address, t: Address)
    requires k in m.books && k.base != k.quote
    ensures var r := Cross(m, k, makerIsBid, takerId, taker, limit, want);
            var plan := Plan(makerIsBid, SideOf(m.books[k], makerIsBid), limit, want);
            r.Ok? ==>
              BalanceOf(r.value.market.balances, u, t) as int
              == BalanceOf(m.balances, u, t) + Flow(k, makerIsBid, taker, plan, u, t)
    decreases |SideOf(m.books[k], makerIsBid)| + want
  {
    hide Cross, FillBest, QuoteFloor, AfterFill, SameElsewhere, Exchange, BalanceOf, ExchangeDelta;
    var side := SideOf(m.books[k], makerIsBid);
    if want == 0 || side == [] || !Crosses(makerIsBid, side[0].price, limit) {
      CrossEnds(m, k, makerIsBid, takerId, taker, limit, want);
    } else {
      CrossTurn(m, k, makerIsBid, takerId, taker, limit, want);
      var f := FillBest(m, k, makerIsBid, takerId, taker, want);
      if f.Ok? {
        PlanAfterFill(makerIsBid, side, limit, want);
        FillFacts(m, k, makerIsBid, takerId, taker, want, f.value);
        ExchangeMoves(m.balances, k, makerIsBid, taker, side[0].maker, f.value.amount, f.value.quote,
          f.value.market.balances, u, t);
        CrossFlow(f.value.market, k, makerIsBid, takerId, taker, limit, want - f.value.amount, u, t);
      }
    }
  }

  lemma SameElsewhereCompose(a: Market, b: Market, c: Market, k: BookKey, isBid: bool)
    requires k in a.books && SameElsewhere(a, b, k, isBid) && SameElsewhere(b, c, k, isBid)
    ensures SameElsewhere(a, c, k, isBid)
  {
  }

  lemma {:induction false} CrossFrame(m: Market, k: BookKey, makerIsBid: bool, takerId: nat, taker: Address,
                                      limit: u128, want: u128)
    requires k in m.books
    ensures var r := Cross(m, k, makerIsBid, takerId, taker, limit, want);
            r.Ok? ==> SameElsewhere(m, r.value.market, k, makerIsBid)
    decreases |SideOf(m.books[k], makerIsBid)| + want
  {
    hide Cross, FillBest, AfterFill, Exchange;
    var side := SideOf(m.books[k], makerIsBid);
    if want == 0 || side == [] || !Crosses(makerIsBid, side[0].price, limit) {
      CrossEnds(m, k, makerIsBid, takerId, taker, limit, want);
      assert m.books[k := m.books[k]] == m.books;
      assert SameElsewhere(m, m, k, makerIsBid);
    } else {
      CrossTurn(m, k, makerIsBid, takerId, taker, limit, want);
      var f := FillBest(m, k, makerIsBid, takerId, taker, want);
      if f.Ok? {
        FillFacts(m, k, makerIsBid, takerId, taker, want, f.value);
        CrossFrame(f.value.market, k, makerIsBid, takerId, taker, limit, want - f.value.amount);
        var r := Cross(m, k, makerIsBid, takerId, taker, limit, want);
        if r.Ok? {
          SameElsewhereCompose(m, f.value.market, r.value.market, k, makerIsBid);
        }
      }
    }
  }

  /**
    The crossing loop carries out the plan: same fills in the same order, same totals, same
    balances, same remaining side, and nothing else in the market changes.
   */
  lemma CrossFollowsPlan(m: Market, k: BookKey, makerIsBid: bool, takerId: nat, taker: Address, limit: u128, want: u128,
                         c: Crossed)
    requires k in m.books && k.base != k.quote && Cross(m, k, makerIsBid, takerId, taker, limit, want) == Ok(c)
    ensures var side := SideOf(m.books[k], makerIsBid);
            var plan := Plan(makerIsBid, side, limit, want);
            && c.left + Taken(plan) == want
            && c.quote == Cost(plan)
            && c.market.log == m.log + PlanEvents(plan, takerId, taker)
            && SameElsewhere(m, c.market, k, makerIsBid)
            && SideOf(c.market.books[k], makerIsBid) == LeftOnSide(side, plan)
            && forall u, t ::
                 BalanceOf(c.market.balances, u, t) as int
                 == BalanceOf(m.balances, u, t) + Flow(k, makerIsBid, taker, plan, u, t)
  {
    hide *;
    CrossTotals(m, k, makerIsBid, takerId, taker, limit, want);
    CrossLog(m, k, makerIsBid, takerId, taker, limit, want);
    CrossFrame(m, k, makerIsBid, takerId, taker, limit, want);
    CrossSide(m, k, makerIsBid, takerId, taker, limit, want);
    forall u, t ensures BalanceOf(c.market.balances, u, t) as int
                        == BalanceOf(m.balances, u, t)
                          + Flow(k, makerIsBid, taker, Plan(makerIsBid, SideOf(m.books[k], makerIsBid), limit, want), u,
                          t) {
      CrossFlow(m, k, makerIsBid, takerId, taker, limit, want, u, t);
    }
  }

  /** The settled totals grow by the base taken and the quote it cost. */
  lemma {:induction false} CrossSettles(m: Market, k: BookKey, makerIsBid: bool, takerId: nat, taker: Address,
                                        limit: u128, want: u128, t: Address)
    requires k in m.books && k.base != k.quote
    ensures var r := Cross(m, k, makerIsBid, takerId, taker, limit, want);
            var plan := Plan(makerIsBid, SideOf(m.books[k], makerIsBid), limit, want);
            r.Ok? ==> SettledOf(r.value.market.settled, t)
                      == SettledOf(m.settled, t)
                         + (if t == k.base then Taken(plan) else if t == k.quote then Cost(plan) else 0)
    decreases |SideOf(m.books[k], makerIsBid)| + want
  {
    hide Cross, FillBest, QuoteFloor, SettledOf, AfterFill, SameElsewhere, Exchange, FillEvent;
    var side := SideOf(m.books[k], makerIsBid);
    if want == 0 || side == [] || !Crosses(makerIsBid, side[0].price, limit) {
      CrossEnds(m, k, makerIsBid, takerId, taker, limit, want);
    } else {
      CrossTurn(m, k, makerIsBid, takerId, taker, limit, want);
      PlanAfterFill(makerIsBid, side, limit, want);
      var f := FillBest(m, k, makerIsBid, takerId, taker, want);
      if f.Ok? {
        FillFacts(m, k, makerIsBid, takerId, taker, want, f.value);
        FillSettles(m, k, makerIsBid, takerId, taker, want, f.value, t);
        CrossSettles(f.value.market, k, makerIsBid, takerId, taker, limit, want - f.value.amount, t);
      }
    }
  }

  lemma FillSettles(m: Market, k: BookKey, makerIsBid: bool, takerId: nat, taker: Address, want: u128, f: Filled,
                    t: Address)
    requires k in m.books && k.base != k.quote && SideOf(m.books[k], makerIsBid) != []
    requires FillBest(m, k, makerIsBid, takerId, taker, want) == Ok(f)
    ensures SettledOf(f.market.settled, t) == SettledOf(m.settled, t)
            + (if t == k.base then f.amount else if t == k.quote then f.quote else 0)
  {
    hide Exchange, QuoteAmount, AfterFill;
  }

  // ---- fills too small to quote ----------------------------------------------------------

  predicate Quotable(x: Take) {
    QuoteAmount(x.amount, x.order.price).Some?
  }

  /**
    A crossing that holds a fill too small or too large to quote fails, and only such a crossing
    fails for its quotes.
   */
  lemma {:induction false} UnquotableFillFails(m: Market, k: BookKey, makerIsBid: bool, takerId: nat, taker: Address,
                                               limit: u128, want: u128)
    requires k in m.books
    ensures var plan := Plan(makerIsBid, SideOf(m.books[k], makerIsBid), limit, want);
            var r := Cross(m, k, makerIsBid, takerId, taker, limit, want);
            && (r.Ok? ==> forall i :: 0 <= i < |plan| ==> Quotable(plan[i]))
            && (r == Err(Arithmetic(QuoteOutOfRange)) ==> exists i :: 0 <= i < |plan| && !Quotable(plan[i]))
    decreases |SideOf(m.books[k], makerIsBid)| + want
  {
    hide Cross, FillBest, QuoteAmount, AfterFill, SameElsewhere, Exchange;
    var side := SideOf(m.books[k], makerIsBid);
    if want == 0 || side == [] || !Crosses(makerIsBid, side[0].price, limit) {
      CrossEnds(m, k, makerIsBid, takerId, taker, limit, want);
    } else {
      CrossTurn(m, k, makerIsBid, takerId, taker, limit, want);
      PlanAfterFill(makerIsBid, side, limit, want);
      FillQuotes(m, k, makerIsBid, takerId, taker, want);
      var plan := Plan(makerIsBid, side, limit, want);
      var f := FillBest(m, k, makerIsBid, takerId, taker, want);
      if f.Ok? {
        FillFacts(m, k, makerIsBid, takerId, taker, want, f.value);
        UnquotableFillFails(f.value.market, k, makerIsBid, takerId, taker, limit, want - f.value.amount);
        assert forall i :: 0 < i < |plan| ==> plan[i] == plan[1..][i - 1];
        hide Plan, Quotable;
        if Cross(m, k, makerIsBid, takerId, taker, limit, want) == Err(Arithmetic(QuoteOutOfRange)) {
          var i :| 0 <= i < |plan[1..]| && !Quotable(plan[1..][i]);
          assert !Quotable(plan[i + 1]);
        }
      }
    }
  }

  /** A fill is refused for its quote exactly when it cannot be quoted. */
  lemma FillQuotes(m: Market, k: BookKey, makerIsBid: bool, takerId: nat, taker: Address, want: u128)
    requires k in m.books && SideOf(m.books[k], makerIsBid) != []
    ensures var best := SideOf(m.books[k], makerIsBid)[0];
            FillBest(m, k, makerIsBid, takerId, taker, want) == Err(Arithmetic(QuoteOutOfRange))
            <==> !Quotable(Take(best, Min(want, best.qty)))
  {
    hide QuoteAmount;
  }

  /** Some taker of at least the minimum size gets past the quote of the best order. */
  ghost predicate Tradable(m: Market, k: BookKey, makerIsBid: bool, takerId: nat, taker: Address)
    requires k in m.books && SideOf(m.books[k], makerIsBid) != []
  {
    exists want: u128 ::
      MIN_ORDER_AMOUNT <= want && FillBest(m, k, makerIsBid, takerId, taker, want) != Err(Arithmetic(QuoteOutOfRange))
  }

  /** The best order can be matched with someone exactly when all of it is worth at least one quote unit. */
  lemma TradableIff(m: Market, k: BookKey, makerIsBid: bool, takerId: nat, taker: Address)
    requires k in m.books && SideOf(m.books[k], makerIsBid) != []
    ensures var best := SideOf(m.books[k], makerIsBid)[0];
            Tradable(m, k, makerIsBid, takerId, taker) <==> PRICE_SCALE <= best.qty * best.price
  {
    hide FillBest;
    var best := SideOf(m.books[k], makerIsBid)[0];
    forall want: u128 {
      FillQuotes(m, k, makerIsBid, takerId, taker, want);
    }
    if want: u128 :|
      MIN_ORDER_AMOUNT <= want && FillBest(m, k, makerIsBid, takerId, taker, want) != Err(Arithmetic(QuoteOutOfRange))
    {
      PartWorthLess(Min(want, best.qty), best.qty, best.price);
    }
    if PRICE_SCALE <= best.qty * best.price {
      var want := TradableSize(best);
      assert FillBest(m, k, makerIsBid, takerId, taker, want) != Err(Arithmetic(QuoteOutOfRange));
    }
  }

  lemma TradableSize(o: Resting) returns (want: u128)
    requires PRICE_SCALE <= o.qty * o.price
    ensures MIN_ORDER_AMOUNT <= want && Quotable(Take(o, Min(want, o.qty)))
  {
    if QuoteFloor(o.qty, o.price) <= U128_MAX {
      want := if o.qty < MIN_ORDER_AMOUNT then MIN_ORDER_AMOUNT else o.qty;
    } else {
      HugeQuote(o.qty, o.price);
      want := MIN_ORDER_AMOUNT;
      PartWorthLess(Min(want, o.qty), MIN_ORDER_AMOUNT, o.price);
      PartWorthLess(1, Min(want, o.qty), o.price);
    }
  }

  lemma PartWorthLess(part: nat, whole: nat, price: nat)
    requires part <= whole
    ensures part * price <= whole * price
  {
    assert (whole - part) * price >= 0;
    assert whole * price == part * price + (whole - part) * price;
  }

  /** A quote beyond 128 bits takes a price of at least one quote unit per base unit. */
  lemma HugeQuote(qty: u128, price: u128)
    requires QuoteFloor(qty, price) > U128_MAX
    ensures 0 < qty && PRICE_SCALE <= price
  {
    PartWorthLess(qty, U128_MAX, price);
  }

  /**
    A best order worth less than one quote unit stops its side for everyone: no taker whose
    limit reaches it can be matched, whatever its size.
   */
  lemma DustStopsSide(m: Market, k: BookKey, makerIsBid: bool, takerId: nat, taker: Address, limit: u128, want: u128)
    requires k in m.books && SideOf(m.books[k], makerIsBid) != [] && 0 < want
    requires var best := SideOf(m.books[k], makerIsBid)[0];
             best.qty * best.price < PRICE_SCALE && Crosses(makerIsBid, best.price, limit)
    ensures Cross(m, k, makerIsBid, takerId, taker, limit, want) == Err(Arithmetic(QuoteOutOfRange))
  {
    var best := SideOf(m.books[k], makerIsBid)[0];
    var fill: u128 := Min(want, best.qty);
    PartWorthLess(fill, best.qty, best.price);
    hide Cross, Exchange;
    CrossTurn(m, k, makerIsBid, takerId, taker, limit, want);
  }
}
