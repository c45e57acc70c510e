/** What each call logs and changes, field by field. */
module Calls {
  import opened Prelude
  import opened OrderBook
  import opened BookSums
  import opened Soundness
  import opened Safety
  import opened Stages
  import opened Matching
  import opened Guarantees
  import opened Chronicle

  // ---- events ----------------------------------------------------------------------------

  /** A fill event names the maker's order and account, the taker's, and the maker's price. */
  predicate LogsFill(e: Event, order: Resting, amount: nat, takerId: nat, taker: Address) {
    && e.OrderFilled? && e.makerOrderId == order.id && e.maker == order.maker
    && e.takerOrderId == takerId && e.taker == taker
    && e.amountFilled == amount && e.price == order.price
  }

  predicate LogsSubmission(e: Event, id: nat, maker: Address, k: BookKey, amount: nat, limit: nat, isBid: bool,
                           kind: OrderKind, tif: nat)
  {
    && e.OrderSubmitted? && e.orderId == id && e.maker == maker && e.base == k.base && e.quote == k.quote
    && e.amount == amount && e.priceLimit == limit && e.isBid == isBid && e.kind == kind && e.timeInForce == tif
  }

  predicate LogsPlacement(e: Event, id: nat, maker: Address, k: BookKey, amount: nat, price: nat, isBid: bool) {
    && e.OrderPlaced? && e.orderId == id && e.maker == maker && e.base == k.base && e.quote == k.quote
    && e.amount == amount && e.price == price && e.isBid == isBid
  }

  predicate LogsCancellation(e: Event, id: nat, maker: Address, amount: nat, reason: CancelReason) {
    e.OrderCancelled? && e.orderId == id && e.maker == maker && e.cancelledAmount == amount && e.reason == reason
  }

  /** From position `at` on, the log holds one fill event per order the plan takes from. */
  ghost predicate LogsPlan(log: seq<Event>, at: nat, side: seq<Resting>, plan: seq<Take>, takerId: nat,
                           taker: Address) {
    && at + |plan| <= |log| && |plan| <= |side|
    && forall i :: 0 <= i < |plan| ==> LogsFill(log[at + i], side[i], plan[i].amount, takerId, taker)
  }

  lemma {:induction false} PlanEventAt(plan: seq<Take>, takerId: nat, taker: Address, i: nat)
    requires i < |plan|
    ensures |PlanEvents(plan, takerId, taker)| == |plan|
    ensures LogsFill(PlanEvents(plan, takerId, taker)[i], plan[i].order, plan[i].amount, takerId, taker)
  {
    if |plan| > 1 {
      PlanEventAt(plan[1..], takerId, taker, if i > 0 then i - 1 else 0);
    } else {
      assert PlanEvents(plan[1..], takerId, taker) == [];
    }
  }

  lemma PlanLogged(before: seq<Event>, log: seq<Event>, makerIsBid: bool, side: seq<Resting>, limit: u128, want: u128,
                   takerId: nat, taker: Address)
    requires var plan := Plan(makerIsBid, side, limit, want); before + PlanEvents(plan, takerId, taker) <= log
    ensures var plan := Plan(makerIsBid, side, limit, want);
            LogsPlan(log, |before|, side, plan, takerId, taker) && |PlanEvents(plan, takerId, taker)| == |plan|
  {
    var plan := Plan(makerIsBid, side, limit, want);
    PlanFromFront(makerIsBid, side, limit, want);
    hide Plan, LogsFill, PlanEvents;
    var events := PlanEvents(plan, takerId, taker);
    if plan == [] {
      NoEvents(takerId, taker);
    } else {
      PlanEventAt(plan, takerId, taker, 0);
    }
    forall i | 0 <= i < |plan| ensures LogsFill(log[|before| + i], side[i], plan[i].amount, takerId, taker) {
      PlanEventAt(plan, takerId, taker, i);
      assert log[|before| + i] == (before + events)[|before| + i] == events[i];
    }
  }

  lemma NoEvents(takerId: nat, taker: Address)
    ensures PlanEvents([], takerId, taker) == []
  {
  }

  /** A crossing logs one fill event per order it takes from, in order, each with the right parties. */
  lemma CrossLogsPlan(m: Market, k: BookKey, makerIsBid: bool, takerId: nat, taker: Address, limit: u128, want: u128,
                      c: Crossed)
    requires k in m.books && Cross(m, k, makerIsBid, takerId, taker, limit, want) == Ok(c)
    ensures var side := SideOf(m.books[k], makerIsBid);
            var plan := Plan(makerIsBid, side, limit, want);
            && m.log <= c.market.log && |c.market.log| == |m.log| + |plan|
            && LogsPlan(c.market.log, |m.log|, side, plan, takerId, taker)
  {
    hide Cross, Plan, PlanEvents, LogsFill;
    CrossLog(m, k, makerIsBid, takerId, taker, limit, want);
    PlanLogged(m.log, c.market.log, makerIsBid, SideOf(m.books[k], makerIsBid), limit, want, takerId, taker);
  }

  /** A limit order logs its submission, its fills and, for what is left, its placement. */
  lemma PlaceLogs(rules: Tip20, m: Market, sender: Address, base: Address, quote: Address, amount: u128, price: u128,
                  isBid: bool, tif: nat, o: Outcome)
    requires Sound(m, LANDED) && Execute(rules, m, sender, Place(base, quote, amount, price, isBid, tif)) == Ok(o)
    ensures var k, n, log := BookKey(base, quote), |m.log|, o.market.log;
            var side := SideIn(m, k, !isBid);
            var plan := Plan(!isBid, side, price, amount);
            && m.log <= log && |log| == n + 1 + |plan| + (if Taken(plan) < amount then 1 else 0)
            && LogsSubmission(log[n], m.nextId, sender, k, amount, price, isBid, Limit, tif)
            && LogsPlan(log, n + 1, side, plan, m.nextId, sender)
            && (Taken(plan) < amount ==>
                  LogsPlacement(log[n + 1 + |plan|], m.nextId, sender, k, amount - Taken(plan), price, isBid))
  {
    hide CallPlace, Sound, Plan, Taken, Cost, FundsFollow, Pulled, LeftOnSide, PlanEvents, Took, LogsFill;
    var k := BookKey(base, quote);
    var side := SideIn(m, k, !isBid);
    var plan := Plan(!isBid, side, price, amount);
    var s := PlaceStages(rules, m, sender, base, quote, amount, price, isBid, tif, o);
    TookFollowsPlan(rules, m, sender, k, amount, price, isBid, s);
    assert m.log + [s.submitted] + PlanEvents(plan, m.nextId, sender) <= o.market.log;
    PlanLogged(m.log + [s.submitted], o.market.log, !isBid, side, price, amount, m.nextId, sender);
  }

  /** A market order logs its submission, its fills and, for what is left, the cancelled remainder. */
  lemma MarketOrderLogs(rules: Tip20, m: Market, sender: Address, base: Address, quote: Address, amount: u128,
                        guard: u128, isBuy: bool, tif: nat, o: Outcome)
    requires Sound(m, LANDED)
    requires Execute(rules, m, sender, MarketOrder(base, quote, amount, guard, isBuy, tif)) == Ok(o)
    ensures var k, n, log := BookKey(base, quote), |m.log|, o.market.log;
            var side := SideIn(m, k, !isBuy);
            var plan := Plan(!isBuy, side, guard, amount);
            && m.log <= log && |log| == n + 1 + |plan| + (if Taken(plan) < amount then 1 else 0)
            && LogsSubmission(log[n], m.nextId, sender, k, amount, guard, isBuy, AtMarket, tif)
            && LogsPlan(log, n + 1, side, plan, m.nextId, sender)
            && (Taken(plan) < amount ==>
                  LogsCancellation(log[n + 1 + |plan|], m.nextId, sender, amount - Taken(plan), IocRemainder))
  {
    hide CallMarketOrder, Sound, Plan, Taken, Cost, FundsFollow, Pulled, LeftOnSide, PlanEvents, Took, LogsFill;
    var k := BookKey(base, quote);
    var side := SideIn(m, k, !isBuy);
    var plan := Plan(!isBuy, side, guard, amount);
    var s := MarketStages(rules, m, sender, base, quote, amount, guard, isBuy, tif, o);
    TookFollowsPlan(rules, m, sender, k, amount, guard, isBuy, s);
    assert m.log + [s.submitted] + PlanEvents(plan, m.nextId, sender) <= o.market.log;
    PlanLogged(m.log + [s.submitted], o.market.log, !isBuy, side, guard, amount, m.nextId, sender);
  }

  // ---- pairs and cancellations -----------------------------------------------------------

  /**
    A pair is created exactly when its tokens exist and differ and it is not open yet; then it is,
    with an empty book.
   */
  lemma PairCreatedIff(rules: Tip20, m: Market, sender: Address, base: Address, quote: Address)
    ensures var k, r := BookKey(base, quote), Execute(rules, m, sender, CreatePair(base, quote));
            && (r.Ok? <==> base != quote && base in rules.tokens && quote in rules.tokens && k !in m.books)
            && (r.Err? ==>
                  r.error == if base == quote then InvalidToken
                             else if base !in rules.tokens || quote !in rules.tokens then NotATip20
                             else PairAlreadyExists)
            && (r.Ok? ==>
                  var m' := r.value.market;
                  && r.value.output == PairKey(k) && m' == m.(books := m'.books, keys := m.keys + [k])
                  && k in m'.books && m'.books[k].bids == [] && m'.books[k].asks == []
                  && m'.books.Keys == m.books.Keys + {k} && forall x :: x in m.books ==> m'.books[x] == m.books[x])
  {
  }

  /** An id that rests nowhere cannot be cancelled. */
  lemma CancelUnknown(rules: Tip20, m: Market, sender: Address, id: nat)
    requires forall k, isBid, n: nat :: !RestsAt(m, k, isBid, n, id)
    ensures Execute(rules, m, sender, Cancel(id)) == Err(OrderDoesNotExist)
  {
  }

  /**
    Position `n` has left its side, everything else stays as it was, the cancellation is logged,
    and the maker's reservation is free again.
   */
  ghost predicate TakenOff(m: Market, m': Market, k: BookKey, isBid: bool, n: nat)
    requires k in m.books && n < |SideOf(m.books[k], isBid)|
  {
    var side := SideOf(m.books[k], isBid);
    var maker, token := side[n].maker, GivenToken(k, isBid);
    && m' == m.(books := m'.books, log := m'.log) && m'.books.Keys == m.books.Keys
    && SideOf(m'.books[k], isBid) == side[..n] + side[n + 1..]
    && SideOf(m'.books[k], !isBid) == SideOf(m.books[k], !isBid)
    && (forall x :: x in m.books && x != k ==> m'.books[x] == m.books[x])
    && |m'.log| == |m.log| + 1 && m.log <= m'.log
    && LogsCancellation(m'.log[|m.log|], side[n].id, maker, side[n].qty, ByUser)
    && Reserved(m', maker, token) + Reservation(isBid, side[n]) == Reserved(m, maker, token)
  }

  lemma RemovedIsTakenOff(m: Market, k: BookKey, isBid: bool, n: nat)
    requires KeysListBooks(m) && k in m.books && n < |SideOf(m.books[k], isBid)|
    ensures TakenOff(m, Removed(m, k, isBid, n), k, isBid, n)
  {
    var o := SideOf(m.books[k], isBid)[n];
    TotalAfterRemoval(ReservedBy(o.maker, GivenToken(k, isBid)), m, k, isBid, n);
    hide Total, KeysListBooks;
  }

  /**
    In every reachable market a resting order is cancelled exactly by its maker. It leaves its
    side, the others stay in order, its reservation is free again, and no funds move.
   */
  lemma CancelTakesOff(steps: seq<Step>, rules: Tip20, sender: Address, id: nat, k: BookKey, isBid: bool, n: nat)
    requires RestsAt(Run(steps), k, isBid, n, id)
    ensures var maker := SideOf(Run(steps).books[k], isBid)[n].maker;
            match Execute(rules, Run(steps), sender, Cancel(id))
            case Ok(o) =>
              && maker == sender && sender != ZERO_ADDRESS
              && o.output == Done && TakenOff(Run(steps), o.market, k, isBid, n)
            case Err(e) =>
              || (maker == ZERO_ADDRESS && e == OrderDoesNotExist)
              || (maker != ZERO_ADDRESS && maker != sender && e == Unauthorized)
  {
    hide Run, Sound, KeysListBooks, TakenOff, CallCancel, Removed;
    var m := Run(steps);
    forall k', isBid', n': nat | RestsAt(m, k', isBid', n', id) ensures k' == k && isBid' == isBid && n' == n {
      AlwaysRestsOnce(steps, id, k, isBid, n, k', isBid', n');
    }
    RunSound(steps);
    SoundKeys(m, LANDED);
    CancelHere(m, sender, id, k, isBid, n);
    RemovedIsTakenOff(m, k, isBid, n);
  }

  lemma CancelHere(m: Market, sender: Address, id: nat, k: BookKey, isBid: bool, n: nat)
    requires RestsAt(m, k, isBid, n, id)
    requires forall k', isBid', n': nat :: RestsAt(m, k', isBid', n', id) ==> k' == k && isBid' == isBid && n' == n
    ensures var o := SideOf(m.books[k], isBid)[n];
            CallCancel(m, sender, id) ==
            if o.maker == ZERO_ADDRESS then Err(OrderDoesNotExist)
            else if o.maker != sender then Err(Unauthorized)
            else Ok(Outcome(Removed(m, k, isBid, n), Done))
  {
  }
}
