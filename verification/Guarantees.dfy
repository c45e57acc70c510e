/** What a caller can rely on, in every market a run of calls can reach. */
module Guarantees {
  import opened Prelude
  import opened FixedPoint
  import opened OrderBook
  import opened BookSums
  import opened Soundness
  import opened Safety
  import opened Matching
  import opened Stages

  // ---- reachable markets -----------------------------------------------------------------

  /** Reservations are always covered, and no call ever fails on an underflowing debit. */
  lemma AlwaysSolvent(steps: seq<Step>, rules: Tip20, sender: Address, call: Call)
    ensures forall u, t :: Reserved(Run(steps), u, t) <= BalanceOf(Run(steps).balances, u, t)
    ensures Execute(rules, Run(steps), sender, call) != Err(Arithmetic(Underflow))
  {
    var m := Run(steps);
    RunSound(steps);
    hide Run, Execute, Sound, Reserved;
    ExecuteSound(rules, m, sender, call);
    forall u, t ensures Reserved(m, u, t) <= BalanceOf(m.balances, u, t) {
      SolventAt(m, u, t);
    }
  }

  /** No resting bid reaches a resting ask. */
  lemma NeverCrossed(steps: seq<Step>, k: BookKey, bid: Resting, ask: Resting)
    requires k in Run(steps).books && bid in Run(steps).books[k].bids && ask in Run(steps).books[k].asks
    ensures bid.price < ask.price
  {
    var m := Run(steps);
    RunSound(steps);
    hide Run, Solvent, Balanced;
    var i :| 0 <= i < |m.books[k].bids| && m.books[k].bids[i] == bid;
    var j :| 0 <= j < |m.books[k].asks| && m.books[k].asks[j] == ask;
    assert UncrossedBook(m.books[k]);
  }

  /** The list of keys names each open pair, and nothing else, exactly once; pairs have two distinct tokens. */
  lemma AlwaysListedOnce(steps: seq<Step>, k: BookKey)
    ensures k in Run(steps).books <==> exists i :: 0 <= i < |Run(steps).keys| && Run(steps).keys[i] == k
    ensures forall i, j :: 0 <= i < j < |Run(steps).keys| ==> Run(steps).keys[i] != Run(steps).keys[j]
    ensures k in Run(steps).books ==> k.base != k.quote
  {
    RunSound(steps);
    hide Run, Solvent, Balanced, Uncrossed;
    assert k in Run(steps).books <==> k in Run(steps).keys;
  }

  /** Every resting order is live: a quantity, a price, and an id already handed out. */
  lemma AlwaysLive(steps: seq<Step>, k: BookKey, isBid: bool, i: nat)
    requires k in Run(steps).books && i < |SideOf(Run(steps).books[k], isBid)|
    ensures var o := SideOf(Run(steps).books[k], isBid)[i];
            0 < o.qty && 0 < o.price && 0 < o.id < Run(steps).nextId && (isBid ==> BidEscrow(o.qty, o.price).Some?)
  {
    RunSound(steps);
    hide Run;
    SoundSides(Run(steps), LANDED, k, isBid);
    hide Sound;
    assert Live(isBid, SideOf(Run(steps).books[k], isBid)[i], Run(steps).nextId);
  }

  /** Every side is in price-time order. */
  lemma AlwaysSorted(steps: seq<Step>, k: BookKey, isBid: bool, i: nat, j: nat)
    requires k in Run(steps).books && i < j < |SideOf(Run(steps).books[k], isBid)|
    ensures var a, b := SideOf(Run(steps).books[k], isBid)[i], SideOf(Run(steps).books[k], isBid)[j];
            && (if isBid then a.price >= b.price else a.price <= b.price)
            && (a.price == b.price ==> a.id < b.id)
  {
    RunSound(steps);
    hide Run;
    SoundSides(Run(steps), LANDED, k, isBid);
    assert Ahead(isBid, SideOf(Run(steps).books[k], isBid)[i], SideOf(Run(steps).books[k], isBid)[j]);
  }

  // ---- the order ledger ------------------------------------------------------------------

  ghost function Submitted(id: nat): EventWeight {
    (e: Event) => if e.OrderSubmitted? && e.orderId == id then e.amount as int else 0
  }

  ghost function FilledAsTaker(id: nat): EventWeight {
    (e: Event) => if e.OrderFilled? && e.takerOrderId == id then e.amountFilled as int else 0
  }

  ghost function FilledAsMaker(id: nat): EventWeight {
    (e: Event) => if e.OrderFilled? && e.makerOrderId == id then e.amountFilled as int else 0
  }

  ghost function Cancelled(id: nat): EventWeight {
    (e: Event) => if e.OrderCancelled? && e.orderId == id then e.cancelledAmount as int else 0
  }

  lemma {:induction false} LedgerSplits(id: nat, log: seq<Event>)
    ensures LogSum(LedgerWeight(id), log)
         == LogSum(Submitted(id), log) - LogSum(FilledAsTaker(id), log) - LogSum(FilledAsMaker(id), log)
            - LogSum(Cancelled(id), log)
  {
    if log != [] {
      LedgerSplits(id, log[..|log| - 1]);
    }
  }

  /** Over the events of any run, an order's amount is its fills, its cancellations and what still rests. */
  lemma OrderLedger(steps: seq<Step>, id: nat)
    ensures var m := Run(steps);
            LogSum(Submitted(id), m.log)
            == LogSum(FilledAsTaker(id), m.log) + LogSum(FilledAsMaker(id), m.log) + LogSum(Cancelled(id), m.log)
              + RestingQty(m, id)
  {
    var m := Run(steps);
    RunSound(steps);
    hide Run, LogSum, Shape, Uncrossed, Solvent, RestingQty;
    LedgerSplits(id, m.log);
    assert LogSum(LedgerWeight(id), m.log) == RestingQty(m, id) + (if id == LANDED.id then LANDED.left else 0);
  }

  // ---- prices ----------------------------------------------------------------------------

  /** Fills at or below a buyer's limit cost no more than the filled total at the limit, rounded down once. */
  lemma {:induction false} BuyerPaysAtMost(plan: seq<Take>, limit: nat)
    requires forall i :: 0 <= i < |plan| ==> plan[i].order.price <= limit
    ensures Cost(plan) <= QuoteFloor(Taken(plan), limit)
  {
    if plan != [] {
      BuyerPaysAtMost(plan[1..], limit);
      FloorMonotone(plan[0].amount, plan[0].order.price, limit);
      FloorSuperadditive(plan[0].amount, Taken(plan[1..]), limit);
    }
  }

  lemma FloorLoss(amount: nat, price: nat, limit: nat)
    requires price >= limit
    ensures QuoteFloor(amount, price) * PRICE_SCALE + (PRICE_SCALE - 1) >= amount * limit
  {
    assert amount * price == amount * limit + amount * (price - limit);
  }

  lemma Distribute(a: nat, b: nat, c: nat)
    ensures (a + b) * c == a * c + b * c
  {
  }

  /** Fills at or above a seller's limit lose less than one unit each to rounding. */
  lemma {:induction false} SellerGetsAtLeast(plan: seq<Take>, limit: nat)
    requires forall i :: 0 <= i < |plan| ==> plan[i].order.price >= limit
    ensures Cost(plan) * PRICE_SCALE + (PRICE_SCALE - 1) * |plan| >= Taken(plan) * limit
  {
    hide QuoteFloor;
    if plan != [] {
      SellerGetsAtLeast(plan[1..], limit);
      FloorLoss(plan[0].amount, plan[0].order.price, limit);
      Distribute(plan[0].amount, Taken(plan[1..]), limit);
    } else {
      assert Taken(plan) * limit == 0 * limit == 0;
    }
  }

  /** A side of a pair that may not have a book yet. */
  function SideIn(m: Market, k: BookKey, isBid: bool): seq<Resting> {
    if k in m.books then SideOf(m.books[k], isBid) else []
  }

  /** What an order call moves from the sender's wallet into the sender's balance. */
  function Pulled(m: Market, k: BookKey, isBid: bool, sender: Address, limit: u128, amount: u128): nat {
    Shortfall(m, sender, GivenToken(k, isBid), Need(!isBid, limit, amount))
  }

  /** Every balance is the one before, plus the sender's top-up, plus the planned exchanges. */
  ghost predicate BalancesFollow(m: Market, m': Market, k: BookKey, isBid: bool, sender: Address, pulled: nat,
                                 plan: seq<Take>) {
    forall u, t ::
      BalanceOf(m'.balances, u, t) as int
      == BalanceOf(m.balances, u, t) + (if u == sender && t == GivenToken(k, isBid) then pulled else 0)
         + Flow(k, !isBid, sender, plan, u, t)
  }

  /** Of all wallets only the top-up moves, from the sender's to the darkpool's. */
  ghost predicate WalletsFollow(m: Market, m': Market, token: Address, sender: Address, pulled: nat) {
    forall u, t ::
      WalletOf(m'.wallets, u, t) as int
      == WalletOf(m.wallets, u, t) + (if u == DARKPOOL_ADDRESS && t == token then pulled else 0)
         - (if u == sender && t == token then pulled else 0)
  }

  /** Both, for a whole call. */
  ghost predicate FundsFollow(m: Market, m': Market, k: BookKey, isBid: bool, sender: Address, pulled: nat,
                              plan: seq<Take>) {
    BalancesFollow(m, m', k, isBid, sender, pulled, plan) && WalletsFollow(m, m', GivenToken(k, isBid), sender, pulled)
  }

  lemma TookMovesAt(rules: Tip20, m: Market, sender: Address, k: BookKey, amount: u128, limit: u128, isBid: bool,
                    s: Stage, u: Address, t: Address)
    requires Sound(m, LANDED) && Took(rules, m, sender, k, amount, limit, isBid, s)
    ensures var plan := Plan(!isBid, SideIn(m, k, !isBid), limit, amount);
            var pulled := if t == GivenToken(k, isBid) then Pulled(m, k, isBid, sender, limit, amount) else 0;
            && BalanceOf(s.crossed.market.balances, u, t) as int
               == BalanceOf(m.balances, u, t) + (if u == sender then pulled else 0)
                 + Flow(k, !isBid, sender, plan, u, t)
            && WalletOf(s.crossed.market.wallets, u, t) as int
               == WalletOf(m.wallets, u, t) + (if u == DARKPOOL_ADDRESS then pulled else 0)
                  - (if u == sender then pulled else 0)
  {
    hide Cross, Plan, Flow, Need, Shortfall, EnsureBalance, Sound, BalanceOf, WalletOf;
    var token, need := GivenToken(k, isBid), Need(!isBid, limit, amount);
    ListingKeepsShortfall(rules, m, k, sender, token, need, s.listed);
    EnsureBalanceMoves(rules, s.listed, sender, token, need, u, t);
    var m' := Submit(s.funded, s.submitted);
    CrossFlow(m', k, !isBid, m.nextId, sender, limit, amount, u, t);
    CrossFrame(m', k, !isBid, m.nextId, sender, limit, amount);
    assert SideOf(m'.books[k], !isBid) == SideIn(m, k, !isBid);
  }

  lemma TookMovesFunds(rules: Tip20, m: Market, sender: Address, k: BookKey, amount: u128, limit: u128, isBid: bool,
                       s: Stage)
    requires Sound(m, LANDED) && Took(rules, m, sender, k, amount, limit, isBid, s)
    ensures FundsFollow(m, s.crossed.market, k, isBid, sender, Pulled(m, k, isBid, sender, limit, amount),
                        Plan(!isBid, SideIn(m, k, !isBid), limit, amount))
  {
    hide Took, Sound, Plan, Flow, Pulled, BalanceOf, WalletOf, SideIn;
    forall u, t {
      TookMovesAt(rules, m, sender, k, amount, limit, isBid, s, u, t);
    }
  }

  /** Every other pair keeps its book, and the list of pairs grows by this one if it is new. */
  ghost predicate OthersKeep(m: Market, m': Market, k: BookKey) {
    && m'.books.Keys == m.books.Keys + {k}
    && m'.keys == (if k in m.books then m.keys else m.keys + [k])
    && forall x :: x in m.books && x != k ==> m'.books[x] == m.books[x]
  }

  lemma TookFollowsPlan(rules: Tip20, m: Market, sender: Address, k: BookKey, amount: u128, limit: u128, isBid: bool,
                        s: Stage)
    requires Sound(m, LANDED) && Took(rules, m, sender, k, amount, limit, isBid, s)
    ensures var plan := Plan(!isBid, SideIn(m, k, !isBid), limit, amount);
            && s.crossed.left + Taken(plan) == amount
            && s.crossed.quote == Cost(plan)
            && s.crossed.market.nextId == m.nextId + 1 && OthersKeep(m, s.crossed.market, k)
            && s.crossed.market.log == m.log + [s.submitted] + PlanEvents(plan, m.nextId, sender)
            && SideOf(s.crossed.market.books[k], !isBid) == LeftOnSide(SideIn(m, k, !isBid), plan)
            && SideOf(s.crossed.market.books[k], isBid) == SideIn(m, k, isBid)
            && FundsFollow(m, s.crossed.market, k, isBid, sender, Pulled(m, k, isBid, sender, limit, amount), plan)
  {
    hide Cross, Plan, Flow, LeftOnSide, Available, Transfer, PlanEvents, Taken, Cost, Need, FundsFollow, Pulled, Sound;
    TookMovesFunds(rules, m, sender, k, amount, limit, isBid, s);
    CrossFollowsPlan(Submit(s.funded, s.submitted), k, !isBid, m.nextId, sender, limit, amount, s.crossed);
  }

  /**
    Market orders: fills follow price-time priority within the guard price; a buyer spends at
    most the guard price, a seller loses under one unit per fill to rounding; fill-or-kill
    fills everything; and a remainder means nothing within the guard price is left.
   */
  lemma MarketOrderGuarantee(rules: Tip20, m: Market, sender: Address, base: Address, quote: Address, amount: u128,
                             guard: u128, isBuy: bool, timeInForce: nat, o: Outcome)
    requires Sound(m, LANDED)
    requires Execute(rules, m, sender, MarketOrder(base, quote, amount, guard, isBuy, timeInForce)) == Ok(o)
    ensures var k := BookKey(base, quote);
            var plan := Plan(!isBuy, SideIn(m, k, !isBuy), guard, amount);
            && o.output.Traded? && o.output.tradeId == m.nextId
            && o.market.nextId == m.nextId + 1 && OthersKeep(m, o.market, k)
            && SideIn(o.market, k, !isBuy) == LeftOnSide(SideIn(m, k, !isBuy), plan)
            && SideIn(o.market, k, isBuy) == SideIn(m, k, isBuy)
            && o.output.filled == Taken(plan) == Min(amount, Liquidity(!isBuy, SideIn(m, k, !isBuy), guard))
            && o.output.quote == Cost(plan)
            && (isBuy ==> o.output.quote <= QuoteFloor(o.output.filled, guard))
            && (!isBuy ==> o.output.quote * PRICE_SCALE + (PRICE_SCALE - 1) * |plan| >= o.output.filled * guard)
            && (timeInForce == TIME_IN_FORCE_FOK ==> o.output.filled == amount)
            && (o.output.filled < amount ==>
                  forall p :: p in SideIn(o.market, k, !isBuy) ==> !Crosses(!isBuy, p.price, guard))
            && FundsFollow(m, o.market, k, isBuy, sender, Pulled(m, k, isBuy, sender, guard, amount), plan)
  {
    hide CallMarketOrder, Sound, GoodSide, Plan, Cost, Taken, QuoteFloor, FundsFollow, Pulled, Liquidity, LeftOnSide,
         PlanEvents, Cross, EnsureBalance, OpenPair;
    var k := BookKey(base, quote);
    var plan := Plan(!isBuy, SideIn(m, k, !isBuy), guard, amount);
    var s := MarketStages(rules, m, sender, base, quote, amount, guard, isBuy, timeInForce, o);
    TookFollowsPlan(rules, m, sender, k, amount, guard, isBuy, s);
    SideInGood(m, k, !isBuy);
    PlanIsPriceTime(!isBuy, SideIn(m, k, !isBuy), m.nextId, guard, amount);
    if isBuy {
      BuyerPaysAtMost(plan, guard);
    } else {
      SellerGetsAtLeast(plan, guard);
    }
    TookExhausts(rules, m, sender, k, amount, guard, isBuy, s);
    SameFunds(m, s.crossed.market, o.market, k, isBuy, sender, Pulled(m, k, isBuy, sender, guard, amount), plan);
  }

  /**
    Limit orders: the part that crosses follows price-time priority at maker prices within the
    limit, and the rest goes to the book whole, behind every order at least as good.
   */
  lemma PlaceGuarantee(rules: Tip20, m: Market, sender: Address, base: Address, quote: Address, amount: u128,
                       price: u128, isBid: bool, timeInForce: nat, o: Outcome)
    requires Sound(m, LANDED)
    requires Execute(rules, m, sender, Place(base, quote, amount, price, isBid, timeInForce)) == Ok(o)
    ensures var k := BookKey(base, quote);
            var plan := Plan(!isBid, SideIn(m, k, !isBid), price, amount);
            var own := SideIn(m, k, isBid);
            && o.output == Placed(m.nextId) && o.market.nextId == m.nextId + 1 && OthersKeep(m, o.market, k)
            && Taken(plan) == Min(amount, Liquidity(!isBid, SideIn(m, k, !isBid), price))
            && SideIn(o.market, k, !isBid) == LeftOnSide(SideIn(m, k, !isBid), plan)
            && (if Taken(plan) == amount then SideIn(o.market, k, isBid) == own
                else SideIn(o.market, k, isBid) == InsertAt(own, InsertPos(isBid, own, price),
                  Resting(m.nextId, sender, price, amount - Taken(plan))))
            && FundsFollow(m, o.market, k, isBid, sender, Pulled(m, k, isBid, sender, price, amount), plan)
  {
    hide CallPlace, Sound, GoodSide, Plan, Cost, Taken, QuoteFloor, FundsFollow, Pulled, Liquidity, LeftOnSide,
         PlanEvents, Cross, EnsureBalance, OpenPair, InsertAt, InsertPos;
    var k := BookKey(base, quote);
    var s := PlaceStages(rules, m, sender, base, quote, amount, price, isBid, timeInForce, o);
    TookFollowsPlan(rules, m, sender, k, amount, price, isBid, s);
    SideInGood(m, k, !isBid);
    PlanIsPriceTime(!isBid, SideIn(m, k, !isBid), m.nextId, price, amount);
    SameFunds(m, s.crossed.market, o.market, k, isBid, sender, Pulled(m, k, isBid, sender, price, amount),
              Plan(!isBid, SideIn(m, k, !isBid), price, amount));
  }

  lemma SideInGood(m: Market, k: BookKey, isBid: bool)
    requires Sound(m, LANDED)
    ensures GoodSide(isBid, SideIn(m, k, isBid), m.nextId)
  {
  }

  lemma SameFunds(m: Market, m1: Market, m2: Market, k: BookKey, isBid: bool, sender: Address, pulled: nat,
                  plan: seq<Take>)
    requires FundsFollow(m, m1, k, isBid, sender, pulled, plan) && m1.balances == m2.balances
             && m1.wallets == m2.wallets
    ensures FundsFollow(m, m2, k, isBid, sender, pulled, plan)
  {
  }

  lemma TookExhausts(rules: Tip20, m: Market, sender: Address, k: BookKey, amount: u128, limit: u128, isBid: bool,
                     s: Stage)
    requires Sound(m, LANDED) && Took(rules, m, sender, k, amount, limit, isBid, s)
    ensures 0 < s.crossed.left ==>
              forall p :: p in SideOf(s.crossed.market.books[k], !isBid) ==> !Crosses(!isBid, p.price, limit)
  {
    hide Sound, GoodSide, Cross, EnsureBalance;
    var m' := Submit(s.funded, s.submitted);
    assert SideOf(m'.books[k], !isBid) == SideIn(m, k, !isBid);
    SideInGood(m, k, !isBid);
    GoodLater(!isBid, SideIn(m, k, !isBid), m.nextId);
    CrossExhausts(m', k, !isBid, m.nextId, sender, limit, amount);
  }

  lemma GoodLater(isBid: bool, side: seq<Resting>, nextId: nat)
    requires GoodSide(isBid, side, nextId)
    ensures GoodSide(isBid, side, nextId + 1)
  {
  }

  // ---- counting fills --------------------------------------------------------------------

  ghost function FillWeight(): EventWeight {
    (e: Event) => if e.OrderFilled? then 1 else 0
  }

  /** How many orders a call takes from, read off the book before it. */
  function PlannedFills(m: Market, call: Call): nat {
    match call
    case Place(base, quote, amount, price, isBid, _) =>
      |Plan(!isBid, SideIn(m, BookKey(base, quote), !isBid), price, amount)|
    case MarketOrder(base, quote, amount, guard, isBuy, _) =>
      |Plan(!isBuy, SideIn(m, BookKey(base, quote), !isBuy), guard, amount)|
    case _ => 0
  }

  ghost function StepFills(m: Market, step: Step): nat {
    if step.Called? && Execute(step.rules, m, step.sender, step.call).Ok? then PlannedFills(m, step.call) else 0
  }

  /** How many orders all successful calls of a run took from. */
  ghost function RunFills(steps: seq<Step>): nat {
    if steps == [] then 0
    else RunFills(steps[..|steps| - 1]) + StepFills(Run(steps[..|steps| - 1]), steps[|steps| - 1])
  }

  lemma {:induction false} PlanEventsAreFills(plan: seq<Take>, takerId: nat, taker: Address)
    ensures LogSum(FillWeight(), PlanEvents(plan, takerId, taker)) == |plan|
  {
    if plan != [] {
      var first := [FillEvent(plan[0].order, takerId, taker, plan[0].amount)];
      PlanEventsAreFills(plan[1..], takerId, taker);
      LogSumConcat(FillWeight(), first, PlanEvents(plan[1..], takerId, taker));
      LogSumAppend(FillWeight(), [], first[0]);
      assert [] + first == first;
    }
  }

  lemma FillsAppended(log: seq<Event>, submitted: Event, plan: seq<Take>, takerId: nat, taker: Address)
    requires submitted.OrderSubmitted?
    ensures LogSum(FillWeight(), log + [submitted] + PlanEvents(plan, takerId, taker)) == LogSum(FillWeight(), log)
            + |plan|
  {
    LogSumAppend(FillWeight(), log, submitted);
    LogSumConcat(FillWeight(), log + [submitted], PlanEvents(plan, takerId, taker));
    PlanEventsAreFills(plan, takerId, taker);
  }

  lemma ExecuteLogsFills(rules: Tip20, m: Market, sender: Address, call: Call)
    requires Sound(m, LANDED) && Execute(rules, m, sender, call).Ok?
    ensures LogSum(FillWeight(), Execute(rules, m, sender, call).value.market.log) == LogSum(FillWeight(), m.log)
            + PlannedFills(m, call)
  {
    hide CallPlace, CallMarketOrder, Sound, LogSum, Plan, Took, FundsFollow, PlanEvents, Rest;
    var r := Execute(rules, m, sender, call);
    match call
    case CreatePair(base, quote) =>
    case Deposit(token, amount) =>
    case Withdraw(token, amount) =>
    case Place(base, quote, amount, price, isBid, tif) =>
      var s := PlaceStages(rules, m, sender, base, quote, amount, price, isBid, tif, r.value);
      TookLogsFills(rules, m, sender, BookKey(base, quote), amount, price, isBid, s);
      if s.crossed.left != 0 {
        RestLogsNoFill(s.crossed.market, BookKey(base, quote), isBid, Resting(m.nextId, sender, price, s.crossed.left));
      }
    case Cancel(id) =>
      CancelLogsNoFill(m, sender, id);
    case MarketOrder(base, quote, amount, guard, isBuy, tif) =>
      var s := MarketStages(rules, m, sender, base, quote, amount, guard, isBuy, tif, r.value);
      TookLogsFills(rules, m, sender, BookKey(base, quote), amount, guard, isBuy, s);
      LogSumAppend(FillWeight(), s.crossed.market.log, OrderCancelled(m.nextId, sender, s.crossed.left, IocRemainder));
  }

  lemma TookLogsFills(rules: Tip20, m: Market, sender: Address, k: BookKey, amount: u128, limit: u128, isBid: bool,
                      s: Stage)
    requires Sound(m, LANDED) && Took(rules, m, sender, k, amount, limit, isBid, s)
    ensures LogSum(FillWeight(), s.crossed.market.log)
         == LogSum(FillWeight(), m.log) + |Plan(!isBid, SideIn(m, k, !isBid), limit, amount)|
  {
    TookFollowsPlan(rules, m, sender, k, amount, limit, isBid, s);
    FillsAppended(m.log, s.submitted, Plan(!isBid, SideIn(m, k, !isBid), limit, amount), m.nextId, sender);
  }

  lemma RestLogsNoFill(m: Market, k: BookKey, isBid: bool, o: Resting)
    requires k in m.books
    ensures LogSum(FillWeight(), Rest(m, k, isBid, o).log) == LogSum(FillWeight(), m.log)
  {
    LogSumAppend(FillWeight(), m.log, OrderPlaced(o.id, o.maker, k.base, k.quote, o.qty, o.price, isBid));
  }

  lemma CancelLogsNoFill(m: Market, sender: Address, id: nat)
    requires CallCancel(m, sender, id).Ok?
    ensures LogSum(FillWeight(), CallCancel(m, sender, id).value.market.log) == LogSum(FillWeight(), m.log)
  {
    var log := CallCancel(m, sender, id).value.market.log;
    assert exists qty: u128 :: log == m.log + [OrderCancelled(id, sender, qty, ByUser)];
    var qty: u128 :| log == m.log + [OrderCancelled(id, sender, qty, ByUser)];
    LogSumAppend(FillWeight(), m.log, OrderCancelled(id, sender, qty, ByUser));
  }

  /** The log of any run holds one fill event per order that its calls took from. */
  lemma {:induction false} RunLogsFills(steps: seq<Step>)
    ensures LogSum(FillWeight(), Run(steps).log) == RunFills(steps)
  {
    hide Execute, PlannedFills, Sound;
    if steps != [] {
      var m, step := Run(steps[..|steps| - 1]), steps[|steps| - 1];
      RunLogsFills(steps[..|steps| - 1]);
      RunSound(steps[..|steps| - 1]);
      if step.Called? && Execute(step.rules, m, step.sender, step.call).Ok? {
        ExecuteLogsFills(step.rules, m, step.sender, step.call);
      }
    }
  }

  // ---- dust ------------------------------------------------------------------------------

  const DUST_PAIR: BookKey := BookKey(1, 2)
  const DUST_WALLETS: Wallets := map[(7, 1) := 150, (8, 2) := 1]
  const DUST_RULES: Tip20 := TokenRules({1, 2}, {})

  lemma NothingHeld(m: Market, asks: seq<Resting>, user: Address, token: Address)
    requires m.books == map[DUST_PAIR := Book([], asks)] && m.keys == [DUST_PAIR]
    requires asks == [] || (|asks| == 1 && asks[0].maker != user)
    ensures Reserved(m, user, token) == 0
  {
    var w := ReservedBy(user, token);
    assert m.keys[1..] == [] && (asks != [] ==> asks[1..] == []);
    assert KeysSum(w, m.keys[1..], m.books) == 0;
    assert SideSum(w, DUST_PAIR, false, asks) == 0;
  }

  /** An account that holds nothing back and has nothing in the pool pays the whole amount in. */
  lemma PaysIn(m: Market, user: Address, token: Address, need: u128)
    requires Reserved(m, user, token) == 0 && BalanceOf(m.balances, user, token) == 0 && 0 < need
    requires user != DARKPOOL_ADDRESS && token in DUST_RULES.tokens && WalletOf(m.wallets, user, token) >= need
    ensures var e := EnsureBalance(DUST_RULES, m, user, token, need);
            && e.Ok? && e.value == m.(wallets := e.value.wallets, balances := m.balances[(user, token) := need])
            && (forall u, t :: u != DARKPOOL_ADDRESS && u != user ==>
                  WalletOf(e.value.wallets, u, t) == WalletOf(m.wallets, u, t))
  {
    hide Reserved;
  }

  lemma MakerAsks()
    ensures var r := CallPlace(DUST_RULES, GENESIS.(wallets := DUST_WALLETS), 7, 1, 2, 150, 10000, false,
            TIME_IN_FORCE_GTC);
            && r.Ok? && r.value.market.books == map[DUST_PAIR := Book([], [Resting(1, 7, 10000, 150)])]
            && r.value.market.keys == [DUST_PAIR] && r.value.market.balances == map[(7, 1) := 150]
            && WalletOf(r.value.market.wallets, 8, 2) == 1
  {
    hide EnsureBalance, Transfer, Reserved, Cross;
    var m := AddBook(GENESIS.(wallets := DUST_WALLETS), DUST_PAIR);
    NothingHeld(m, [], 7, 1);
    PaysIn(m, 7, 1, 150);
    var e := EnsureBalance(DUST_RULES, m, 7, 1, 150).value;
    var o := Resting(1, 7, 10000, 150);
    var s := Submit(e, OrderSubmitted(1, 7, 1, 2, 150, 10000, false, Limit, TIME_IN_FORCE_GTC));
    CrossEnds(s, DUST_PAIR, true, 1, 7, 10000, 150);
    assert InsertAt([], InsertPos(false, [], 10000), o) == [o];
    assert Rest(s, DUST_PAIR, false, o).books == map[DUST_PAIR := Book([], [o])];
  }

  lemma TakerFills(m: Market, id: nat)
    requires m.books == map[DUST_PAIR := Book([], [Resting(1, 7, 10000, 150)])]
    requires m.balances == map[(7, 1) := 150, (8, 2) := 1]
    ensures var c := Cross(m, DUST_PAIR, false, id, 8, 10000, 100);
            c.Ok? && c.value.left == 0 && c.value.market.books == map[DUST_PAIR := Book([], [Resting(1, 7, 10000, 50)])]
  {
    hide Cross;
    assert Exchange(m.balances, DUST_PAIR, false, 8, 7, 100, 1).Ok?;
    CrossTurn(m, DUST_PAIR, false, id, 8, 10000, 100);
    hide Exchange;
    var f := FillBest(m, DUST_PAIR, false, id, 8, 100).value;
    hide FillBest;
    CrossEnds(f.market, DUST_PAIR, false, id, 8, 10000, 0);
    FillFacts(m, DUST_PAIR, false, id, 8, 100, f);
    assert SideOf(f.market.books[DUST_PAIR], false) == [Resting(1, 7, 10000, 50)];
    assert SideOf(f.market.books[DUST_PAIR], true) == [];
  }

  lemma TakerBids(m: Market)
    requires m.books == map[DUST_PAIR := Book([], [Resting(1, 7, 10000, 150)])] && m.keys == [DUST_PAIR]
    requires m.balances == map[(7, 1) := 150] && WalletOf(m.wallets, 8, 2) == 1
    ensures var r := CallPlace(DUST_RULES, m, 8, 1, 2, 100, 10000, true, TIME_IN_FORCE_GTC);
            r.Ok? && r.value.market.books == map[DUST_PAIR := Book([], [Resting(1, 7, 10000, 50)])]
  {
    hide EnsureBalance, Transfer, Reserved, Cross, Rest;
    assert QuoteAmount(100, 10000) == Some(1) && BidEscrow(100, 10000) == Some(1);
    hide QuoteAmount, BidEscrow;
    NothingHeld(m, [Resting(1, 7, 10000, 150)], 8, 2);
    PaysIn(m, 8, 2, 1);
    var e := EnsureBalance(DUST_RULES, m, 8, 2, 1).value;
    TakerFills(Submit(e, OrderSubmitted(e.nextId, 8, 1, 2, 100, 10000, true, Limit, TIME_IN_FORCE_GTC)), e.nextId);
  }

  /** An ask of 150 and a bid of 100, both at 10000, leave an ask that no taker can be matched with. */
  lemma DustRests()
    ensures exists steps: seq<Step>, k: BookKey ::
              && k in Run(steps).books && Run(steps).books[k].asks != []
              && Run(steps).books[k].asks[0].qty * Run(steps).books[k].asks[0].price < PRICE_SCALE
  {
    hide CallPlace;
    MakerAsks();
    var s1 := [Elsewhere(DUST_WALLETS)];
    var s2 := s1 + [Called(DUST_RULES, 7, Place(1, 2, 150, 10000, false, TIME_IN_FORCE_GTC))];
    var s3 := s2 + [Called(DUST_RULES, 8, Place(1, 2, 100, 10000, true, TIME_IN_FORCE_GTC))];
    assert s1[..0] == [] && s2[..1] == s1 && s3[..2] == s2;
    assert Run(s1) == GENESIS.(wallets := DUST_WALLETS);
    TakerBids(Run(s2));
    assert Run(s3).books[DUST_PAIR].asks[0] == Resting(1, 7, 10000, 50);
  }
}
