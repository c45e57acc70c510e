/**
  The event log as a chronicle of orders: every event is consistent with what the log before it
  says about the orders it names, and no order rests in two places.
 */
module Chronicle {
  import opened Prelude
  import opened FixedPoint
  import opened OrderBook
  import opened BookSums
  import opened Soundness
  import opened Safety
  import opened Stages
  import opened EventIndex

  // ---- consistent logs -------------------------------------------------------------------

  /** What the log says is open of an order. */
  ghost function Ledger(log: seq<Event>, id: nat): int {
    LogSum(LedgerWeight(id), log)
  }

  ghost predicate Known(log: seq<Event>, id: nat) {
    id in PairIndex(log)
  }

  /** Orders are submitted once; fills and cancellations name known orders and take what is open of them. */
  ghost predicate GoodNext(log: seq<Event>, e: Event) {
    match e
    case OrderSubmitted(id, _, _, _, amount, _, _, _, tif) => !Known(log, id) && 0 < amount && tif <= TIME_IN_FORCE_FOK
    case OrderPlaced(id, _, _, _, amount, _, _) => Known(log, id) && 0 < amount == Ledger(log, id)
    case OrderFilled(maker, _, _, taker, amount, _) =>
      && Known(log, maker) && Known(log, taker) && maker != taker
      && 0 < amount <= Ledger(log, maker) && amount <= Ledger(log, taker)
    case OrderCancelled(id, _, amount, _) => Known(log, id) && 0 < amount == Ledger(log, id)
  }

  ghost predicate GoodLog(log: seq<Event>) {
    log == [] || (GoodLog(log[..|log| - 1]) && GoodNext(log[..|log| - 1], log[|log| - 1]))
  }

  lemma GoodLogAppend(log: seq<Event>, e: Event)
    requires GoodLog(log) && GoodNext(log, e)
    ensures GoodLog(log + [e])
  {
    hide GoodNext;
    assert (log + [e])[..|log|] == log;
  }

  lemma LedgerAppend(log: seq<Event>, e: Event, id: nat)
    ensures Ledger(log + [e], id) == Ledger(log, id) + LedgerWeight(id)(e)
  {
    LogSumAppend(LedgerWeight(id), log, e);
  }

  // ---- one resting place per order -------------------------------------------------------

  function CountOf(id: nat): Weight {
    (k: BookKey, isBid: bool, o: Resting) => if o.id == id then 1 else 0
  }

  /** How many resting orders bear an id. */
  function Twins(m: Market, id: nat): nat {
    Total(CountOf(id), m)
  }

  lemma {:induction false} NoneOnSide(w: Weight, k: BookKey, isBid: bool, side: seq<Resting>)
    requires forall i :: 0 <= i < |side| ==> w(k, isBid, side[i]) == 0
    ensures SideSum(w, k, isBid, side) == 0
  {
    if side != [] {
      NoneOnSide(w, k, isBid, side[1..]);
    }
  }

  lemma {:induction false} NoneInBooks(w: Weight, keys: seq<BookKey>, books: map<BookKey, Book>)
    requires forall k :: k in books ==> BookSum(w, k, books[k]) == 0
    ensures KeysSum(w, keys, books) == 0
  {
    if keys != [] {
      NoneInBooks(w, keys[1..], books);
    }
  }

  /** An id not handed out yet rests nowhere. */
  lemma FutureRestsNowhere(m: Market, id: nat)
    requires Shape(m) && m.nextId <= id
    ensures Twins(m, id) == 0
  {
    forall k | k in m.books ensures BookSum(CountOf(id), k, m.books[k]) == 0 {
      NoneOnSide(CountOf(id), k, true, m.books[k].bids);
      NoneOnSide(CountOf(id), k, false, m.books[k].asks);
    }
    NoneInBooks(CountOf(id), m.keys, m.books);
  }

  lemma {:induction false} QtyNeedsTwin(k: BookKey, isBid: bool, side: seq<Resting>, id: nat)
    requires SideSum(CountOf(id), k, isBid, side) == 0
    ensures SideSum(QtyOf(id), k, isBid, side) == 0
  {
    if side != [] {
      QtyNeedsTwin(k, isBid, side[1..], id);
    }
  }

  lemma {:induction false} QtyNeedsTwins(keys: seq<BookKey>, books: map<BookKey, Book>, id: nat)
    requires KeysSum(CountOf(id), keys, books) == 0
    ensures KeysSum(QtyOf(id), keys, books) == 0
  {
    if keys != [] {
      if keys[0] in books {
        QtyNeedsTwin(keys[0], true, books[keys[0]].bids, id);
        QtyNeedsTwin(keys[0], false, books[keys[0]].asks, id);
      }
      QtyNeedsTwins(keys[1..], books, id);
    }
  }

  /** An order without a twin is all that rests under its id. */
  lemma OnlyOneRests(m: Market, k: BookKey, isBid: bool, n: nat)
    requires KeysListBooks(m) && k in m.books && n < |SideOf(m.books[k], isBid)|
    requires Twins(m, SideOf(m.books[k], isBid)[n].id) <= 1
    ensures RestingQty(m, SideOf(m.books[k], isBid)[n].id) == SideOf(m.books[k], isBid)[n].qty
  {
    var id := SideOf(m.books[k], isBid)[n].id;
    var m' := Removed(m, k, isBid, n);
    TotalAfterRemoval(CountOf(id), m, k, isBid, n);
    TotalAfterRemoval(QtyOf(id), m, k, isBid, n);
    QtyNeedsTwins(m'.keys, m'.books, id);
  }

  // ---- the chronicle of a market ---------------------------------------------------------

  /** The known ids are those handed out. */
  ghost predicate Issued(m: Market) {
    forall id: nat :: Known(m.log, id) <==> 0 < id < m.nextId
  }

  ghost predicate NoTwins(m: Market) {
    forall id :: Twins(m, id) <= 1
  }

  ghost predicate Chronicled(m: Market) {
    GoodLog(m.log) && Issued(m) && NoTwins(m)
  }

  lemma KnownAppend(log: seq<Event>, e: Event, id: nat)
    ensures Known(log + [e], id) <==> Known(log, id) || (e.OrderSubmitted? && e.orderId == id)
  {
    IndexAppend(log, e);
    hide PairIndex;
  }

  /** One more event that is not a submission. */
  lemma EventChronicled(m: Market, m': Market, e: Event)
    requires Chronicled(m) && GoodNext(m.log, e) && !e.OrderSubmitted?
    requires m'.log == m.log + [e] && m'.nextId == m.nextId && NoTwins(m')
    ensures Chronicled(m') && forall id: nat :: Known(m'.log, id) <==> Known(m.log, id)
  {
    hide GoodNext, NoTwins, Known;
    GoodLogAppend(m.log, e);
    forall id: nat ensures Known(m'.log, id) <==> Known(m.log, id) {
      KnownAppend(m.log, e, id);
    }
  }

  /** A taker in flight: known, with so much open, and resting nowhere. */
  ghost predicate InFlight(m: Market, id: nat, left: nat) {
    Chronicled(m) && Known(m.log, id) && Ledger(m.log, id) == left && Twins(m, id) == 0
  }

  /** Nothing is open of an id not handed out yet, and nothing rests under it. */
  lemma FutureIsClosed(m: Market, f: Flight)
    requires Sound(m, f) && f.left == 0
    ensures Ledger(m.log, m.nextId) == 0 && Twins(m, m.nextId) == 0
  {
    var id := m.nextId;
    FutureRestsNowhere(m, id);
    QtyNeedsTwins(m.keys, m.books, id);
    hide Shape, Uncrossed, Solvent, LogSum, KeysSum;
    assert Ledger(m.log, id) == RestingQty(m, id) + (if id == f.id then f.left else 0);
  }

  lemma SubmitChronicled(m: Market, f: Flight, e: Event)
    requires Sound(m, f) && f.left == 0 && Chronicled(m)
    requires e.OrderSubmitted? && e.orderId == m.nextId && 0 < e.amount && e.timeInForce <= TIME_IN_FORCE_FOK
    ensures InFlight(Submit(m, e), m.nextId, e.amount)
  {
    FutureIsClosed(m, f);
    LedgerAppend(m.log, e, m.nextId);
    assert 0 < m.nextId;
    hide Sound, Ledger, PairIndex, Twins, GoodLog;
    SubmitKnown(m, e);
    SameTwins(m, Submit(m, e));
  }

  lemma SubmitKnown(m: Market, e: Event)
    requires GoodLog(m.log) && Issued(m) && 0 < m.nextId
    requires e.OrderSubmitted? && e.orderId == m.nextId && 0 < e.amount && e.timeInForce <= TIME_IN_FORCE_FOK
    ensures GoodLog(Submit(m, e).log) && Issued(Submit(m, e)) && Known(Submit(m, e).log, m.nextId)
  {
    hide PairIndex, GoodLog;
    assert !Known(m.log, m.nextId);
    GoodLogAppend(m.log, e);
    hide Known;
    forall x: nat ensures Known(m.log + [e], x) <==> Known(m.log, x) || x == m.nextId {
      KnownAppend(m.log, e, x);
    }
  }

  lemma SameTwins(m: Market, m': Market)
    requires m'.books == m.books && m'.keys == m.keys
    ensures forall id :: Twins(m', id) == Twins(m, id)
  {
  }

  lemma TwinsAfterFill(m: Market, k: BookKey, makerIsBid: bool, fill: u128, id: nat)
    requires KeysListBooks(m) && k in m.books && SideOf(m.books[k], makerIsBid) != []
    requires fill <= SideOf(m.books[k], makerIsBid)[0].qty
    ensures Twins(WithSide(m, k, makerIsBid, AfterFill(SideOf(m.books[k], makerIsBid), fill)), id) <= Twins(m, id)
  {
    var side := SideOf(m.books[k], makerIsBid);
    TotalWithSide(CountOf(id), m, k, makerIsBid, AfterFill(side, fill));
    SideSumAfterFill(CountOf(id), k, makerIsBid, side, fill);
  }

  lemma BestIsOpen(m: Market, f: Flight, k: BookKey, isBid: bool)
    requires Sound(m, f) && k in m.books && SideOf(m.books[k], isBid) != [] && SideOf(m.books[k], isBid)[0].id != f.id
    ensures var best := SideOf(m.books[k], isBid)[0]; best.qty <= Ledger(m.log, best.id)
  {
    var best := SideOf(m.books[k], isBid)[0];
    QtyAfterFill(m, k, isBid, best.qty, best.id);
    hide Shape, Uncrossed, Solvent, LogSum, RestingQty, AfterFill;
    assert Ledger(m.log, best.id) == RestingQty(m, best.id) + (if best.id == f.id then f.left else 0);
  }

  /** A fill takes from both orders what is open of them. */
  lemma FillChronicled(m: Market, k: BookKey, makerIsBid: bool, takerId: nat, taker: Address, limit: u128, want: u128,
                       f: Filled)
    requires k in m.books && SideOf(m.books[k], makerIsBid) != [] && 0 < want
    requires Sound(m, TakerFlight(k, makerIsBid, takerId, taker, limit, want)) && InFlight(m, takerId, want)
    requires GoodSide(makerIsBid, SideOf(m.books[k], makerIsBid), takerId)
    requires FillBest(m, k, makerIsBid, takerId, taker, want) == Ok(f)
    ensures InFlight(f.market, takerId, want - f.amount)
  {
    var side := SideOf(m.books[k], makerIsBid);
    var best := side[0];
    var e := FillEvent(best, takerId, taker, f.amount);
    FillFacts(m, k, makerIsBid, takerId, taker, want, f);
    BestIsOpen(m, TakerFlight(k, makerIsBid, takerId, taker, limit, want), k, makerIsBid);
    assert Live(makerIsBid, best, takerId);
    assert KeysListBooks(m);
    hide Sound, LogSum, PairIndex, Total, KeysListBooks, FillBest, Exchange, QuoteFloor, Reservation, GoodSide;
    assert Known(m.log, best.id);
    LedgerAppend(m.log, e, takerId);
    forall x: nat ensures Twins(f.market, x) <= Twins(m, x) {
      TwinsAfterFill(m, k, makerIsBid, f.amount, x);
      hide AfterFill;
    }
    hide GoodLog, Known, Twins, Ledger;
    EventChronicled(m, f.market, e);
  }

  lemma {:induction false} CrossChronicled(m: Market, k: BookKey, makerIsBid: bool, takerId: nat, taker: Address,
                                           limit: u128, want: u128)
    requires k in m.books && GoodSide(makerIsBid, SideOf(m.books[k], makerIsBid), takerId)
    requires Sound(m, TakerFlight(k, makerIsBid, takerId, taker, limit, want)) && InFlight(m, takerId, want)
    ensures var r := Cross(m, k, makerIsBid, takerId, taker, limit, want);
            r.Ok? ==> InFlight(r.value.market, takerId, r.value.left)
    decreases |SideOf(m.books[k], makerIsBid)| + want
  {
    hide Cross, FillBest, Sound, InFlight, GoodSide, SameElsewhere, Exchange, QuoteFloor;
    var side := SideOf(m.books[k], makerIsBid);
    if want == 0 || side == [] || !Crosses(makerIsBid, side[0].price, limit) {
      CrossEnds(m, k, makerIsBid, takerId, taker, limit, want);
    } else {
      CrossTurn(m, k, makerIsBid, takerId, taker, limit, want);
      FillBestSound(m, k, makerIsBid, takerId, taker, limit, want);
      var f := FillBest(m, k, makerIsBid, takerId, taker, want);
      if f.Ok? {
        FillFacts(m, k, makerIsBid, takerId, taker, want, f.value);
        FillChronicled(m, k, makerIsBid, takerId, taker, limit, want, f.value);
        AfterFillGood(makerIsBid, side, f.value.amount, takerId);
        hide AfterFill;
        CrossChronicled(f.value.market, k, makerIsBid, takerId, taker, limit, want - f.value.amount);
      }
    }
  }

  lemma ListedChronicled(rules: Tip20, m: Market, k: BookKey, listed: Market)
    requires Sound(m, LANDED) && Chronicled(m) && OpenPair(rules, m, k.base, k.quote) == Ok(listed)
    ensures Chronicled(listed)
  {
    if k !in m.books {
      AddBookChronicled(m, k);
    }
  }

  lemma AddBookChronicled(m: Market, k: BookKey)
    requires Sound(m, LANDED) && Chronicled(m) && k !in m.books
    ensures Chronicled(AddBook(m, k))
  {
    forall id ensures Twins(AddBook(m, k), id) == Twins(m, id) {
      KeysSumAppend(CountOf(id), m.keys, m.books, k);
    }
    hide Sound, GoodLog, PairIndex, Total;
  }

  lemma FundsChronicled(m: Market, w: Wallets, b: Balances)
    requires Chronicled(m)
    ensures Chronicled(m.(wallets := w, balances := b))
  {
    hide GoodLog, PairIndex, Total;
    SameTwins(m, m.(wallets := w, balances := b));
  }

  lemma TookChronicled(rules: Tip20, m: Market, sender: Address, k: BookKey, amount: u128, limit: u128, isBid: bool,
                       s: Stage)
    requires Sound(m, LANDED) && Chronicled(m) && Took(rules, m, sender, k, amount, limit, isBid, s)
    requires 0 < amount && s.submitted.timeInForce <= TIME_IN_FORCE_FOK
    ensures InFlight(s.crossed.market, m.nextId, s.crossed.left) && KeysListBooks(s.crossed.market)
  {
    hide Sound, Chronicled, InFlight, Cross, EnsureBalance, GoodSide, KeysListBooks;
    var token, need := GivenToken(k, isBid), Need(!isBid, limit, amount);
    OpenPairSound(rules, m, k.base, k.quote);
    ListedChronicled(rules, m, k, s.listed);
    EnsureBalanceSound(rules, s.listed, sender, token, need);
    FundsChronicled(s.listed, s.funded.wallets, s.funded.balances);
    var f := LANDED.(user := sender, token := token, need := need);
    SubmitChronicled(s.funded, f, s.submitted);
    SubmitSound(s.funded, f, s.submitted);
    var m' := Submit(s.funded, s.submitted);
    assert f.(id := m.nextId, left := amount) == TakerFlight(k, !isBid, m.nextId, sender, limit, amount);
    SoundSides(s.funded, f, k, !isBid);
    CrossChronicled(m', k, !isBid, m.nextId, sender, limit, amount);
    CrossSound(m', k, !isBid, m.nextId, sender, limit, amount);
    SoundKeys(s.crossed.market, TakerFlight(k, !isBid, m.nextId, sender, limit, s.crossed.left));
  }

  lemma SoundKeys(m: Market, f: Flight)
    requires Sound(m, f)
    ensures KeysListBooks(m)
  {
  }

  lemma RestChronicled(m: Market, k: BookKey, isBid: bool, o: Resting)
    requires KeysListBooks(m) && k in m.books && InFlight(m, o.id, o.qty) && 0 < o.qty
    ensures Chronicled(Rest(m, k, isBid, o))
  {
    var m' := Rest(m, k, isBid, o);
    var e := OrderPlaced(o.id, o.maker, k.base, k.quote, o.qty, o.price, isBid);
    assert m'.log == m.log + [e] && m'.nextId == m.nextId;
    forall id ensures Twins(m', id) == Twins(m, id) + (if id == o.id then 1 else 0) {
      TotalAfterRest(CountOf(id), m, k, isBid, o);
    }
    hide PairIndex, Total, LogSum, Rest, KeysListBooks, GoodLog;
    EventChronicled(m, m', e);
  }

  lemma EndChronicled(m: Market, id: nat, left: u128, sender: Address)
    requires InFlight(m, id, left) && 0 < left
    ensures Chronicled(m.(log := m.log + [OrderCancelled(id, sender, left, IocRemainder)]))
  {
    var e := OrderCancelled(id, sender, left, IocRemainder);
    hide PairIndex, Total, LogSum, GoodLog;
    SameTwins(m, m.(log := m.log + [e]));
    EventChronicled(m, m.(log := m.log + [e]), e);
  }

  lemma RemovedChronicled(m: Market, k: BookKey, isBid: bool, n: nat)
    requires Sound(m, LANDED) && Chronicled(m) && k in m.books && n < |SideOf(m.books[k], isBid)|
    ensures Chronicled(Removed(m, k, isBid, n))
  {
    var o := SideOf(m.books[k], isBid)[n];
    var m' := Removed(m, k, isBid, n);
    var e := OrderCancelled(o.id, o.maker, o.qty, ByUser);
    OnlyOneRests(m, k, isBid, n);
    SoundSides(m, LANDED, k, isBid);
    assert Live(isBid, o, m.nextId);
    assert Ledger(m.log, o.id) == RestingQty(m, o.id) + (if o.id == LANDED.id then LANDED.left else 0);
    forall id ensures Twins(m', id) <= Twins(m, id) {
      TotalAfterRemoval(CountOf(id), m, k, isBid, n);
    }
    assert m'.log == m.log + [e] && m'.nextId == m.nextId;
    hide Sound, PairIndex, Total, LogSum, Removed, GoodSide, RestingQty, Reservation;
    assert Known(m.log, o.id);
    hide GoodLog, Known, Ledger, Twins;
    EventChronicled(m, m', e);
  }

  lemma CancelChronicled(m: Market, sender: Address, id: nat)
    requires Sound(m, LANDED) && Chronicled(m)
    ensures var r := CallCancel(m, sender, id); r.Ok? ==> Chronicled(r.value.market)
  {
    hide Sound, Chronicled;
    var r := CallCancel(m, sender, id);
    if r.Ok? {
      var k, isBid, n: nat :| RestsAt(m, k, isBid, n, id) && r.value.market == Removed(m, k, isBid, n);
      RemovedChronicled(m, k, isBid, n);
    }
  }

  lemma LandedChronicled(m: Market, id: nat)
    requires InFlight(m, id, 0)
    ensures Chronicled(m)
  {
  }

  lemma ExecuteChronicled(rules: Tip20, m: Market, sender: Address, call: Call)
    requires Sound(m, LANDED) && Chronicled(m)
    ensures var r := Execute(rules, m, sender, call); r.Ok? ==> Chronicled(r.value.market)
  {
    hide Sound, Chronicled, InFlight, CallPlace, CallMarketOrder, CallCancel, Cross, Took, Rest, KeysListBooks;
    var r := Execute(rules, m, sender, call);
    if r.Err? {
      return;
    }
    match call
    case CreatePair(base, quote) => AddBookChronicled(m, BookKey(base, quote));
    case Deposit(token, amount) => FundsChronicled(m, r.value.market.wallets, r.value.market.balances);
    case Withdraw(token, amount) => FundsChronicled(m, r.value.market.wallets, r.value.market.balances);
    case Place(base, quote, amount, price, isBid, tif) =>
      var s := PlaceStages(rules, m, sender, base, quote, amount, price, isBid, tif, r.value);
      TookChronicled(rules, m, sender, BookKey(base, quote), amount, price, isBid, s);
      if s.crossed.left == 0 {
        LandedChronicled(s.crossed.market, m.nextId);
      } else {
        RestChronicled(s.crossed.market, BookKey(base, quote), isBid, Resting(m.nextId, sender, price, s.crossed.left));
      }
    case Cancel(id) =>
      CancelChronicled(m, sender, id);
    case MarketOrder(base, quote, amount, guard, isBuy, tif) =>
      MarketChecks(rules, m, sender, base, quote, amount, guard, isBuy, tif);
      var s := MarketStages(rules, m, sender, base, quote, amount, guard, isBuy, tif, r.value);
      TookChronicled(rules, m, sender, BookKey(base, quote), amount, guard, isBuy, s);
      if s.crossed.left == 0 {
        LandedChronicled(s.crossed.market, m.nextId);
      } else {
        EndChronicled(s.crossed.market, m.nextId, s.crossed.left, sender);
      }
  }

  // ---- whole runs ------------------------------------------------------------------------

  /** Over any run the log is consistent event by event, and no id rests twice. */
  lemma {:induction false} RunChronicled(steps: seq<Step>)
    ensures Chronicled(Run(steps))
  {
    if steps == [] {
      assert GENESIS.keys == [] && PairIndex(GENESIS.log) == map[];
    } else {
      hide Chronicled, Execute, Sound;
      var m, step := Run(steps[..|steps| - 1]), steps[|steps| - 1];
      RunChronicled(steps[..|steps| - 1]);
      RunSound(steps[..|steps| - 1]);
      match step
      case Called(rules, sender, call) => ExecuteChronicled(rules, m, sender, call);
      case Elsewhere(w) => FundsChronicled(m, w, m.balances);
    }
  }

  lemma PresentCounts(m: Market, k: BookKey, isBid: bool, n: nat, id: nat)
    requires KeysListBooks(m) && RestsAt(m, k, isBid, n, id)
    ensures Twins(m, id) >= 1
  {
    TotalAfterRemoval(CountOf(id), m, k, isBid, n);
  }

  lemma MeetWhereTheyRest(m: Market, id: nat, k: BookKey, isBid: bool, n: nat, k': BookKey, isBid': bool, n': nat)
    requires KeysListBooks(m) && Twins(m, id) <= 1 && RestsAt(m, k, isBid, n, id) && RestsAt(m, k', isBid', n', id)
    ensures k == k' && isBid == isBid' && n == n'
  {
    if k != k' || isBid != isBid' || n != n' {
      TotalAfterRemoval(CountOf(id), m, k, isBid, n);
      hide Total, Removed, RestsAt, KeysListBooks;
      var n2 := StillThere(m, id, k, isBid, n, k', isBid', n');
      PresentCounts(Removed(m, k, isBid, n), k', isBid', n2, id);
    }
  }

  /** What rests in another place still rests after a removal. */
  lemma StillThere(m: Market, id: nat, k: BookKey, isBid: bool, n: nat, k': BookKey, isBid': bool, n': nat)
    returns (n2: nat)
    requires RestsAt(m, k, isBid, n, id) && RestsAt(m, k', isBid', n', id) && (k != k' || isBid != isBid' || n != n')
    requires KeysListBooks(m)
    ensures RestsAt(Removed(m, k, isBid, n), k', isBid', n2, id) && KeysListBooks(Removed(m, k, isBid, n))
  {
    n2 := if k == k' && isBid == isBid' && n < n' then n' - 1 else n';
  }

  /** In every reachable market an order id rests in at most one place of one side of one book. */
  lemma AlwaysRestsOnce(steps: seq<Step>, id: nat, k: BookKey, isBid: bool, n: nat, k': BookKey, isBid': bool, n': nat)
    requires RestsAt(Run(steps), k, isBid, n, id) && RestsAt(Run(steps), k', isBid', n', id)
    ensures k == k' && isBid == isBid' && n == n'
  {
    hide Run, Sound, GoodLog, PairIndex, RestsAt, Twins, KeysListBooks;
    RunChronicled(steps);
    RunSound(steps);
    SoundKeys(Run(steps), LANDED);
    MeetWhereTheyRest(Run(steps), id, k, isBid, n, k', isBid', n');
  }
}
