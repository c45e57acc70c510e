/**
  What the event log of a run determines: the pair each order trades on, and the amounts its
  fills settled.
 */
module EventIndex {
  import opened Prelude
  import opened FixedPoint
  import opened OrderBook
  import opened BookSums
  import opened Soundness
  import opened Safety
  import opened Stages

  /** The pair of every submitted order. */
  function PairIndex(log: seq<Event>): map<nat, BookKey> {
    if log == [] then map[]
    else
      var idx, e := PairIndex(log[..|log| - 1]), log[|log| - 1];
      if e.OrderSubmitted? then idx[e.orderId := BookKey(e.base, e.quote)] else idx
  }

  /** What one event moves of a token, given the pairs of the orders. */
  function FillVolume(idx: map<nat, BookKey>, e: Event, token: Address): nat {
    if e.OrderFilled? && e.makerOrderId in idx then
      (if idx[e.makerOrderId].base == token then e.amountFilled else 0)
      + (if idx[e.makerOrderId].quote == token then QuoteFloor(e.amountFilled, e.price) else 0)
    else 0
  }

  ghost function VolumeWeight(idx: map<nat, BookKey>, token: Address): EventWeight {
    (e: Event) => FillVolume(idx, e, token) as int
  }

  ghost function SubmissionWeight(): EventWeight {
    (e: Event) => if e.OrderSubmitted? then 1 else 0
  }

  ghost predicate SideIndexed(idx: map<nat, BookKey>, k: BookKey, side: seq<Resting>) {
    forall i :: 0 <= i < |side| ==> side[i].id in idx && idx[side[i].id] == k
  }

  /** Every resting and every filled order is in the index under its own pair, which never changes. */
  ghost predicate Indexed(m: Market) {
    var idx := PairIndex(m.log);
    && (forall id :: id in idx ==> id < m.nextId)
    && (forall k :: k in m.books ==>
          k.base != k.quote && SideIndexed(idx, k, m.books[k].bids) && SideIndexed(idx, k, m.books[k].asks))
    && (forall e :: e in m.log && e.OrderFilled? ==> e.makerOrderId in idx)
  }

  /** The settled totals are those of the log's fills, and one id was handed out per submission. */
  ghost predicate Settled(m: Market) {
    && (forall t :: LogSum(VolumeWeight(PairIndex(m.log), t), m.log) == SettledOf(m.settled, t))
    && 0 < m.nextId && LogSum(SubmissionWeight(), m.log) == m.nextId - 1
  }

  ghost predicate Tracked(m: Market) {
    Indexed(m) && Settled(m)
  }

  lemma IndexAppend(log: seq<Event>, e: Event)
    ensures PairIndex(log + [e])
            == if e.OrderSubmitted? then PairIndex(log)[e.orderId := BookKey(e.base, e.quote)] else PairIndex(log)
  {
    assert (log + [e])[..|log|] == log;
  }

  // ---- one change at a time --------------------------------------------------------------

  lemma FillIndexed(m: Market, k: BookKey, makerIsBid: bool, takerId: nat, taker: Address, fill: u128, quote: u128,
                    paid: Balances)
    requires Indexed(m) && k in m.books && SideOf(m.books[k], makerIsBid) != []
             && fill <= SideOf(m.books[k], makerIsBid)[0].qty
    ensures Indexed(Booked(m, k, makerIsBid, takerId, taker, fill, quote, paid))
    ensures PairIndex(Booked(m, k, makerIsBid, takerId, taker, fill, quote, paid).log) == PairIndex(m.log)
  {
    hide PairIndex;
    var side := SideOf(m.books[k], makerIsBid);
    IndexAppend(m.log, FillEvent(side[0], takerId, taker, fill));
    assert SideIndexed(PairIndex(m.log), k, AfterFill(side, fill)) by {
      assert SideIndexed(PairIndex(m.log), k, side);
    }
    assert side[0].id in PairIndex(m.log);
    hide SideIndexed, AfterFill;
  }

  lemma FillSettledAt(m: Market, k: BookKey, makerIsBid: bool, takerId: nat, taker: Address, fill: u128, quote: u128,
                      paid: Balances, t: Address)
    requires k in m.books && k.base != k.quote && SideOf(m.books[k], makerIsBid) != []
             && fill <= SideOf(m.books[k], makerIsBid)[0].qty
    requires SideIndexed(PairIndex(m.log), k, SideOf(m.books[k], makerIsBid))
    requires quote == QuoteFloor(fill, SideOf(m.books[k], makerIsBid)[0].price)
    ensures var m' := Booked(m, k, makerIsBid, takerId, taker, fill, quote, paid);
            && LogSum(VolumeWeight(PairIndex(m.log), t), m'.log) - LogSum(VolumeWeight(PairIndex(m.log), t), m.log)
               == SettledOf(m'.settled, t) - SettledOf(m.settled, t)
            && LogSum(SubmissionWeight(), m'.log) == LogSum(SubmissionWeight(), m.log)
  {
    hide PairIndex, LogSum, AfterFill, QuoteFloor;
    var best := SideOf(m.books[k], makerIsBid)[0];
    assert best.id in PairIndex(m.log) && PairIndex(m.log)[best.id] == k;
    var e := FillEvent(best, takerId, taker, fill);
    LogSumAppend(VolumeWeight(PairIndex(m.log), t), m.log, e);
    LogSumAppend(SubmissionWeight(), m.log, e);
  }

  lemma FillTracked(m: Market, k: BookKey, makerIsBid: bool, takerId: nat, taker: Address, fill: u128, quote: u128,
                    paid: Balances)
    requires Tracked(m) && k in m.books && SideOf(m.books[k], makerIsBid) != []
             && fill <= SideOf(m.books[k], makerIsBid)[0].qty
    requires quote == QuoteFloor(fill, SideOf(m.books[k], makerIsBid)[0].price)
    ensures Tracked(Booked(m, k, makerIsBid, takerId, taker, fill, quote, paid))
  {
    hide PairIndex, LogSum, AfterFill, QuoteFloor, Booked, SideIndexed, VolumeWeight, SubmissionWeight;
    var m' := Booked(m, k, makerIsBid, takerId, taker, fill, quote, paid);
    FillIndexed(m, k, makerIsBid, takerId, taker, fill, quote, paid);
    FillSettledAt(m, k, makerIsBid, takerId, taker, fill, quote, paid, 0);
    forall t ensures LogSum(VolumeWeight(PairIndex(m'.log), t), m'.log) == SettledOf(m'.settled, t) {
      FillSettledAt(m, k, makerIsBid, takerId, taker, fill, quote, paid, t);
    }
  }

  lemma {:induction false} CrossTracked(m: Market, k: BookKey, makerIsBid: bool, takerId: nat, taker: Address,
                                        limit: u128, want: u128)
    requires Tracked(m) && k in m.books
    ensures var r := Cross(m, k, makerIsBid, takerId, taker, limit, want);
            r.Ok? ==> Tracked(r.value.market) && PairIndex(r.value.market.log) == PairIndex(m.log)
    decreases |SideOf(m.books[k], makerIsBid)| + want
  {
    hide Tracked, Cross, Exchange, Booked, QuoteFloor, PairIndex;
    var side := SideOf(m.books[k], makerIsBid);
    if want == 0 || side == [] || !Crosses(makerIsBid, side[0].price, limit) {
      CrossEnds(m, k, makerIsBid, takerId, taker, limit, want);
    } else {
      CrossTurn(m, k, makerIsBid, takerId, taker, limit, want);
      var r := FillBest(m, k, makerIsBid, takerId, taker, want);
      if r.Ok? {
        FillFacts(m, k, makerIsBid, takerId, taker, want, r.value);
        FillTracked(m, k, makerIsBid, takerId, taker, r.value.amount, r.value.quote, r.value.market.balances);
        TrackedIndexed(m);
        FillIndexed(m, k, makerIsBid, takerId, taker, r.value.amount, r.value.quote, r.value.market.balances);
        CrossTracked(r.value.market, k, makerIsBid, takerId, taker, limit, want - r.value.amount);
      }
    }
  }

  lemma TrackedIndexed(m: Market)
    requires Tracked(m)
    ensures Indexed(m)
  {
  }

  /** A fresh id changes no fill's pair. */
  lemma SubmitTracked(m: Market, e: Event)
    requires Tracked(m) && e.OrderSubmitted? && e.orderId == m.nextId
    ensures Tracked(Submit(m, e))
    ensures PairIndex(Submit(m, e).log) == PairIndex(m.log)[m.nextId := BookKey(e.base, e.quote)]
  {
    var m' := Submit(m, e);
    IndexAppend(m.log, e);
    hide PairIndex, LogSum;
    var idx, idx' := PairIndex(m.log), PairIndex(m'.log);
    forall t ensures LogSum(VolumeWeight(idx', t), m'.log) == SettledOf(m'.settled, t) {
      LogSumAppend(VolumeWeight(idx', t), m.log, e);
      LogSumAgree(VolumeWeight(idx, t), VolumeWeight(idx', t), m.log);
    }
    LogSumAppend(SubmissionWeight(), m.log, e);
  }

  /** Events that neither submit nor fill leave index and totals alone. */
  lemma QuietTracked(m: Market, m': Market, e: Event)
    requires Tracked(m) && m'.log == m.log + [e] && !e.OrderSubmitted? && !e.OrderFilled?
    requires m'.nextId == m.nextId && m'.settled == m.settled
    requires forall k :: k in m'.books ==>
               k.base != k.quote && SideIndexed(PairIndex(m.log), k, m'.books[k].bids)
                 && SideIndexed(PairIndex(m.log), k, m'.books[k].asks)
    ensures Tracked(m') && PairIndex(m'.log) == PairIndex(m.log)
  {
    IndexAppend(m.log, e);
    hide PairIndex, LogSum, SideIndexed;
    forall t ensures LogSum(VolumeWeight(PairIndex(m'.log), t), m'.log) == SettledOf(m'.settled, t) {
      LogSumAppend(VolumeWeight(PairIndex(m.log), t), m.log, e);
    }
    LogSumAppend(SubmissionWeight(), m.log, e);
  }

  lemma RestTracked(m: Market, k: BookKey, isBid: bool, o: Resting)
    requires Tracked(m) && k in m.books && o.id in PairIndex(m.log) && PairIndex(m.log)[o.id] == k
    ensures Tracked(Rest(m, k, isBid, o))
  {
    hide PairIndex, Settled, InsertPos;
    var side := SideOf(m.books[k], isBid);
    var side' := InsertAt(side, InsertPos(isBid, side, o.price), o);
    assert SideIndexed(PairIndex(m.log), k, side') by {
      assert SideIndexed(PairIndex(m.log), k, side);
    }
    QuietTracked(m, Rest(m, k, isBid, o), OrderPlaced(o.id, o.maker, k.base, k.quote, o.qty, o.price, isBid));
  }

  lemma RemovedTracked(m: Market, k: BookKey, isBid: bool, n: nat)
    requires Tracked(m) && k in m.books && n < |SideOf(m.books[k], isBid)|
    ensures Tracked(Removed(m, k, isBid, n))
  {
    hide PairIndex, Settled;
    var side := SideOf(m.books[k], isBid);
    assert SideIndexed(PairIndex(m.log), k, RemoveAt(side, n)) by {
      assert SideIndexed(PairIndex(m.log), k, side);
    }
    QuietTracked(m, Removed(m, k, isBid, n), OrderCancelled(side[n].id, side[n].maker, side[n].qty, ByUser));
  }

  // ---- calls and runs --------------------------------------------------------------------

  /** The log only grows, and later submissions take later ids. */
  ghost predicate Grows(m: Market, m': Market) {
    && m.log <= m'.log && m.nextId <= m'.nextId
    && forall i :: |m.log| <= i < |m'.log| && m'.log[i].OrderSubmitted? ==> m.nextId <= m'.log[i].orderId
  }

  lemma GrowsThrough(a: Market, b: Market, c: Market)
    requires Grows(a, b) && Grows(b, c)
    ensures Grows(a, c)
  {
  }

  lemma {:induction false} CrossGrows(m: Market, k: BookKey, makerIsBid: bool, takerId: nat, taker: Address,
                                      limit: u128, want: u128)
    requires k in m.books
    ensures var r := Cross(m, k, makerIsBid, takerId, taker, limit, want); r.Ok? ==> Grows(m, r.value.market)
    decreases |SideOf(m.books[k], makerIsBid)| + want
  {
    hide Cross, FillBest, Exchange, Grows;
    var side := SideOf(m.books[k], makerIsBid);
    if want == 0 || side == [] || !Crosses(makerIsBid, side[0].price, limit) {
      CrossEnds(m, k, makerIsBid, takerId, taker, limit, want);
      GrowsBy(m, m, []);
    } else {
      CrossTurn(m, k, makerIsBid, takerId, taker, limit, want);
      var r := FillBest(m, k, makerIsBid, takerId, taker, want);
      if r.Ok? {
        FillFacts(m, k, makerIsBid, takerId, taker, want, r.value);
        GrowsBy(m, r.value.market, [FillEvent(side[0], takerId, taker, r.value.amount)]);
        CrossGrows(r.value.market, k, makerIsBid, takerId, taker, limit, want - r.value.amount);
        var c := Cross(m, k, makerIsBid, takerId, taker, limit, want);
        if c.Ok? {
          GrowsThrough(m, r.value.market, c.value.market);
        }
      }
    }
  }

  lemma GrowsBy(m: Market, m': Market, es: seq<Event>)
    requires m'.log == m.log + es && m.nextId <= m'.nextId
    requires forall e :: e in es && e.OrderSubmitted? ==> m.nextId <= e.orderId
    ensures Grows(m, m')
  {
  }

  lemma TookTracked(rules: Tip20, m: Market, sender: Address, k: BookKey, amount: u128, limit: u128, isBid: bool,
                    s: Stage)
    requires Tracked(m) && Took(rules, m, sender, k, amount, limit, isBid, s)
    ensures Tracked(s.crossed.market) && Grows(m, s.crossed.market)
    ensures m.nextId in PairIndex(s.crossed.market.log) && PairIndex(s.crossed.market.log)[m.nextId] == k
  {
    hide Cross, PairIndex, Available, Transfer, LogSum, Settled;
    var m3 := Submit(s.funded, s.submitted);
    assert Tracked(s.funded) by {
      SettledFrame(m, s.funded);
    }
    SubmitTracked(s.funded, s.submitted);
    hide Tracked, Grows;
    CrossTracked(m3, k, !isBid, m.nextId, sender, limit, amount);
    GrowsBy(m, m3, [s.submitted]);
    CrossGrows(m3, k, !isBid, m.nextId, sender, limit, amount);
    GrowsThrough(m, m3, s.crossed.market);
  }

  lemma SettledFrame(m: Market, m': Market)
    requires Settled(m) && m'.log == m.log && m'.nextId == m.nextId && m'.settled == m.settled
    ensures Settled(m')
  {
  }

  lemma FundsTracked(m: Market, w: Wallets, b: Balances)
    requires Tracked(m)
    ensures Tracked(m.(wallets := w, balances := b)) && Grows(m, m.(wallets := w, balances := b))
  {
    hide PairIndex, LogSum, SideIndexed;
    SettledFrame(m, m.(wallets := w, balances := b));
  }

  lemma AddBookTracked(m: Market, k: BookKey)
    requires Tracked(m) && k.base != k.quote
    ensures Tracked(AddBook(m, k)) && Grows(m, AddBook(m, k))
  {
    hide PairIndex, LogSum;
    SettledFrame(m, AddBook(m, k));
  }

  lemma ExecuteTracked(rules: Tip20, m: Market, sender: Address, call: Call)
    requires Tracked(m)
    ensures var r := Execute(rules, m, sender, call); r.Ok? ==> Tracked(r.value.market) && Grows(m, r.value.market)
  {
    hide Tracked, CallPlace, CallMarketOrder, CallCancel, Cross, Took, Rest, PairIndex, Grows;
    var r := Execute(rules, m, sender, call);
    if r.Err? {
      return;
    }
    match call
    case CreatePair(base, quote) => AddBookTracked(m, BookKey(base, quote));
    case Deposit(token, amount) => FundsTracked(m, r.value.market.wallets, r.value.market.balances);
    case Withdraw(token, amount) => FundsTracked(m, r.value.market.wallets, r.value.market.balances);
    case Place(base, quote, amount, price, isBid, tif) =>
      var s := PlaceStages(rules, m, sender, base, quote, amount, price, isBid, tif, r.value);
      TookTracked(rules, m, sender, BookKey(base, quote), amount, price, isBid, s);
      if s.crossed.left != 0 {
        var o := Resting(m.nextId, sender, price, s.crossed.left);
        RestTracked(s.crossed.market, BookKey(base, quote), isBid, o);
        RestGrows(s.crossed.market, BookKey(base, quote), isBid, o);
        GrowsThrough(m, s.crossed.market, r.value.market);
      }
    case Cancel(id) =>
      CancelTracked(m, sender, id);
    case MarketOrder(base, quote, amount, guard, isBuy, tif) =>
      var s := MarketStages(rules, m, sender, base, quote, amount, guard, isBuy, tif, r.value);
      TookTracked(rules, m, sender, BookKey(base, quote), amount, guard, isBuy, s);
      if s.crossed.left != 0 {
        var e := OrderCancelled(m.nextId, sender, s.crossed.left, IocRemainder);
        EndTracked(s.crossed.market, r.value.market, e);
        GrowsThrough(m, s.crossed.market, r.value.market);
      }
  }

  lemma RestGrows(m: Market, k: BookKey, isBid: bool, o: Resting)
    requires k in m.books
    ensures Grows(m, Rest(m, k, isBid, o))
  {
  }

  lemma EndTracked(m: Market, m': Market, e: Event)
    requires Tracked(m) && m' == m.(log := m.log + [e]) && e.OrderCancelled?
    ensures Tracked(m') && Grows(m, m')
  {
    hide PairIndex, SideIndexed, Settled;
    QuietTracked(m, m', e);
  }

  lemma CancelTracked(m: Market, sender: Address, id: nat)
    requires Tracked(m)
    ensures var r := CallCancel(m, sender, id); r.Ok? ==> Tracked(r.value.market) && Grows(m, r.value.market)
  {
    hide Tracked;
    var r := CallCancel(m, sender, id);
    if r.Ok? {
      var k, isBid, n: nat :| RestsAt(m, k, isBid, n, id) && r.value.market == Removed(m, k, isBid, n);
      RemovedTracked(m, k, isBid, n);
    }
  }

  lemma {:induction false} RunTracked(steps: seq<Step>)
    ensures Tracked(Run(steps))
  {
    if steps == [] {
      assert Tracked(GENESIS);
    } else {
      hide Tracked, Execute, Grows;
      var m, step := Run(steps[..|steps| - 1]), steps[|steps| - 1];
      RunTracked(steps[..|steps| - 1]);
      StepTracked(m, step);
    }
  }

  lemma StepTracked(m: Market, step: Step)
    requires Tracked(m)
    ensures Tracked(Next(m, step)) && Grows(m, Next(m, step))
  {
    hide Tracked, Execute, Grows;
    FundsTracked(m, m.wallets, m.balances);
    match step
    case Called(rules, sender, call) => ExecuteTracked(rules, m, sender, call);
    case Elsewhere(w) => FundsTracked(m, w, m.balances);
  }

  lemma {:induction false} RunGrows(a: seq<Step>, b: seq<Step>)
    ensures Grows(Run(a), Run(a + b))
  {
    if b == [] {
      assert a + b == a;
    } else {
      var b' := b[..|b| - 1];
      assert (a + b)[..|a + b| - 1] == a + b';
      RunGrows(a, b');
      RunTracked(a + b');
      hide Tracked, Next, Grows;
      StepTracked(Run(a + b'), b[|b| - 1]);
      GrowsThrough(Run(a), Run(a + b'), Run(a + b));
    }
  }

  /** An order keeps its pair for ever. */
  lemma {:induction false} IndexStable(log: seq<Event>, more: seq<Event>, bound: nat)
    requires forall id :: id in PairIndex(log) ==> id < bound
    requires forall e :: e in more && e.OrderSubmitted? ==> bound <= e.orderId
    ensures forall id :: id in PairIndex(log) ==>
              id in PairIndex(log + more) && PairIndex(log + more)[id] == PairIndex(log)[id]
  {
    if more == [] {
      assert log + more == log;
    } else {
      var front, e := more[..|more| - 1], more[|more| - 1];
      IndexStable(log, front, bound);
      assert log + more == (log + front) + [e];
      IndexAppend(log + front, e);
      hide PairIndex;
    }
  }

  /** The volume of the events between two points of a run is what was settled between them. */
  lemma VolumeBetween(before: Market, after: Market, t: Address)
    requires Tracked(before) && Tracked(after) && Grows(before, after)
    ensures LogSum(VolumeWeight(PairIndex(after.log), t), after.log[|before.log|..])
         == SettledOf(after.settled, t) - SettledOf(before.settled, t)
  {
    hide PairIndex, LogSum, SideIndexed;
    var idx, idx' := PairIndex(before.log), PairIndex(after.log);
    var more := after.log[|before.log|..];
    assert after.log == before.log + more;
    assert forall e :: e in more && e.OrderSubmitted? ==> before.nextId <= e.orderId;
    IndexStable(before.log, more, before.nextId);
    LogSumConcat(VolumeWeight(idx', t), before.log, more);
    LogSumAgree(VolumeWeight(idx, t), VolumeWeight(idx', t), before.log);
  }

  lemma SubmissionsBetween(before: Market, after: Market)
    requires Tracked(before) && Tracked(after) && Grows(before, after)
    ensures LogSum(SubmissionWeight(), after.log[|before.log|..]) == after.nextId - before.nextId
  {
    hide PairIndex, LogSum, SideIndexed;
    var more := after.log[|before.log|..];
    assert after.log == before.log + more;
    LogSumConcat(SubmissionWeight(), before.log, more);
  }
}
