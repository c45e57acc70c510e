/**
  What every call keeps: sorted sides, covered reservations, an uncrossed book and a balanced
  order ledger. Between its submission and its end a taker is in flight, holding back the
  funds for what it still wants.
 */
module Soundness {
  import opened Prelude
  import opened FixedPoint
  import opened OrderBook
  import opened BookSums

  // ---- invariants ------------------------------------------------------------------------

  /** Price first, then arrival. */
  predicate Ahead(isBid: bool, a: Resting, b: Resting) {
    Beats(isBid, a.price, b.price) || (a.price == b.price && a.id < b.id)
  }

  predicate Live(isBid: bool, o: Resting, nextId: nat) {
    && 0 < o.id < nextId && 0 < o.qty && 0 < o.price
    && Reservation(isBid, o) <= U128_MAX
  }

  ghost predicate GoodSide(isBid: bool, side: seq<Resting>, nextId: nat) {
    && (forall i :: 0 <= i < |side| ==> Live(isBid, side[i], nextId))
    && (forall i, j :: 0 <= i < j < |side| ==> Ahead(isBid, side[i], side[j]))
  }

  ghost predicate Shape(m: Market) {
    && KeysListBooks(m)
    && 0 < m.nextId
    && forall k :: k in m.books ==>
         k.base != k.quote && GoodSide(true, m.books[k].bids, m.nextId) && GoodSide(false, m.books[k].asks, m.nextId)
  }

  ghost predicate UncrossedBook(b: Book) {
    forall i, j :: 0 <= i < |b.bids| && 0 <= j < |b.asks| ==> b.bids[i].price < b.asks[j].price
  }

  ghost predicate Uncrossed(m: Market) {
    forall k :: k in m.books ==> UncrossedBook(m.books[k])
  }

  /** A taker between submission and rest: its id, what it still wants, and the funds it holds back. */
  datatype Flight = Flight(id: nat, left: nat, user: Address, token: Address, need: nat)

  const LANDED: Flight := Flight(0, 0, ZERO_ADDRESS, ZERO_ADDRESS, 0)

  function HeldBack(f: Flight, user: Address, token: Address): nat {
    if user == f.user && token == f.token then f.need else 0
  }

  ghost predicate Solvent(m: Market, f: Flight) {
    forall u, t :: BalanceOf(m.balances, u, t) >= Reserved(m, u, t) + HeldBack(f, u, t)
  }

  /** Signed effect of an event on an order: what it submitted less what was filled or cancelled. */
  ghost function LedgerWeight(id: nat): EventWeight {
    (e: Event) =>
      match e
      case OrderSubmitted(o, _, _, _, amount, _, _, _, _) => if o == id then amount as int else 0
      case OrderPlaced(_, _, _, _, _, _, _) => 0
      case OrderFilled(maker, _, _, taker, amount, _) =>
        - (if maker == id then amount as int else 0) - (if taker == id then amount as int else 0)
      case OrderCancelled(o, _, amount, _) => if o == id then - (amount as int) else 0
  }

  function QtyOf(id: nat): Weight {
    (k: BookKey, isBid: bool, o: Resting) => if o.id == id then o.qty else 0
  }

  function RestingQty(m: Market, id: nat): nat {
    Total(QtyOf(id), m)
  }

  ghost predicate Balanced(m: Market, f: Flight) {
    forall id :: LogSum(LedgerWeight(id), m.log) == RestingQty(m, id) + (if id == f.id then f.left else 0)
  }

  ghost predicate Sound(m: Market, f: Flight) {
    Shape(m) && Uncrossed(m) && Solvent(m, f) && Balanced(m, f)
  }

  // ---- one fill --------------------------------------------------------------------------

  function PaidToken(k: BookKey, makerIsBid: bool): Address {
    GivenToken(k, !makerIsBid)
  }

  /** What an exchange adds to or takes from one balance. */
  function ExchangeDelta(k: BookKey, makerIsBid: bool, taker: Address, maker: Address, fill: nat, quote: nat,
                         u: Address, t: Address): int
  {
    var amount: int := if t == k.base then fill else if t == k.quote then quote else 0;
    var toTaker := if (t == k.base) == makerIsBid then -amount else amount;
    (if u == taker then toTaker else 0) - (if u == maker then toTaker else 0)
  }

  /** An exchange moves exactly the two amounts, also when taker and maker are the same account. */
  lemma ExchangeMoves(b: Balances, k: BookKey, makerIsBid: bool, taker: Address, maker: Address, fill: u128,
                      quote: u128, paid: Balances, u: Address, t: Address)
    requires k.base != k.quote && Exchange(b, k, makerIsBid, taker, maker, fill, quote) == Ok(paid)
    ensures BalanceOf(paid, u, t) as int == BalanceOf(b, u, t)
            + ExchangeDelta(k, makerIsBid, taker, maker, fill, quote, u, t)
  {
  }

  lemma ExchangeCovered(b: Balances, k: BookKey, makerIsBid: bool, taker: Address, maker: Address, fill: u128,
                        quote: u128)
    requires k.base != k.quote
    requires BalanceOf(b, taker, PaidToken(k, makerIsBid)) >= if makerIsBid then fill else quote
    requires BalanceOf(b, maker, GivenToken(k, makerIsBid)) >= if makerIsBid then quote else fill
    ensures var r := Exchange(b, k, makerIsBid, taker, maker, fill, quote); r.Err? ==> r.error == Arithmetic(Overflow)
  {
  }

  /** What a taker must still be able to pay: its quantity when it sells, escrow at its limit when it buys. */
  function Need(makerIsBid: bool, limit: nat, want: nat): nat {
    if makerIsBid then want else Escrow(want, limit)
  }

  function TakerFlight(k: BookKey, makerIsBid: bool, takerId: nat, taker: Address, limit: nat, want: nat): Flight {
    Flight(takerId, want, taker, PaidToken(k, makerIsBid), Need(makerIsBid, limit, want))
  }

  lemma NeedCoversFill(makerIsBid: bool, limit: u128, want: u128, fill: u128, price: u128)
    requires fill <= want && Crosses(makerIsBid, price, limit)
    ensures Need(makerIsBid, limit, want)
         >= Need(makerIsBid, limit, want - fill) + (if makerIsBid then fill else QuoteFloor(fill, price))
  {
    hide Escrow, QuoteFloor;
    if !makerIsBid {
      EscrowCoversFill(want, fill, price, limit);
    }
  }

  /** The reservation a maker gives back covers what the fill takes from it. */
  lemma ReservationCoversFill(isBid: bool, o: Resting, fill: u128)
    requires fill <= o.qty
    ensures Reservation(isBid, o)
         >= Reservation(isBid, o.(qty := o.qty - fill)) + (if isBid then QuoteFloor(fill, o.price) else fill)
  {
    if isBid {
      EscrowCoversFill(o.qty, fill, o.price, o.price);
    }
  }

  lemma EscrowOfNothing(o: Resting)
    ensures Reservation(true, o.(qty := 0)) == 0
  {
    assert 0 * o.price == 0;
  }

  lemma ReservedAfterFill(m: Market, k: BookKey, makerIsBid: bool, fill: u128, u: Address, t: Address)
    requires KeysListBooks(m) && k in m.books && SideOf(m.books[k], makerIsBid) != []
    requires fill <= SideOf(m.books[k], makerIsBid)[0].qty
    ensures var side := SideOf(m.books[k], makerIsBid);
            var given := if makerIsBid then QuoteFloor(fill, side[0].price) else fill;
            Reserved(WithSide(m, k, makerIsBid, AfterFill(side, fill)), u, t)
            + (if u == side[0].maker && t == GivenToken(k, makerIsBid) then given else 0) <= Reserved(m, u, t)
  {
    var side := SideOf(m.books[k], makerIsBid);
    var w := ReservedBy(u, t);
    TotalWithSide(w, m, k, makerIsBid, AfterFill(side, fill));
    SideSumAfterFill(w, k, makerIsBid, side, fill);
    ReservationCoversFill(makerIsBid, side[0], fill);
    EscrowOfNothing(side[0]);
  }

  lemma ReservedCoversBest(m: Market, k: BookKey, isBid: bool)
    requires KeysListBooks(m) && k in m.books && SideOf(m.books[k], isBid) != []
    ensures var o := SideOf(m.books[k], isBid)[0]; Reserved(m, o.maker, GivenToken(k, isBid)) >= Reservation(isBid, o)
  {
    var side := SideOf(m.books[k], isBid);
    TotalWithSide(ReservedBy(side[0].maker, GivenToken(k, isBid)), m, k, isBid, side[1..]);
  }

  /** The debits of a fill are always covered, so only a credit overflow or the quote range can stop it. */
  lemma FillCovered(m: Market, k: BookKey, makerIsBid: bool, takerId: nat, taker: Address, limit: u128, want: u128,
                    fill: u128, quote: u128)
    requires Shape(m) && k in m.books && SideOf(m.books[k], makerIsBid) != []
    requires Solvent(m, TakerFlight(k, makerIsBid, takerId, taker, limit, want))
    requires fill <= want && fill <= SideOf(m.books[k], makerIsBid)[0].qty
    requires Crosses(makerIsBid, SideOf(m.books[k], makerIsBid)[0].price, limit)
    requires quote == QuoteFloor(fill, SideOf(m.books[k], makerIsBid)[0].price)
    ensures var r := Exchange(m.balances, k, makerIsBid, taker, SideOf(m.books[k], makerIsBid)[0].maker, fill, quote);
            r.Err? ==> r.error == Arithmetic(Overflow)
  {
    var best := SideOf(m.books[k], makerIsBid)[0];
    ReservedCoversBest(m, k, makerIsBid);
    ReservationCoversFill(makerIsBid, best, fill);
    NeedCoversFill(makerIsBid, limit, want, fill, best.price);
    assert BalanceOf(m.balances, taker, PaidToken(k, makerIsBid)) >= Need(makerIsBid, limit, want);
    assert BalanceOf(m.balances, best.maker, GivenToken(k, makerIsBid)) >= Reservation(makerIsBid, best);
    ExchangeCovered(m.balances, k, makerIsBid, taker, best.maker, fill, quote);
  }

  /** One account's side of a fill: what it pays, it no longer needs to hold back. */
  lemma FillSolventAt(m: Market, k: BookKey, makerIsBid: bool, takerId: nat, taker: Address, limit: u128, want: u128,
                      fill: u128, quote: u128, paid: Balances, u: Address, t: Address)
    requires KeysListBooks(m) && k in m.books && k.base != k.quote && SideOf(m.books[k], makerIsBid) != []
    requires fill <= want && fill <= SideOf(m.books[k], makerIsBid)[0].qty
    requires Crosses(makerIsBid, SideOf(m.books[k], makerIsBid)[0].price, limit)
    requires quote == QuoteFloor(fill, SideOf(m.books[k], makerIsBid)[0].price)
    requires Exchange(m.balances, k, makerIsBid, taker, SideOf(m.books[k], makerIsBid)[0].maker, fill, quote)
             == Ok(paid)
    requires BalanceOf(m.balances, u, t) >= Reserved(m, u, t)
             + HeldBack(TakerFlight(k, makerIsBid, takerId, taker, limit, want), u, t)
    ensures BalanceOf(paid, u, t) >= Reserved(Booked(m, k, makerIsBid, takerId, taker, fill, quote, paid), u, t)
                                     + HeldBack(TakerFlight(k, makerIsBid, takerId, taker, limit, want - fill), u, t)
  {
    hide Exchange, Booked, QuoteFloor, Escrow, AfterFill, KeysSum, WithSide, KeysListBooks, BalanceOf;
    var best := SideOf(m.books[k], makerIsBid)[0];
    NeedCoversFill(makerIsBid, limit, want, fill, best.price);
    ReservedAfterFill(m, k, makerIsBid, fill, u, t);
    ExchangeMoves(m.balances, k, makerIsBid, taker, best.maker, fill, quote, paid, u, t);
  }

  lemma FillSolvent(m: Market, k: BookKey, makerIsBid: bool, takerId: nat, taker: Address, limit: u128, want: u128,
                    fill: u128, quote: u128, paid: Balances)
    requires Shape(m) && k in m.books && SideOf(m.books[k], makerIsBid) != []
    requires Solvent(m, TakerFlight(k, makerIsBid, takerId, taker, limit, want))
    requires fill <= want && fill <= SideOf(m.books[k], makerIsBid)[0].qty
    requires Crosses(makerIsBid, SideOf(m.books[k], makerIsBid)[0].price, limit)
    requires quote == QuoteFloor(fill, SideOf(m.books[k], makerIsBid)[0].price)
    requires Exchange(m.balances, k, makerIsBid, taker, SideOf(m.books[k], makerIsBid)[0].maker, fill, quote)
             == Ok(paid)
    ensures Solvent(Booked(m, k, makerIsBid, takerId, taker, fill, quote, paid),
            TakerFlight(k, makerIsBid, takerId, taker, limit, want - fill))
  {
    hide GoodSide, KeysListBooks, Exchange, Booked, QuoteFloor, Escrow, AfterFill, Total, WithSide, TakerFlight,
         HeldBack, BalanceOf, Reserved;
    var m' := Booked(m, k, makerIsBid, takerId, taker, fill, quote, paid);
    var after := TakerFlight(k, makerIsBid, takerId, taker, limit, want - fill);
    forall u, t ensures BalanceOf(m'.balances, u, t) >= Reserved(m', u, t) + HeldBack(after, u, t) {
      FillSolventAt(m, k, makerIsBid, takerId, taker, limit, want, fill, quote, paid, u, t);
    }
  }

  lemma QtyAfterFill(m: Market, k: BookKey, makerIsBid: bool, fill: u128, id: nat)
    requires KeysListBooks(m) && k in m.books && SideOf(m.books[k], makerIsBid) != []
    requires fill <= SideOf(m.books[k], makerIsBid)[0].qty
    ensures var side := SideOf(m.books[k], makerIsBid);
            RestingQty(WithSide(m, k, makerIsBid, AfterFill(side, fill)), id) + (if side[0].id == id then fill else 0)
            == RestingQty(m, id)
  {
    var side := SideOf(m.books[k], makerIsBid);
    TotalWithSide(QtyOf(id), m, k, makerIsBid, AfterFill(side, fill));
    SideSumAfterFill(QtyOf(id), k, makerIsBid, side, fill);
  }

  lemma FillBalancedAt(m: Market, k: BookKey, makerIsBid: bool, takerId: nat, taker: Address, fill: u128, quote: u128,
                       paid: Balances, id: nat)
    requires KeysListBooks(m) && k in m.books && SideOf(m.books[k], makerIsBid) != []
             && fill <= SideOf(m.books[k], makerIsBid)[0].qty
    ensures var m' := Booked(m, k, makerIsBid, takerId, taker, fill, quote, paid);
            LogSum(LedgerWeight(id), m'.log) - RestingQty(m', id)
            == LogSum(LedgerWeight(id), m.log) - RestingQty(m, id) - (if id == takerId then fill else 0)
  {
    hide Booked, AfterFill, KeysSum, LogSum, WithSide, KeysListBooks;
    LogSumAppend(LedgerWeight(id), m.log, FillEvent(SideOf(m.books[k], makerIsBid)[0], takerId, taker, fill));
    QtyAfterFill(m, k, makerIsBid, fill, id);
  }

  lemma FillBalanced(m: Market, k: BookKey, makerIsBid: bool, takerId: nat, taker: Address, limit: u128, want: u128,
                     fill: u128, quote: u128, paid: Balances)
    requires Shape(m) && k in m.books && SideOf(m.books[k], makerIsBid) != []
    requires fill <= want && fill <= SideOf(m.books[k], makerIsBid)[0].qty
    requires Balanced(m, TakerFlight(k, makerIsBid, takerId, taker, limit, want))
    ensures Balanced(Booked(m, k, makerIsBid, takerId, taker, fill, quote, paid),
            TakerFlight(k, makerIsBid, takerId, taker, limit, want - fill))
  {
    hide GoodSide, KeysListBooks, Booked, AfterFill, WithSide, LogSum, RestingQty, LedgerWeight;
    var m' := Booked(m, k, makerIsBid, takerId, taker, fill, quote, paid);
    forall id ensures LogSum(LedgerWeight(id), m'.log) == RestingQty(m', id)
      + (if id == takerId then want - fill else 0) {
      FillBalancedAt(m, k, makerIsBid, takerId, taker, fill, quote, paid, id);
    }
  }

  lemma AfterFillGood(isBid: bool, side: seq<Resting>, fill: u128, nextId: nat)
    requires GoodSide(isBid, side, nextId) && side != [] && fill <= side[0].qty
    ensures GoodSide(isBid, AfterFill(side, fill), nextId)
    ensures forall o :: o in AfterFill(side, fill) ==> exists p :: p in side && p.price == o.price
  {
    var after := AfterFill(side, fill);
    ReservationCoversFill(isBid, side[0], fill);
    if fill == side[0].qty {
      assert forall i :: 0 <= i < |after| ==> after[i] == side[i + 1];
    } else {
      assert after[0].price == side[0].price;
      assert forall i :: 0 < i < |after| ==> after[i] == side[i];
    }
  }

  lemma UncrossedReplace(m: Market, k: BookKey, isBid: bool, side: seq<Resting>)
    requires Uncrossed(m) && k in m.books
    requires forall o :: o in side ==> exists p :: p in SideOf(m.books[k], isBid) && p.price == o.price
    ensures Uncrossed(WithSide(m, k, isBid, side))
  {
    var b := WithSide(m, k, isBid, side).books[k];
    forall i, j | 0 <= i < |b.bids| && 0 <= j < |b.asks| ensures b.bids[i].price < b.asks[j].price {
      assert b.bids[i] in b.bids && b.asks[j] in b.asks;
      assert UncrossedBook(m.books[k]);
    }
  }

  lemma ShapeReplace(m: Market, k: BookKey, isBid: bool, side: seq<Resting>)
    requires Shape(m) && k in m.books && GoodSide(isBid, side, m.nextId)
    ensures Shape(WithSide(m, k, isBid, side))
  {
    hide GoodSide;
  }

  lemma FillShape(m: Market, k: BookKey, makerIsBid: bool, takerId: nat, taker: Address, fill: u128, quote: u128,
                  paid: Balances)
    requires Shape(m) && Uncrossed(m) && k in m.books && SideOf(m.books[k], makerIsBid) != []
    requires fill <= SideOf(m.books[k], makerIsBid)[0].qty
    ensures Shape(Booked(m, k, makerIsBid, takerId, taker, fill, quote, paid))
    ensures Uncrossed(Booked(m, k, makerIsBid, takerId, taker, fill, quote, paid))
  {
    var side := SideOf(m.books[k], makerIsBid);
    AfterFillGood(makerIsBid, side, fill, m.nextId);
    ShapeReplace(m, k, makerIsBid, AfterFill(side, fill));
    UncrossedReplace(m, k, makerIsBid, AfterFill(side, fill));
  }

  /** A fill keeps every invariant, with the taker still holding back the funds for the rest. */
  lemma FillBestSound(m: Market, k: BookKey, makerIsBid: bool, takerId: nat, taker: Address, limit: u128, want: u128)
    requires k in m.books && SideOf(m.books[k], makerIsBid) != []
    requires Crosses(makerIsBid, SideOf(m.books[k], makerIsBid)[0].price, limit)
    requires Sound(m, TakerFlight(k, makerIsBid, takerId, taker, limit, want))
    ensures match FillBest(m, k, makerIsBid, takerId, taker, want)
            case Err(e) => e.Arithmetic? && e.cause != Underflow
            case Ok(f) =>
              Sound(f.market, TakerFlight(k, makerIsBid, takerId, taker, limit, want - f.amount))
                && f.market.nextId == m.nextId
  {
    hide Shape, Solvent, Balanced, Uncrossed, Exchange, Booked, QuoteAmount;
    var best := SideOf(m.books[k], makerIsBid)[0];
    var fill: u128 := Min(want, best.qty);
    var q := QuoteAmount(fill, best.price);
    if q.Some? {
      FillCovered(m, k, makerIsBid, takerId, taker, limit, want, fill, q.value);
      var paid := Exchange(m.balances, k, makerIsBid, taker, best.maker, fill, q.value);
      if paid.Ok? {
        FillSolvent(m, k, makerIsBid, takerId, taker, limit, want, fill, q.value, paid.value);
        FillBalanced(m, k, makerIsBid, takerId, taker, limit, want, fill, q.value, paid.value);
        FillShape(m, k, makerIsBid, takerId, taker, fill, q.value, paid.value);
      }
    }
  }

  // ---- a whole crossing loop -------------------------------------------------------------

  /** Crossing keeps every invariant, and no debit in it can underflow. */
  lemma {:induction false} CrossSound(m: Market, k: BookKey, makerIsBid: bool, takerId: nat, taker: Address,
                                      limit: u128, want: u128)
    requires k in m.books && Sound(m, TakerFlight(k, makerIsBid, takerId, taker, limit, want))
    ensures match Cross(m, k, makerIsBid, takerId, taker, limit, want)
            case Err(e) => e.Arithmetic? && e.cause != Underflow
            case Ok(c) =>
              Sound(c.market, TakerFlight(k, makerIsBid, takerId, taker, limit, c.left)) && c.market.nextId == m.nextId
    decreases |SideOf(m.books[k], makerIsBid)| + want
  {
    hide Sound, FillBest;
    var side := SideOf(m.books[k], makerIsBid);
    if want == 0 || side == [] || !Crosses(makerIsBid, side[0].price, limit) {
    } else {
      FillBestSound(m, k, makerIsBid, takerId, taker, limit, want);
      var r := FillBest(m, k, makerIsBid, takerId, taker, want);
      if r.Ok? {
        CrossSound(r.value.market, k, makerIsBid, takerId, taker, limit, want - r.value.amount);
      }
    }
  }

  lemma BestRules(isBid: bool, side: seq<Resting>, nextId: nat, limit: u128)
    requires GoodSide(isBid, side, nextId) && side != [] && !Crosses(isBid, side[0].price, limit)
    ensures forall o :: o in side ==> !Crosses(isBid, o.price, limit)
  {
    forall o | o in side ensures !Crosses(isBid, o.price, limit) {
      var i :| 0 <= i < |side| && side[i] == o;
      assert i == 0 || Ahead(isBid, side[0], side[i]);
    }
  }

  /** When a crossing stops with something left, no opposite order within the limit remains. */
  lemma {:induction false} CrossExhausts(m: Market, k: BookKey, makerIsBid: bool, takerId: nat, taker: Address,
                                         limit: u128, want: u128)
    requires k in m.books && GoodSide(makerIsBid, SideOf(m.books[k], makerIsBid), m.nextId)
    ensures var r := Cross(m, k, makerIsBid, takerId, taker, limit, want);
            r.Ok? ==>
              && SideOf(r.value.market.books[k], !makerIsBid) == SideOf(m.books[k], !makerIsBid)
              && (0 < r.value.left ==>
                    forall o :: o in SideOf(r.value.market.books[k], makerIsBid)
                      ==> !Crosses(makerIsBid, o.price, limit))
    decreases |SideOf(m.books[k], makerIsBid)| + want
  {
    hide Cross, FillBest, GoodSide, Exchange, QuoteFloor;
    var side := SideOf(m.books[k], makerIsBid);
    if want == 0 || side == [] {
      CrossEnds(m, k, makerIsBid, takerId, taker, limit, want);
    } else if !Crosses(makerIsBid, side[0].price, limit) {
      CrossEnds(m, k, makerIsBid, takerId, taker, limit, want);
      BestRules(makerIsBid, side, m.nextId, limit);
    } else {
      CrossTurn(m, k, makerIsBid, takerId, taker, limit, want);
      var r := FillBest(m, k, makerIsBid, takerId, taker, want);
      if r.Ok? {
        FillFacts(m, k, makerIsBid, takerId, taker, want, r.value);
        AfterFillGood(makerIsBid, side, r.value.amount, m.nextId);
        hide AfterFill;
        CrossExhausts(r.value.market, k, makerIsBid, takerId, taker, limit, want - r.value.amount);
      }
    }
  }

  lemma ShapeIgnoresFunds(m: Market, w: Wallets, b: Balances)
    requires Shape(m) && Uncrossed(m)
    ensures Shape(m.(wallets := w, balances := b)) && Uncrossed(m.(wallets := w, balances := b))
  {
  }

  // ---- the other steps of a call ---------------------------------------------------------

  lemma AddBookSound(m: Market, k: BookKey)
    requires Sound(m, LANDED) && k !in m.books && k.base != k.quote
    ensures Sound(AddBook(m, k), LANDED)
  {
    var m' := AddBook(m, k);
    assert Shape(m');
    assert Uncrossed(m');
    forall w ensures Total(w, m') == Total(w, m) {
      KeysSumAppend(w, m.keys, m.books, k);
    }
  }

  lemma NewBookReservesNothing(m: Market, k: BookKey, user: Address, token: Address)
    requires Sound(m, LANDED) && k !in m.books
    ensures Reserved(AddBook(m, k), user, token) == Reserved(m, user, token)
  {
    KeysSumAppend(ReservedBy(user, token), m.keys, m.books, k);
  }

  lemma ListingKeepsShortfall(rules: Tip20, m: Market, k: BookKey, user: Address, token: Address, required: nat,
                              listed: Market)
    requires Sound(m, LANDED) && OpenPair(rules, m, k.base, k.quote) == Ok(listed)
    ensures Shortfall(listed, user, token, required) == Shortfall(m, user, token, required)
  {
    if k !in m.books {
      NewBookReservesNothing(m, k, user, token);
    }
    hide Reserved;
  }

  /** A top-up moves the shortfall from the user's wallet to the darkpool's, and credits it. */
  lemma EnsureBalanceMoves(rules: Tip20, m: Market, user: Address, token: Address, required: u128, u: Address,
                           t: Address)
    requires EnsureBalance(rules, m, user, token, required).Ok?
    ensures var m' := EnsureBalance(rules, m, user, token, required).value;
            var pulled := if t == token then Shortfall(m, user, token, required) else 0;
            && BalanceOf(m'.balances, u, t) == BalanceOf(m.balances, u, t) + (if u == user then pulled else 0)
            && WalletOf(m'.wallets, u, t) as int
               == WalletOf(m.wallets, u, t) + (if u == DARKPOOL_ADDRESS then pulled else 0)
                  - (if u == user then pulled else 0)
  {
    hide Available;
  }

  /** After the top-up the available balance covers the requirement, which can now be held back. */
  lemma EnsureBalanceSound(rules: Tip20, m: Market, user: Address, token: Address, required: u128)
    requires Sound(m, LANDED)
    ensures match EnsureBalance(rules, m, user, token, required)
            case Err(e) => e != Arithmetic(Underflow)
            case Ok(m') =>
              && Sound(m', LANDED.(user := user, token := token, need := required))
              && m' == m.(wallets := m'.wallets, balances := m'.balances)
  {
    hide Shape, Uncrossed, KeysSum, LogSum, LedgerWeight;
    assert HeldBack(LANDED, user, token) == 0;
    var r := EnsureBalance(rules, m, user, token, required);
    if r.Ok? {
      var m' := r.value;
      assert m' == m.(wallets := m'.wallets, balances := m'.balances);
      assert Shape(m') && Uncrossed(m') by {
        ShapeIgnoresFunds(m, m'.wallets, m'.balances);
      }
      forall u, t ensures BalanceOf(m'.balances, u, t) >= Reserved(m', u, t)
        + HeldBack(LANDED.(user := user, token := token, need := required), u, t) {
        assert BalanceOf(m.balances, u, t) >= Reserved(m, u, t) + HeldBack(LANDED, u, t);
        assert Reserved(m', u, t) == Reserved(m, u, t);
      }
      forall id ensures LogSum(LedgerWeight(id), m'.log) == RestingQty(m', id) + (if id == 0 then 0 else 0) {
        assert RestingQty(m', id) == RestingQty(m, id);
      }
    }
  }

  /** Submitting takes the next id: the order is in flight for its whole amount. */
  lemma SubmitSound(m: Market, f: Flight, submitted: Event)
    requires Sound(m, f) && f.left == 0
    requires submitted.OrderSubmitted? && submitted.orderId == m.nextId
    ensures Sound(Submit(m, submitted), f.(id := m.nextId, left := submitted.amount))
  {
  }

  lemma InsertGood(isBid: bool, side: seq<Resting>, o: Resting, nextId: nat)
    requires GoodSide(isBid, side, o.id) && Live(isBid, o, nextId)
    ensures GoodSide(isBid, InsertAt(side, InsertPos(isBid, side, o.price), o), nextId)
  {
    var n := InsertPos(isBid, side, o.price);
    hide InsertPos, Reservation;
    var s := InsertAt(side, n, o);
    forall i, j | 0 <= i < j < |s| ensures Ahead(isBid, s[i], s[j]) {
      if i == n {
        assert s[j] == side[j - 1];
        assert j - 1 == n || Ahead(isBid, side[n], side[j - 1]);
      } else if j == n {
        assert s[i] == side[i] && Live(isBid, side[i], o.id);
      } else {
        assert s[i] == side[if i < n then i else i - 1] && s[j] == side[if j < n then j else j - 1];
      }
    }
    forall i | 0 <= i < |s| ensures Live(isBid, s[i], nextId) {
      assert s[i] == o || Live(isBid, side[if i < n then i else i - 1], o.id);
    }
  }

  lemma RestShape(m: Market, k: BookKey, isBid: bool, o: Resting)
    requires Shape(m) && k in m.books && Live(isBid, o, m.nextId)
    requires GoodSide(isBid, SideOf(m.books[k], isBid), o.id)
    ensures Shape(Rest(m, k, isBid, o))
  {
    hide GoodSide, InsertAt, InsertPos, Live;
    InsertGood(isBid, SideOf(m.books[k], isBid), o, m.nextId);
    var side := SideOf(m.books[k], isBid);
    ShapeReplace(m, k, isBid, InsertAt(side, InsertPos(isBid, side, o.price), o));
  }

  /** Orders that do not reach the opposite side keep the book uncrossed. */
  lemma UncrossedSide(b: Book, b': Book, isBid: bool, price: u128)
    requires UncrossedBook(b) && SideOf(b', !isBid) == SideOf(b, !isBid)
    requires forall p :: p in SideOf(b, !isBid) ==> !Crosses(!isBid, p.price, price)
    requires forall o :: o in SideOf(b', isBid) ==> o.price == price || o in SideOf(b, isBid)
    ensures UncrossedBook(b')
  {
    forall i, j | 0 <= i < |b'.bids| && 0 <= j < |b'.asks| ensures b'.bids[i].price < b'.asks[j].price {
      var bid, ask := b'.bids[i], b'.asks[j];
      assert bid in b'.bids && ask in b'.asks;
      if isBid && bid.price != price {
        var n :| 0 <= n < |b.bids| && b.bids[n] == bid;
      } else if !isBid && ask.price != price {
        var n :| 0 <= n < |b.asks| && b.asks[n] == ask;
      }
    }
  }

  lemma RestUncrossed(m: Market, k: BookKey, isBid: bool, o: Resting)
    requires Uncrossed(m) && k in m.books
    requires forall p :: p in SideOf(m.books[k], !isBid) ==> !Crosses(!isBid, p.price, o.price)
    ensures Uncrossed(Rest(m, k, isBid, o))
  {
    hide UncrossedBook, InsertPos;
    var m' := Rest(m, k, isBid, o);
    UncrossedSide(m.books[k], m'.books[k], isBid, o.price);
  }

  lemma TotalAfterRest(w: Weight, m: Market, k: BookKey, isBid: bool, o: Resting)
    requires KeysListBooks(m) && k in m.books
    ensures Total(w, Rest(m, k, isBid, o)) == Total(w, m) + w(k, isBid, o)
  {
    hide InsertPos;
    var side := SideOf(m.books[k], isBid);
    var n := InsertPos(isBid, side, o.price);
    SideSumInsert(w, k, isBid, side, n, o);
    TotalWithSide(w, m, k, isBid, InsertAt(side, n, o));
  }

  lemma RestSolvent(m: Market, k: BookKey, isBid: bool, o: Resting)
    requires k in m.books && KeysListBooks(m) && Solvent(m, TakerFlight(k, !isBid, o.id, o.maker, o.price, o.qty))
    ensures Solvent(Rest(m, k, isBid, o), LANDED)
  {
    hide KeysListBooks, Escrow, KeysSum, InsertPos, InsertAt, WithSide;
    var m' := Rest(m, k, isBid, o);
    forall u, t ensures BalanceOf(m'.balances, u, t) >= Reserved(m', u, t) + HeldBack(LANDED, u, t) {
      TotalAfterRest(ReservedBy(u, t), m, k, isBid, o);
      assert BalanceOf(m.balances, u, t) >= Reserved(m, u, t)
        + HeldBack(TakerFlight(k, !isBid, o.id, o.maker, o.price, o.qty), u, t);
    }
  }

  lemma RestBalanced(m: Market, k: BookKey, isBid: bool, o: Resting, f: Flight)
    requires k in m.books && KeysListBooks(m) && Balanced(m, f) && f.id == o.id && f.left == o.qty
    ensures Balanced(Rest(m, k, isBid, o), LANDED)
  {
    hide KeysListBooks, KeysSum, InsertPos, InsertAt, WithSide, LogSum;
    var m' := Rest(m, k, isBid, o);
    forall id ensures LogSum(LedgerWeight(id), m'.log) == RestingQty(m', id) {
      TotalAfterRest(QtyOf(id), m, k, isBid, o);
      LogSumAppend(LedgerWeight(id), m.log, OrderPlaced(o.id, o.maker, k.base, k.quote, o.qty, o.price, isBid));
      assert LogSum(LedgerWeight(id), m.log) == RestingQty(m, id) + (if id == f.id then f.left else 0);
    }
  }

  /** What is left of a limit order rests with exactly the funds it was holding back. */
  lemma RestSound(m: Market, k: BookKey, isBid: bool, o: Resting)
    requires k in m.books && Sound(m, TakerFlight(k, !isBid, o.id, o.maker, o.price, o.qty))
    requires Live(isBid, o, m.nextId) && GoodSide(isBid, SideOf(m.books[k], isBid), o.id)
    requires forall p :: p in SideOf(m.books[k], !isBid) ==> !Crosses(!isBid, p.price, o.price)
    ensures Sound(Rest(m, k, isBid, o), LANDED)
  {
    hide GoodSide, Solvent, Balanced, Uncrossed, KeysListBooks, Rest;
    RestShape(m, k, isBid, o);
    RestUncrossed(m, k, isBid, o);
    RestSolvent(m, k, isBid, o);
    RestBalanced(m, k, isBid, o, TakerFlight(k, !isBid, o.id, o.maker, o.price, o.qty));
  }

  /** The market after the order at one position was withdrawn by its owner. */
  function Removed(m: Market, k: BookKey, isBid: bool, n: nat): (r: Market)
    requires k in m.books && n < |SideOf(m.books[k], isBid)|
  {
    var o := SideOf(m.books[k], isBid)[n];
    var m1 := WithSide(m, k, isBid, RemoveAt(SideOf(m.books[k], isBid), n));
    m1.(log := m1.log + [OrderCancelled(o.id, o.maker, o.qty, ByUser)])
  }

  lemma RemovedShape(m: Market, k: BookKey, isBid: bool, n: nat)
    requires Shape(m) && Uncrossed(m) && k in m.books && n < |SideOf(m.books[k], isBid)|
    ensures Shape(Removed(m, k, isBid, n)) && Uncrossed(Removed(m, k, isBid, n))
  {
    var side := SideOf(m.books[k], isBid);
    var s := RemoveAt(side, n);
    assert GoodSide(isBid, s, m.nextId) by {
      assert forall i :: 0 <= i < |s| ==> s[i] == side[if i < n then i else i + 1];
    }
    assert forall i :: 0 <= i < |s| ==> s[i] in side;
    ShapeReplace(m, k, isBid, s);
    UncrossedReplace(m, k, isBid, s);
  }

  lemma TotalAfterRemoval(w: Weight, m: Market, k: BookKey, isBid: bool, n: nat)
    requires KeysListBooks(m) && k in m.books && n < |SideOf(m.books[k], isBid)|
    ensures Total(w, Removed(m, k, isBid, n)) + w(k, isBid, SideOf(m.books[k], isBid)[n]) == Total(w, m)
  {
    var side := SideOf(m.books[k], isBid);
    SideSumRemove(w, k, isBid, side, n);
    TotalWithSide(w, m, k, isBid, RemoveAt(side, n));
  }

  lemma RemovedSolvent(m: Market, k: BookKey, isBid: bool, n: nat)
    requires k in m.books && KeysListBooks(m) && n < |SideOf(m.books[k], isBid)| && Solvent(m, LANDED)
    ensures Solvent(Removed(m, k, isBid, n), LANDED)
  {
    hide KeysListBooks, Escrow, KeysSum, RemoveAt, WithSide;
    var m' := Removed(m, k, isBid, n);
    forall u, t ensures BalanceOf(m'.balances, u, t) >= Reserved(m', u, t) + HeldBack(LANDED, u, t) {
      TotalAfterRemoval(ReservedBy(u, t), m, k, isBid, n);
      assert BalanceOf(m.balances, u, t) >= Reserved(m, u, t) + HeldBack(LANDED, u, t);
    }
  }

  lemma RemovedBalanced(m: Market, k: BookKey, isBid: bool, n: nat)
    requires k in m.books && KeysListBooks(m) && n < |SideOf(m.books[k], isBid)| && Balanced(m, LANDED)
    ensures Balanced(Removed(m, k, isBid, n), LANDED)
  {
    hide KeysListBooks, KeysSum, RemoveAt, WithSide, LogSum;
    var m' := Removed(m, k, isBid, n);
    var o := SideOf(m.books[k], isBid)[n];
    forall id ensures LogSum(LedgerWeight(id), m'.log) == RestingQty(m', id) {
      TotalAfterRemoval(QtyOf(id), m, k, isBid, n);
      LogSumAppend(LedgerWeight(id), m.log, OrderCancelled(o.id, o.maker, o.qty, ByUser));
      assert LogSum(LedgerWeight(id), m.log) == RestingQty(m, id) + (if id == LANDED.id then LANDED.left else 0);
    }
  }

  /** Cancelling releases the order's reservation and balances its ledger. */
  lemma RemoveSound(m: Market, k: BookKey, isBid: bool, n: nat)
    requires k in m.books && Sound(m, LANDED) && n < |SideOf(m.books[k], isBid)|
    ensures Sound(Removed(m, k, isBid, n), LANDED)
  {
    hide GoodSide, Solvent, Balanced, Uncrossed, KeysListBooks, Removed;
    RemovedShape(m, k, isBid, n);
    RemovedSolvent(m, k, isBid, n);
    RemovedBalanced(m, k, isBid, n);
  }
}
