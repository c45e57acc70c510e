/**
  The darkpool precompile: contract storage updated in place. Every method is proved against
  the market operation of the same step; a failed call is rolled back as a whole.
 */
module Darkpool {
  import opened Prelude
  import opened FixedPoint
  import opened OrderBook
  import opened Soundness
  import opened Safety
  import opened LinkedBook

  /** Contract storage, the token contracts' holdings and the emitted events. */
  datatype Storage = Storage(orders: Orders, books: Metas, balances: Balances, nextOrderId: nat, bookKeys: seq<BookKey>,
                             wallets: Wallets, log: seq<Event>)

  /** Arithmetic failures are one and the same error to a caller. */
  predicate SameFailure(e: Error, f: Error) {
    e == f || (e.Arithmetic? && f.Arithmetic?)
  }

  class DarkpoolOrderbook {
    var orders: Orders
    var books: Metas
    var balances: Balances
    var nextOrderId: nat
    var bookKeys: seq<BookKey>
    var wallets: Wallets
    var log: seq<Event>
    ghost var market: Market
    ghost var history: seq<Step>

    /** Storage stands for the market. */
    ghost predicate Linked()
      reads this
    {
      && ListsRep(orders, books, market.books)
      && bookKeys == market.keys && balances == market.balances && wallets == market.wallets && log == market.log
      && market.nextId == (if nextOrderId == 0 then 1 else nextOrderId)
    }

    ghost predicate Valid()
      reads this
    {
      Linked() && Sound(market, LANDED)
    }

    /** The market is the one its history of calls leads to, so all that holds of runs holds of it. */
    ghost predicate Reached()
      reads this
    {
      Valid() && market == Run(history)
    }

    constructor ()
      ensures Reached() && market == GENESIS
    {
      orders, books, balances, nextOrderId, bookKeys, wallets, log := map[], map[], map[], 0, [], map[], [];
      market, history := GENESIS, [];
      new;
      RunSound([]);
    }

    // ---- linked lists --------------------------------------------------------------------

    method RemoveOrder(k: BookKey, order: Order)
      modifies this`orders, this`books
      ensures orders == Unlink(old(orders), order)
      ensures books == if order.prev != 0 then old(books)
                       else old(books)[k := WithHead(ReadBook(old(books), k), order.isBid, order.next)]
    {
      if order.prev != 0 {
        var prev := ReadOrder(orders, order.prev);
        orders := orders[order.prev := prev.(next := order.next)];
      } else {
        var meta := ReadBook(books, k);
        books := books[k := WithHead(meta, order.isBid, order.next)];
      }
      if order.next != 0 {
        var next := ReadOrder(orders, order.next);
        orders := orders[order.next := next.(prev := order.prev)];
      }
      orders := orders - {order.orderId};
    }

    /** Walk past every order at least as good: to the first one beaten, or else to the last. */
    method FindPlace(headId: nat, isBid: bool, price: u128, ghost k: BookKey, ghost side: seq<Resting>)
      returns (found: bool, current: Order)
      requires SideRep(orders, headId, k, isBid, side) && headId != 0
      ensures var n := InsertPos(isBid, side, price);
              && side != []
              && (found <==> n < |side|)
              && current == NodeOf(k, isBid, side, if n < |side| then n else |side| - 1)
    {
      hide SideRep;
      NodeAt(orders, headId, k, isBid, side, 0);
      var currentId := headId;
      current := ReadOrder(orders, currentId);
      ghost var n := 0;
      while !Beats(isBid, price, current.price) && current.next != 0
        invariant n < |side| && currentId == side[n].id && current == NodeOf(k, isBid, side, n)
        invariant forall i :: 0 <= i < n ==> !Beats(isBid, price, side[i].price)
        decreases |side| - n
      {
        NodeAt(orders, headId, k, isBid, side, n + 1);
        currentId := current.next;
        current := ReadOrder(orders, currentId);
        n := n + 1;
      }
      NodeAt(orders, headId, k, isBid, side, n + 1);
      found := Beats(isBid, price, current.price);
    }

    /** Link the new order in where the walk ended. */
    method InsertOrder(k: BookKey, o: Resting, isBid: bool)
      requires ListsRep(orders, books, market.books) && k in market.books && o.id != 0 && o.id !in orders
      modifies this`orders, this`books
      ensures var side := SideOf(market.books[k], isBid);
              ListsRep(orders, books, WithSide(market, k, isBid,
                InsertAt(side, InsertPos(isBid, side, o.price), o)).books)
    {
      hide ListsRep, InsertPos, WithSide, SideRep;
      ghost var side := SideOf(market.books[k], isBid);
      ghost var n := InsertPos(isBid, side, o.price);
      SideOfBook(orders, books, market.books, k, isBid);
      ListsInsert(orders, books, market, k, isBid, n, o);
      var headId := Head(ReadBook(books, k), isBid);
      NodeAt(orders, headId, k, isBid, side, n);
      var order := Order(o.id, o.maker, k, isBid, o.price, o.qty, 0, 0);
      if headId == 0 {
        orders := orders[o.id := order];
        books := books[k := WithHead(ReadBook(books, k), isBid, o.id)];
      } else {
        var found, current := FindPlace(headId, isBid, o.price, k, side);
        var at := current.orderId;
        if found {
          order := order.(prev := current.prev, next := at);
          orders := orders[o.id := order];
          if current.prev == 0 {
            books := books[k := WithHead(ReadBook(books, k), isBid, o.id)];
          } else {
            var prev := ReadOrder(orders, current.prev);
            orders := orders[current.prev := prev.(next := o.id)];
          }
          var cur := ReadOrder(orders, at);
          orders := orders[at := cur.(prev := o.id)];
        } else {
          order := order.(prev := at);
          orders := orders[o.id := order];
          var last := ReadOrder(orders, at);
          orders := orders[at := last.(next := o.id)];
        }
      }
    }

    // ---- balances ------------------------------------------------------------------------

    method IncrementBalance(user: Address, token: Address, amount: u128) returns (r: Result<(), Error>)
      modifies this`balances
      ensures match Credit(old(balances), user, token, amount)
              case Ok(b) => r == Ok(()) && balances == b
              case Err(e) => r == Err(e)
    {
      var cur := BalanceOf(balances, user, token);
      if cur + amount > U128_MAX {
        return Err(Arithmetic(Overflow));
      }
      balances := balances[(user, token) := cur + amount];
      return Ok(());
    }

    method DecrementBalance(user: Address, token: Address, amount: u128) returns (r: Result<(), Error>)
      modifies this`balances
      ensures match Debit(old(balances), user, token, amount)
              case Ok(b) => r == Ok(()) && balances == b
              case Err(e) => r == Err(e)
    {
      var cur := BalanceOf(balances, user, token);
      if cur < amount {
        return Err(Arithmetic(Underflow));
      }
      balances := balances[(user, token) := cur - amount];
      return Ok(());
    }

    /** Walk one list and add up what it holds back from a user. */
    method AccumulateReservedSide(headId: nat, user: Address, token: Address, isBid: bool, reservedToken: Address,
                                  start: u128, ghost k: BookKey, ghost side: seq<Resting>, ghost nextId: nat)
      returns (r: Result<u128, Error>)
      requires SideRep(orders, headId, k, isBid, side) && GoodSide(isBid, side, nextId)
               && reservedToken == GivenToken(k, isBid)
      ensures var total := start + SideSum(ReservedBy(user, token), k, isBid, side);
              r == if total <= U128_MAX then Ok(total) else Err(Arithmetic(Overflow))
    {
      hide SideRep, Escrow;
      if token != reservedToken {
        NothingReserved(user, token, k, isBid, side);
        return Ok(start);
      }
      var reserved: u128 := start;
      var id := headId;
      ghost var n := 0;
      NodeAt(orders, headId, k, isBid, side, 0);
      while id != 0
        invariant n <= |side| && id == IdAt(side, n)
        invariant reserved + SideSum(ReservedBy(user, token), k, isBid, side[n..]) == start
                  + SideSum(ReservedBy(user, token), k, isBid, side)
        decreases |side| - n
      {
        NodeAt(orders, headId, k, isBid, side, n);
        NodeAt(orders, headId, k, isBid, side, n + 1);
        assert Live(isBid, side[n], nextId);
        assert side[n..][1..] == side[n + 1..];
        var order := ReadOrder(orders, id);
        if order.maker == user {
          var amount: u128 := order.quantity;
          if isBid {
            EscrowIsReservation(side[n]);
            amount := BidEscrow(order.quantity, order.price).value;
          }
          if reserved + amount > U128_MAX {
            return Err(Arithmetic(Overflow));
          }
          reserved := reserved + amount;
        }
        id := order.next;
        n := n + 1;
      }
      NodeAt(orders, headId, k, isBid, side, n);
      return Ok(reserved);
    }

    /** Nothing is stored about reservations: every list of every book is walked. */
    method ReservedBalanceOf(user: Address, token: Address) returns (r: Result<u128, Error>)
      requires Linked() && Shape(market)
      ensures var total := Reserved(market, user, token);
              r == if total <= U128_MAX then Ok(total) else Err(Arithmetic(Overflow))
    {
      ghost var w := ReservedBy(user, token);
      hide ListsRep, GoodSide, SideRep, SideSum, ReservedBy;
      var reserved: u128 := 0;
      var i := 0;
      while i < |bookKeys|
        invariant i <= |bookKeys|
        invariant reserved + KeysSum(w, bookKeys[i..], market.books) == Reserved(market, user, token)
      {
        var k := bookKeys[i];
        assert k in market.keys && k in market.books;
        assert bookKeys[i..][1..] == bookKeys[i + 1..];
        SideOfBook(orders, books, market.books, k, true);
        SideOfBook(orders, books, market.books, k, false);
        TokensOfBook(orders, books, market.books, k);
        var book := ReadBook(books, k);
        reserved :- AccumulateReservedSide(book.bestBid, user, token, true, book.quote, reserved, k,
          market.books[k].bids, market.nextId);
        reserved :- AccumulateReservedSide(book.bestAsk, user, token, false, book.base, reserved, k,
          market.books[k].asks, market.nextId);
        i := i + 1;
      }
      return Ok(reserved);
    }

    method AvailableBalanceOf(user: Address, token: Address) returns (r: Result<u128, Error>)
      requires Linked() && Shape(market)
      ensures r == Available(market, user, token)
    {
      hide ListsRep, Shape, Reserved;
      var balance := BalanceOf(balances, user, token);
      var reserved :- ReservedBalanceOf(user, token);
      return Ok(if balance >= reserved then balance - reserved else 0);
    }

    method EnsureInternalBalance(rules: Tip20, user: Address, token: Address, required: u128)
      returns (r: Result<(), Error>)
      requires Linked() && Shape(market)
      modifies this`balances, this`wallets, this`market
      ensures match EnsureBalance(rules, old(market), user, token, required)
              case Ok(m) => r == Ok(()) && market == m && Linked()
              case Err(e) => r == Err(e)
    {
      hide ListsRep, Shape, Available, Transfer, Credit;
      var available :- AvailableBalanceOf(user, token);
      if available >= required {
        return Ok(());
      }
      var missing := required - available;
      wallets :- Transfer(rules, wallets, token, user, user, DARKPOOL_ADDRESS, missing);
      var _ :- IncrementBalance(user, token, missing);
      market := market.(wallets := wallets, balances := balances);
      return Ok(());
    }

    method ValidateOrCreatePair(rules: Tip20, base: Address, quote: Address) returns (r: Result<BookKey, Error>)
      requires Linked()
      modifies this`books, this`bookKeys, this`market
      ensures match OpenPair(rules, old(market), base, quote)
              case Ok(m) => r == Ok(BookKey(base, quote)) && market == m && Linked()
                && BookKey(base, quote) in market.books
              case Err(e) => r == Err(e)
    {
      if base !in rules.tokens || quote !in rules.tokens {
        return Err(NotATip20);
      }
      var k := BookKey(base, quote);
      var book := ReadBook(books, k);
      PresentBook(orders, books, market.books, k);
      if book.base == ZERO_ADDRESS {
        hide ListsRep;
        ListsOpen(orders, books, market.books, k);
        books := books[k := BookMeta(base, quote, 0, 0)];
        bookKeys := bookKeys + [k];
        market := AddBook(market, k);
      }
      return Ok(k);
    }

    // ---- matching ------------------------------------------------------------------------

    /** The four balance writes of a fill. */
    method SwapBalances(taker: Address, maker: Address, paid: Address, payment: u128, bought: Address, amount: u128)
      returns (r: Result<(), Error>)
      modifies this`balances
      ensures match Swap(old(balances), taker, maker, paid, payment, bought, amount)
              case Ok(b) => r == Ok(()) && balances == b
              case Err(e) => r == Err(e)
    {
      hide Debit, Credit;
      var _ :- DecrementBalance(taker, paid, payment);
      var _ :- IncrementBalance(taker, bought, amount);
      var _ :- DecrementBalance(maker, bought, amount);
      var _ :- IncrementBalance(maker, paid, payment);
      return Ok(());
    }

    /** Take a fill off the best order, which leaves the list when nothing of it is left. */
    method TakeFromBest(k: BookKey, isBid: bool, best: Order, fill: u128)
      requires ListsRep(orders, books, market.books) && k in market.books && SideOf(market.books[k], isBid) != []
      requires best == NodeOf(k, isBid, SideOf(market.books[k], isBid), 0) && fill <= best.quantity
      modifies this`orders, this`books
      ensures ListsRep(orders, books, WithSide(market, k, isBid, AfterFill(SideOf(market.books[k], isBid), fill)).books)
      ensures orders.Keys <= old(orders.Keys)
    {
      hide ListsRep, SideRep;
      ghost var side := SideOf(market.books[k], isBid);
      SideOfBook(orders, books, market.books, k, isBid);
      NodeAt(orders, Head(books[k], isBid), k, isBid, side, 0);
      NodeAt(orders, Head(books[k], isBid), k, isBid, side, 1);
      if fill == best.quantity {
        assert RemoveAt(side, 0) == side[1..];
        ListsRemove(orders, books, market, k, isBid, 0);
        RemoveOrder(k, best);
      } else {
        ListsReduce(orders, books, market, k, isBid, fill);
        orders := orders[best.orderId := best.(quantity := best.quantity - fill)];
      }
    }

    /** The body the four crossing loops share: one fill against the best order of a side. */
    method FillBestOrder(k: BookKey, makerIsBid: bool, takerId: nat, taker: Address, want: u128)
      returns (r: Result<(u128, u128), Error>)
      requires Linked() && k in market.books && SideOf(market.books[k], makerIsBid) != []
      modifies this`orders, this`books, this`balances, this`log, this`market
      ensures match FillBest(old(market), k, makerIsBid, takerId, taker, want)
              case Ok(f) => r == Ok((f.amount, f.quote)) && market == f.market && Linked()
              case Err(e) => r == Err(e)
      ensures orders.Keys <= old(orders.Keys)
    {
      hide ListsRep, SideRep, QuoteAmount, Swap, AfterFill, WithSide;
      SideOfBook(orders, books, market.books, k, makerIsBid);
      var bestId := Head(ReadBook(books, k), makerIsBid);
      BestNode(orders, bestId, k, makerIsBid, SideOf(market.books[k], makerIsBid));
      var best := ReadOrder(orders, bestId);
      var fill: u128 := Min(want, best.quantity);
      var quote := QuoteAmount(fill, best.price);
      if quote.None? {
        return Err(Arithmetic(QuoteOutOfRange));
      }
      if makerIsBid {
        var _ :- SwapBalances(taker, best.maker, k.base, fill, k.quote, quote.value);
      } else {
        var _ :- SwapBalances(taker, best.maker, k.quote, quote.value, k.base, fill);
      }
      log := log + [OrderFilled(best.orderId, best.maker, taker, takerId, fill, best.price)];
      TakeFromBest(k, makerIsBid, best, fill);
      market := Booked(market, k, makerIsBid, takerId, taker, fill, quote.value, balances);
      return Ok((fill, quote.value));
    }

    // ---- crossing loops ------------------------------------------------------------------

    method CrossAsks(k: BookKey, takerId: nat, taker: Address, bidPrice: u128, amount: u128)
      returns (r: Result<u128, Error>)
      requires Linked() && k in market.books && GoodSide(false, market.books[k].asks, market.nextId)
      modifies this`orders, this`books, this`balances, this`log, this`market
      ensures match Cross(old(market), k, false, takerId, taker, bidPrice, amount)
              case Ok(c) => r == Ok(c.left) && market == c.market && Linked()
              case Err(e) => r == Err(e)
      ensures orders.Keys <= old(orders.Keys)
    {
      hide ListsRep, SideRep, GoodSide, FillBest, Cross;
      ghost var whole := Cross(market, k, false, takerId, taker, bidPrice, amount);
      ghost var moved: nat := 0;
      var remaining := amount;
      while remaining != 0
        invariant Linked() && k in market.books && GoodSide(false, market.books[k].asks, market.nextId)
        invariant orders.Keys <= old(orders.Keys)
        invariant Continues(whole, Cross(market, k, false, takerId, taker, bidPrice, remaining), moved)
      {
        SideOfBook(orders, books, market.books, k, false);
        var book := ReadBook(books, k);
        BestNode(orders, book.bestAsk, k, false, market.books[k].asks);
        if book.bestAsk == 0 {
          break;
        }
        var ask := ReadOrder(orders, book.bestAsk);
        if ask.price > bidPrice {
          break;
        }
        TurnOfLoop(whole, market, k, false, takerId, taker, bidPrice, remaining, moved);
        var filled :- FillBestOrder(k, false, takerId, taker, remaining);
        remaining := remaining - filled.0;
        moved := moved + filled.1;
      }
      CrossEnds(market, k, false, takerId, taker, bidPrice, remaining);
      return Ok(remaining);
    }

    method CrossBids(k: BookKey, takerId: nat, taker: Address, askPrice: u128, amount: u128)
      returns (r: Result<u128, Error>)
      requires Linked() && k in market.books && GoodSide(true, market.books[k].bids, market.nextId)
      modifies this`orders, this`books, this`balances, this`log, this`market
      ensures match Cross(old(market), k, true, takerId, taker, askPrice, amount)
              case Ok(c) => r == Ok(c.left) && market == c.market && Linked()
              case Err(e) => r == Err(e)
      ensures orders.Keys <= old(orders.Keys)
    {
      hide ListsRep, SideRep, GoodSide, FillBest, Cross;
      ghost var whole := Cross(market, k, true, takerId, taker, askPrice, amount);
      ghost var moved: nat := 0;
      var remaining := amount;
      while remaining != 0
        invariant Linked() && k in market.books && GoodSide(true, market.books[k].bids, market.nextId)
        invariant orders.Keys <= old(orders.Keys)
        invariant Continues(whole, Cross(market, k, true, takerId, taker, askPrice, remaining), moved)
      {
        SideOfBook(orders, books, market.books, k, true);
        var book := ReadBook(books, k);
        BestNode(orders, book.bestBid, k, true, market.books[k].bids);
        if book.bestBid == 0 {
          break;
        }
        var bid := ReadOrder(orders, book.bestBid);
        if bid.price < askPrice {
          break;
        }
        TurnOfLoop(whole, market, k, true, takerId, taker, askPrice, remaining, moved);
        var filled :- FillBestOrder(k, true, takerId, taker, remaining);
        remaining := remaining - filled.0;
        moved := moved + filled.1;
      }
      CrossEnds(market, k, true, takerId, taker, askPrice, remaining);
      return Ok(remaining);
    }

    method FillAsksMarket(k: BookKey, takerId: nat, taker: Address, amount: u128, maxPrice: u128)
      returns (r: Result<(u128, u128), Error>)
      requires Linked() && k in market.books && GoodSide(false, market.books[k].asks, market.nextId)
      modifies this`orders, this`books, this`balances, this`log, this`market
      ensures match Cross(old(market), k, false, takerId, taker, maxPrice, amount)
              case Ok(c) =>
                if c.quote <= U128_MAX then r == Ok((amount - c.left, c.quote)) && market == c.market && Linked()
                else r == Err(Arithmetic(Overflow))
              case Err(_) => r.Err? && r.error.Arithmetic?
    {
      hide ListsRep, SideRep, GoodSide, FillBest, Cross;
      ghost var whole := Cross(market, k, false, takerId, taker, maxPrice, amount);
      var remaining := amount;
      var spent: u128, filled: u128 := 0, 0;
      while remaining != 0
        invariant Linked() && k in market.books && GoodSide(false, market.books[k].asks, market.nextId)
        invariant filled + remaining == amount
        invariant Continues(whole, Cross(market, k, false, takerId, taker, maxPrice, remaining), spent)
      {
        SideOfBook(orders, books, market.books, k, false);
        var book := ReadBook(books, k);
        BestNode(orders, book.bestAsk, k, false, market.books[k].asks);
        if book.bestAsk == 0 {
          break;
        }
        var ask := ReadOrder(orders, book.bestAsk);
        if ask.price > maxPrice {
          break;
        }
        TurnOfLoop(whole, market, k, false, takerId, taker, maxPrice, remaining, spent);
        var f :- FillBestOrder(k, false, takerId, taker, remaining);
        if spent + f.1 > U128_MAX {
          return Err(Arithmetic(Overflow));
        }
        spent := spent + f.1;
        remaining := remaining - f.0;
        filled := filled + f.0;
      }
      CrossEnds(market, k, false, takerId, taker, maxPrice, remaining);
      return Ok((filled, spent));
    }

    method FillBidsMarket(k: BookKey, takerId: nat, taker: Address, amount: u128, minPrice: u128)
      returns (r: Result<(u128, u128), Error>)
      requires Linked() && k in market.books && GoodSide(true, market.books[k].bids, market.nextId)
      modifies this`orders, this`books, this`balances, this`log, this`market
      ensures match Cross(old(market), k, true, takerId, taker, minPrice, amount)
              case Ok(c) =>
                if c.quote <= U128_MAX then r == Ok((amount - c.left, c.quote)) && market == c.market && Linked()
                else r == Err(Arithmetic(Overflow))
              case Err(_) => r.Err? && r.error.Arithmetic?
    {
      hide ListsRep, SideRep, GoodSide, FillBest, Cross;
      ghost var whole := Cross(market, k, true, takerId, taker, minPrice, amount);
      var remaining := amount;
      var received: u128, filled: u128 := 0, 0;
      while remaining != 0
        invariant Linked() && k in market.books && GoodSide(true, market.books[k].bids, market.nextId)
        invariant filled + remaining == amount
        invariant Continues(whole, Cross(market, k, true, takerId, taker, minPrice, remaining), received)
      {
        SideOfBook(orders, books, market.books, k, true);
        var book := ReadBook(books, k);
        BestNode(orders, book.bestBid, k, true, market.books[k].bids);
        if book.bestBid == 0 {
          break;
        }
        var bid := ReadOrder(orders, book.bestBid);
        if bid.price < minPrice {
          break;
        }
        TurnOfLoop(whole, market, k, true, takerId, taker, minPrice, remaining, received);
        var f :- FillBestOrder(k, true, takerId, taker, remaining);
        if received + f.1 > U128_MAX {
          return Err(Arithmetic(Overflow));
        }
        received := received + f.1;
        remaining := remaining - f.0;
        filled := filled + f.0;
      }
      CrossEnds(market, k, true, takerId, taker, minPrice, remaining);
      return Ok((filled, received));
    }

    // ---- calls ---------------------------------------------------------------------------

    /** The next order id: ids start at one. */
    method TakeOrderId() returns (id: nat)
      requires Linked()
      modifies this`nextOrderId, this`market
      ensures Linked() && id == old(market).nextId && market == old(market).(nextId := id + 1)
    {
      id := if nextOrderId == 0 then 1 else nextOrderId;
      nextOrderId := id + 1;
      market := market.(nextId := id + 1);
    }

    method Emit(e: Event)
      requires Linked()
      modifies this`log, this`market
      ensures Linked() && market == old(market).(log := old(market).log + [e])
    {
      log := log + [e];
      market := market.(log := log);
    }

    /** The part limit and market orders share once the pair is open: secure the funds, announce the order. */
    method Announce(rules: Tip20, sender: Address, k: BookKey, need: u128, isBid: bool, submitted: nat -> Event)
      returns (r: Result<nat, Error>)
      requires Valid() && k in market.books && forall id :: submitted(id).OrderSubmitted?
      modifies this`orders, this`books, this`balances, this`nextOrderId, this`bookKeys, this`wallets, this`log,
               this`market
      ensures match EnsureBalance(rules, old(market), sender, GivenToken(k, isBid), need)
              case Err(e) => r == Err(e)
              case Ok(m2) =>
                && r == Ok(m2.nextId) && market == Submit(m2, submitted(m2.nextId)) && Linked()
                && Shape(market) && k in market.books && m2.nextId !in orders && 0 < m2.nextId
    {
      hide ListsRep, EnsureBalance, Sound;
      EnsureBalanceSound(rules, market, sender, GivenToken(k, isBid), need);
      SoundShape(market, LANDED);
      var _ :- EnsureInternalBalance(rules, sender, GivenToken(k, isBid), need);
      SoundShape(market, LANDED.(user := sender, token := GivenToken(k, isBid), need := need));
      FreshId(orders, books, market);
      SubmitShape(market, submitted(market.nextId));
      var id := TakeOrderId();
      Emit(submitted(id));
      return Ok(id);
    }

    /** Cross the opposite side, then rest what is left. */
    method CrossAndRest(k: BookKey, id: nat, sender: Address, price: u128, amount: u128, isBid: bool)
      returns (r: Result<(), Error>)
      requires Linked() && k in market.books && Shape(market) && id != 0 && id !in orders
      modifies this`orders, this`books, this`balances, this`nextOrderId, this`bookKeys, this`wallets, this`log,
               this`market
      ensures match Cross(old(market), k, !isBid, id, sender, price, amount)
              case Ok(c) =>
                && r == Ok(()) && Linked()
                && market == (if c.left == 0 then c.market
                  else Rest(c.market, k, isBid, Resting(id, sender, price, c.left)))
              case Err(e) => r == Err(e)
    {
      hide ListsRep, Cross, Shape, GoodSide, InsertPos, InsertAt;
      ShapeSide(market, k, !isBid);
      var remaining: u128;
      if isBid {
        remaining :- CrossAsks(k, id, sender, price, amount);
      } else {
        remaining :- CrossBids(k, id, sender, price, amount);
      }
      if remaining > 0 {
        InsertOrder(k, Resting(id, sender, price, remaining), isBid);
        log := log + [OrderPlaced(id, sender, k.base, k.quote, remaining, price, isBid)];
        market := Rest(market, k, isBid, Resting(id, sender, price, remaining));
      }
      return Ok(());
    }

    method Place(rules: Tip20, sender: Address, base: Address, quote: Address, amount: u128, price: u128, isBid: bool,
                 timeInForce: nat)
      returns (r: Result<Output, Error>)
      requires Valid()
      modifies this`orders, this`books, this`balances, this`nextOrderId, this`bookKeys, this`wallets, this`log,
               this`market
      ensures match CallPlace(rules, old(market), sender, base, quote, amount, price, isBid, timeInForce)
              case Ok(o) => r == Ok(o.output) && market == o.market && Valid()
              case Err(e) => r == Err(e)
    {
      hide ListsRep, OpenPair, EnsureBalance, Sound, Cross, QuoteAmount, BidEscrow, Shape, Rest, GivenToken;
      if timeInForce != TIME_IN_FORCE_GTC {
        return Err(InvalidTimeInForce);
      }
      if base == quote {
        return Err(InvalidToken);
      }
      if amount < MIN_ORDER_AMOUNT {
        return Err(AmountBelowMinimum);
      }
      if price == 0 || QuoteAmount(amount, price).None? {
        return Err(PriceOutOfRange);
      }
      PlaceSound(rules, market, sender, base, quote, amount, price, isBid, timeInForce);
      OpenPairSound(rules, market, base, quote);
      var k :- ValidateOrCreatePair(rules, base, quote);
      var need := amount;
      if isBid {
        var escrow := BidEscrow(amount, price);
        if escrow.None? {
          return Err(PriceOutOfRange);
        }
        need := escrow.value;
      }
      var id :- Announce(rules, sender, k, need, isBid,
                         (id: nat) => OrderSubmitted(id, sender, base, quote, amount, price, isBid, Limit,
                           timeInForce));
      var _ :- CrossAndRest(k, id, sender, price, amount, isBid);
      return Ok(Placed(id));
    }

    method MarketBuy(rules: Tip20, sender: Address, base: Address, quote: Address, amount: u128, maxPrice: u128,
                     timeInForce: nat)
      returns (r: Result<Output, Error>)
      requires Valid()
      modifies this`orders, this`books, this`balances, this`nextOrderId, this`bookKeys, this`wallets, this`log,
               this`market
      ensures match CallMarketOrder(rules, old(market), sender, base, quote, amount, maxPrice, true, timeInForce)
              case Ok(o) => r == Ok(o.output) && market == o.market && Valid()
              case Err(e) => r.Err? && SameFailure(r.error, e)
    {
      hide ListsRep, OpenPair, EnsureBalance, Sound, Cross, BidEscrow, Shape, GoodSide;
      if timeInForce != TIME_IN_FORCE_IOC && timeInForce != TIME_IN_FORCE_FOK {
        return Err(InvalidTimeInForce);
      }
      if base == quote {
        return Err(InvalidToken);
      }
      if amount < MIN_ORDER_AMOUNT {
        return Err(AmountBelowMinimum);
      }
      var maxQuoteIn := BidEscrow(amount, maxPrice);
      if maxQuoteIn.None? {
        return Err(PriceOutOfRange);
      }
      MarketOrderSound(rules, market, sender, base, quote, amount, maxPrice, true, timeInForce);
      OpenPairSound(rules, market, base, quote);
      var k :- ValidateOrCreatePair(rules, base, quote);
      var id :- Announce(rules, sender, k, maxQuoteIn.value, true,
                         (id: nat) => OrderSubmitted(id, sender, base, quote, amount, maxPrice, true, AtMarket,
                           timeInForce));
      ShapeSide(market, k, false);
      var filled :- FillAsksMarket(k, id, sender, amount, maxPrice);
      if filled.0 < amount && timeInForce == TIME_IN_FORCE_FOK {
        return Err(InsufficientLiquidity);
      }
      if filled.0 < amount {
        Emit(OrderCancelled(id, sender, amount - filled.0, IocRemainder));
      }
      return Ok(Traded(id, filled.0, filled.1));
    }

    method MarketSell(rules: Tip20, sender: Address, base: Address, quote: Address, amount: u128, minPrice: u128,
                      timeInForce: nat)
      returns (r: Result<Output, Error>)
      requires Valid()
      modifies this`orders, this`books, this`balances, this`nextOrderId, this`bookKeys, this`wallets, this`log,
               this`market
      ensures match CallMarketOrder(rules, old(market), sender, base, quote, amount, minPrice, false, timeInForce)
              case Ok(o) => r == Ok(o.output) && market == o.market && Valid()
              case Err(e) => r.Err? && SameFailure(r.error, e)
    {
      hide ListsRep, OpenPair, EnsureBalance, Sound, Cross, QuoteAmount, BidEscrow, Shape, GoodSide;
      if timeInForce != TIME_IN_FORCE_IOC && timeInForce != TIME_IN_FORCE_FOK {
        return Err(InvalidTimeInForce);
      }
      if base == quote {
        return Err(InvalidToken);
      }
      if amount < MIN_ORDER_AMOUNT {
        return Err(AmountBelowMinimum);
      }
      if minPrice != 0 && QuoteAmount(amount, minPrice).None? {
        return Err(PriceOutOfRange);
      }
      MarketOrderSound(rules, market, sender, base, quote, amount, minPrice, false, timeInForce);
      OpenPairSound(rules, market, base, quote);
      var k :- ValidateOrCreatePair(rules, base, quote);
      var id :- Announce(rules, sender, k, amount, false,
                         (id: nat) => OrderSubmitted(id, sender, base, quote, amount, minPrice, false, AtMarket,
                           timeInForce));
      ShapeSide(market, k, true);
      var filled :- FillBidsMarket(k, id, sender, amount, minPrice);
      if filled.0 < amount && timeInForce == TIME_IN_FORCE_FOK {
        return Err(InsufficientLiquidity);
      }
      if filled.0 < amount {
        Emit(OrderCancelled(id, sender, amount - filled.0, IocRemainder));
      }
      return Ok(Traded(id, filled.0, filled.1));
    }

    method CreateNewPair(rules: Tip20, base: Address, quote: Address) returns (r: Result<Output, Error>)
      requires Linked()
      modifies this`books, this`bookKeys, this`market
      ensures match CallCreatePair(rules, old(market), base, quote)
              case Ok(o) => r == Ok(o.output) && market == o.market && Linked()
              case Err(e) => r == Err(e)
    {
      if base == quote {
        return Err(InvalidToken);
      }
      if base !in rules.tokens || quote !in rules.tokens {
        return Err(NotATip20);
      }
      var k := BookKey(base, quote);
      PresentBook(orders, books, market.books, k);
      if ReadBook(books, k).base != ZERO_ADDRESS {
        return Err(PairAlreadyExists);
      }
      ListsOpen(orders, books, market.books, k);
      hide ListsRep;
      books := books[k := BookMeta(base, quote, 0, 0)];
      bookKeys := bookKeys + [k];
      market := AddBook(market, k);
      return Ok(PairKey(k));
    }

    method DepositTokens(rules: Tip20, sender: Address, token: Address, amount: u128) returns (r: Result<Output, Error>)
      requires Linked()
      modifies this`balances, this`wallets, this`market
      ensures match CallDeposit(rules, old(market), sender, token, amount)
              case Ok(o) => r == Ok(o.output) && market == o.market && Linked()
              case Err(e) => r == Err(e)
    {
      hide ListsRep, Transfer, Credit;
      wallets :- Transfer(rules, wallets, token, sender, sender, DARKPOOL_ADDRESS, amount);
      var _ :- IncrementBalance(sender, token, amount);
      market := market.(wallets := wallets, balances := balances);
      return Ok(Done);
    }

    method WithdrawTokens(rules: Tip20, sender: Address, token: Address, amount: u128)
      returns (r: Result<Output, Error>)
      requires Linked() && Shape(market)
      modifies this`balances, this`wallets, this`market
      ensures match CallWithdraw(rules, old(market), sender, token, amount)
              case Ok(o) => r == Ok(o.output) && market == o.market && Linked()
              case Err(e) => r == Err(e)
    {
      hide ListsRep, Shape, Transfer, Debit, Available;
      var available :- AvailableBalanceOf(sender, token);
      if available < amount {
        return Err(InsufficientBalance);
      }
      var _ :- DecrementBalance(sender, token, amount);
      wallets :- Transfer(rules, wallets, token, sender, DARKPOOL_ADDRESS, sender, amount);
      market := market.(wallets := wallets, balances := balances);
      return Ok(Done);
    }

    method CancelOrder(sender: Address, id: nat) returns (r: Result<Output, Error>)
      requires Linked() && Shape(market)
      modifies this`orders, this`books, this`log, this`market
      ensures match CallCancel(old(market), sender, id)
              case Ok(o) => r == Ok(o.output) && market == o.market && Linked()
              case Err(e) => r == Err(e)
    {
      hide ListsRep, Shape, CallCancel, Unlink, SideRep;
      var order := ReadOrder(orders, id);
      ghost var k, isBid, n := Locate(orders, books, market, sender, id);
      if order.maker == ZERO_ADDRESS || order.quantity == 0 {
        return Err(OrderDoesNotExist);
      }
      if order.maker != sender {
        return Err(Unauthorized);
      }
      ListsRemove(orders, books, market, k, isBid, n);
      RemoveOrder(order.bookKey, order);
      log := log + [OrderCancelled(id, sender, order.quantity, ByUser)];
      market := Removed(market, k, isBid, n);
      return Ok(Done);
    }

    // ---- the host ------------------------------------------------------------------------

    function Snapshot(): Storage
      reads this
    {
      Storage(orders, books, balances, nextOrderId, bookKeys, wallets, log)
    }

    method Dispatch(rules: Tip20, sender: Address, call: Call) returns (r: Result<Output, Error>)
      requires Valid()
      modifies this`orders, this`books, this`balances, this`nextOrderId, this`bookKeys, this`wallets, this`log,
               this`market
      ensures match Execute(rules, old(market), sender, call)
              case Ok(o) => r == Ok(o.output) && market == o.market && Valid()
              case Err(e) => r.Err? && SameFailure(r.error, e)
    {
      hide ListsRep, Sound, CallPlace, CallMarketOrder, CallCancel, CallDeposit, CallWithdraw, CallCreatePair;
      ExecuteSound(rules, market, sender, call);
      SoundShape(market, LANDED);
      match call {
        case CreatePair(base, quote) => r := CreateNewPair(rules, base, quote);
        case Deposit(token, amount) => r := DepositTokens(rules, sender, token, amount);
        case Withdraw(token, amount) => r := WithdrawTokens(rules, sender, token, amount);
        case Place(base, quote, amount, price, isBid, tif) =>
          r := Place(rules, sender, base, quote, amount, price, isBid, tif);
        case Cancel(id) => r := CancelOrder(sender, id);
        case MarketOrder(base, quote, amount, guard, isBuy, tif) =>
          if isBuy {
            r := MarketBuy(rules, sender, base, quote, amount, guard, tif);
          } else {
            r := MarketSell(rules, sender, base, quote, amount, guard, tif);
          }
      }
    }

    /**
      One external call as its host runs it: it takes the market to the next one, or fails and
      leaves storage exactly as it was.
     */
    method Call(rules: Tip20, sender: Address, call: Call) returns (r: Result<Output, Error>)
      requires Reached()
      modifies this
      ensures Reached() && history == old(history) + [Called(rules, sender, call)]
      ensures match Execute(rules, old(market), sender, call)
              case Ok(o) => r == Ok(o.output) && market == o.market
              case Err(e) => r.Err? && SameFailure(r.error, e) && market == old(market) && Snapshot() == old(Snapshot())
    {
      hide ListsRep, Sound, Execute, Run;
      RunMore(history, Called(rules, sender, call));
      var saved := Snapshot();
      ghost var was := market;
      r := Dispatch(rules, sender, call);
      if r.Err? {
        orders, books, balances, nextOrderId := saved.orders, saved.books, saved.balances, saved.nextOrderId;
        bookKeys, wallets, log := saved.bookKeys, saved.wallets, saved.log;
        market := was;
      }
      history := history + [Called(rules, sender, call)];
    }

    /** Token movements elsewhere that do not take from the darkpool's wallet. */
    method TokensMove(w: Wallets)
      requires Reached() && PoolKeeps(wallets, w)
      modifies this`wallets, this`market, this`history
      ensures Reached() && history == old(history) + [Elsewhere(w)] && wallets == w
    {
      hide ListsRep, Run;
      RunMore(history, Elsewhere(w));
      RunSound(history + [Elsewhere(w)]);
      wallets := w;
      market := market.(wallets := w);
      history := history + [Elsewhere(w)];
    }
  }

  lemma RunMore(steps: seq<Step>, step: Step)
    ensures Run(steps + [step]) == Next(Run(steps), step)
  {
    hide Next;
    assert (steps + [step])[..|steps|] == steps;
  }

  lemma NodeAt(orders: Orders, head: nat, k: BookKey, isBid: bool, side: seq<Resting>, n: nat)
    requires SideRep(orders, head, k, isBid, side)
    ensures head == IdAt(side, 0) && (side == [] <==> head == 0)
    ensures n < |side| ==> side[n].id != 0 && ReadOrder(orders, side[n].id) == NodeOf(k, isBid, side, n)
    ensures 0 < n <= |side| ==> IdAt(side, n - 1) != 0
  {
  }

  lemma {:induction false} NothingReserved(user: Address, token: Address, k: BookKey, isBid: bool, side: seq<Resting>)
    requires token != GivenToken(k, isBid)
    ensures SideSum(ReservedBy(user, token), k, isBid, side) == 0
  {
    if side != [] {
      NothingReserved(user, token, k, isBid, side[1..]);
    }
  }

  lemma EscrowIsReservation(o: Resting)
    requires 0 < o.qty && 0 < o.price && Reservation(true, o) <= U128_MAX
    ensures BidEscrow(o.qty, o.price) == Some(Reservation(true, o))
  {
  }

  lemma TokensOfBook(orders: Orders, metas: Metas, books: map<BookKey, Book>, k: BookKey)
    requires ListsRep(orders, metas, books) && k in books
    ensures k in metas && metas[k].base == k.base && metas[k].quote == k.quote
  {
    assert BookRep(orders, metas[k], k, books[k]);
  }

  /** A book slot reads as present exactly when the market has the book. */
  lemma PresentBook(orders: Orders, metas: Metas, books: map<BookKey, Book>, k: BookKey)
    requires ListsRep(orders, metas, books)
    ensures ReadBook(metas, k).base == ZERO_ADDRESS <==> k !in books
  {
    if k in books {
      assert BookRep(orders, metas[k], k, books[k]);
    }
  }

  /** What a loop still has to do completes to the whole crossing. */
  ghost predicate Continues(whole: Result<Crossed, Error>, rest: Result<Crossed, Error>, spent: nat) {
    match rest
    case Ok(c) => whole == Ok(c.(quote := c.quote + spent))
    case Err(e) => whole == Err(e)
  }

  lemma BestIsLive(isBid: bool, side: seq<Resting>, nextId: nat)
    requires GoodSide(isBid, side, nextId) && side != []
    ensures 0 < side[0].qty
  {
  }

  /** One turn makes progress and keeps the loop on course. */
  lemma TurnOfLoop(whole: Result<Crossed, Error>, m: Market, k: BookKey, makerIsBid: bool, takerId: nat, taker: Address,
                   limit: u128, want: u128, spent: nat)
    requires k in m.books && SideOf(m.books[k], makerIsBid) != [] && 0 < want
    requires Crosses(makerIsBid, SideOf(m.books[k], makerIsBid)[0].price, limit)
    requires GoodSide(makerIsBid, SideOf(m.books[k], makerIsBid), m.nextId)
    requires Continues(whole, Cross(m, k, makerIsBid, takerId, taker, limit, want), spent)
    ensures match FillBest(m, k, makerIsBid, takerId, taker, want)
            case Err(e) => whole == Err(e)
            case Ok(f) =>
              && 0 < f.amount <= want && k in f.market.books
              && GoodSide(makerIsBid, SideOf(f.market.books[k], makerIsBid), f.market.nextId)
              && Continues(whole, Cross(f.market, k, makerIsBid, takerId, taker, limit, want - f.amount),
                           spent + f.quote)
  {
    hide Cross, GoodSide, AfterFill, FillBest;
    var side := SideOf(m.books[k], makerIsBid);
    BestIsLive(makerIsBid, side, m.nextId);
    CrossTurn(m, k, makerIsBid, takerId, taker, limit, want);
    var r := FillBest(m, k, makerIsBid, takerId, taker, want);
    if r.Ok? {
      AfterFillGood(makerIsBid, side, r.value.amount, m.nextId);
    }
  }

  lemma SoundShape(m: Market, f: Flight)
    requires Sound(m, f)
    ensures Shape(m)
  {
  }

  lemma ShapeSide(m: Market, k: BookKey, isBid: bool)
    requires Shape(m) && k in m.books
    ensures GoodSide(isBid, SideOf(m.books[k], isBid), m.nextId)
  {
  }

  lemma SubmitShape(m: Market, e: Event)
    requires Shape(m) && e.OrderSubmitted?
    ensures Shape(Submit(m, e))
  {
  }

  lemma StoredIdBelow(orders: Orders, head: nat, k: BookKey, isBid: bool, side: seq<Resting>, nextId: nat, id: nat)
    requires SideRep(orders, head, k, isBid, side) && GoodSide(isBid, side, nextId)
    requires id in orders && On(orders[id], k, isBid)
    ensures id < nextId
  {
    var n :| 0 <= n < |side| && side[n].id == id;
    assert Live(isBid, side[n], nextId);
  }

  /** No stored order has the next id. */
  lemma FreshId(orders: Orders, metas: Metas, m: Market)
    requires ListsRep(orders, metas, m.books) && Shape(m)
    ensures m.nextId !in orders && 0 < m.nextId
  {
    hide SideRep, GoodSide;
    if m.nextId in orders {
      var k, isBid := orders[m.nextId].bookKey, orders[m.nextId].isBid;
      SideOfBook(orders, metas, m.books, k, isBid);
      StoredIdBelow(orders, Head(metas[k], isBid), k, isBid, SideOf(m.books[k], isBid), m.nextId, m.nextId);
    }
  }

  /** An order rests at one place only, the one its stored node names. */
  lemma RestsOnce(orders: Orders, metas: Metas, m: Market, k: BookKey, isBid: bool, n: nat, id: nat)
    requires ListsRep(orders, metas, m.books) && RestsAt(m, k, isBid, n, id)
    ensures id in orders && orders[id] == NodeOf(k, isBid, SideOf(m.books[k], isBid), n)
  {
    hide ListsRep;
    SideOfBook(orders, metas, m.books, k, isBid);
  }

  lemma StoredRests(orders: Orders, metas: Metas, m: Market, id: nat) returns (k: BookKey, isBid: bool, n: nat)
    requires ListsRep(orders, metas, m.books) && id in orders
    ensures RestsAt(m, k, isBid, n, id)
  {
    hide BookRep, SideRep;
    k, isBid := orders[id].bookKey, orders[id].isBid;
    SideOfBook(orders, metas, m.books, k, isBid);
    n := PlaceOf(orders, Head(metas[k], isBid), k, isBid, SideOf(m.books[k], isBid), id);
  }

  lemma PlaceOf(orders: Orders, head: nat, k: BookKey, isBid: bool, side: seq<Resting>, id: nat) returns (n: nat)
    requires SideRep(orders, head, k, isBid, side) && id in orders && On(orders[id], k, isBid)
    ensures n < |side| && side[n].id == id
  {
    n :| n < |side| && side[n].id == id;
  }

  lemma SamePlace(orders: Orders, metas: Metas, m: Market, k: BookKey, isBid: bool, n: nat, n': nat, id: nat)
    requires ListsRep(orders, metas, m.books) && RestsAt(m, k, isBid, n, id) && RestsAt(m, k, isBid, n', id)
    ensures n == n'
  {
    hide ListsRep;
    SideOfBook(orders, metas, m.books, k, isBid);
  }

  /** What cancelling does, at the place the stored node names. */
  lemma Locate(orders: Orders, metas: Metas, m: Market, sender: Address, id: nat)
    returns (k: BookKey, isBid: bool, n: nat)
    requires ListsRep(orders, metas, m.books) && Shape(m)
    ensures var o := ReadOrder(orders, id);
            if o.maker == ZERO_ADDRESS || o.quantity == 0 then CallCancel(m, sender, id) == Err(OrderDoesNotExist)
            else
              && RestsAt(m, k, isBid, n, id) && o == NodeOf(k, isBid, SideOf(m.books[k], isBid), n)
              && k in metas && ReadBook(metas, k) == metas[k]
              && CallCancel(m, sender, id) == if o.maker != sender then Err(Unauthorized)
                else Ok(Outcome(Removed(m, k, isBid, n), Done))
  {
    hide ListsRep, GoodSide;
    if id in orders {
      k, isBid, n := StoredRests(orders, metas, m, id);
      RestsOnce(orders, metas, m, k, isBid, n, id);
      TokensOfBook(orders, metas, m.books, k);
      ShapeSide(m, k, isBid);
      AllLive(isBid, SideOf(m.books[k], isBid), m.nextId, n);
      var k', isBid', n': nat :| RestsAt(m, k', isBid', n', id) && CallCancel(m, sender, id) ==
          (var o := SideOf(m.books[k'], isBid')[n'];
           if o.maker == ZERO_ADDRESS then Err(OrderDoesNotExist)
           else if o.maker != sender then Err(Unauthorized)
           else Ok(Outcome(Removed(m, k', isBid', n'), Done)));
      RestsOnce(orders, metas, m, k', isBid', n', id);
      SamePlace(orders, metas, m, k, isBid, n, n', id);
    } else {
      k, isBid, n := BookKey(0, 0), false, 0;
      if k', isBid', n': nat :| RestsAt(m, k', isBid', n', id) {
        RestsOnce(orders, metas, m, k', isBid', n', id);
      }
    }
  }

  lemma AllLive(isBid: bool, side: seq<Resting>, nextId: nat, n: nat)
    requires GoodSide(isBid, side, nextId) && n < |side|
    ensures 0 < side[n].qty
  {
  }
}
