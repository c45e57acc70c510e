/**
  The darkpool order book on values. A book side is the sequence of its resting orders, best
  first; every external call is a function from one market to the next, or to the error that
  makes the host roll the call back.
 */
module OrderBook {
  import opened Prelude
  import opened FixedPoint

  type Address = nat

  const ZERO_ADDRESS: Address := 0
  const DARKPOOL_ADDRESS: Address := 0x0B00_0000_0000_0000_0000_0000_0000_0000_0000_0001

  const MIN_ORDER_AMOUNT: nat := 100
  const TIME_IN_FORCE_GTC: nat := 0
  const TIME_IN_FORCE_IOC: nat := 1
  const TIME_IN_FORCE_FOK: nat := 2

  /** The digest of a pair stands for the pair: distinct pairs have distinct keys. */
  datatype BookKey = BookKey(base: Address, quote: Address)

  datatype Resting = Resting(id: nat, maker: Address, price: u128, qty: u128)

  datatype Book = Book(bids: seq<Resting>, asks: seq<Resting>)

  datatype OrderKind = Limit | AtMarket

  datatype CancelReason = ByUser | IocRemainder

  datatype Event =
    | OrderSubmitted(orderId: nat, maker: Address, base: Address, quote: Address, amount: u128,
                     priceLimit: u128, isBid: bool, kind: OrderKind, timeInForce: nat)
    | OrderPlaced(orderId: nat, maker: Address, base: Address, quote: Address, amount: u128,
                  price: u128, isBid: bool)
    | OrderFilled(makerOrderId: nat, maker: Address, taker: Address, takerOrderId: nat,
                  amountFilled: u128, price: u128)
    | OrderCancelled(orderId: nat, maker: Address, cancelledAmount: u128, reason: CancelReason)

  /** Arithmetic failures share one error in the precompile; the cause is kept apart here. */
  datatype Cause = Underflow | Overflow | QuoteOutOfRange

  datatype Error =
    | InvalidTimeInForce
    | InvalidToken
    | AmountBelowMinimum
    | PriceOutOfRange
    | PairAlreadyExists
    | OrderDoesNotExist
    | Unauthorized
    | InsufficientBalance
    | InsufficientLiquidity
    | NotATip20
    | TransferRefused
    | Arithmetic(cause: Cause)

  /** Amounts held per (user, token); a missing entry is zero. */
  type Balances = map<(Address, Address), u128>

  /** TIP-20 holdings per (owner, token); a missing entry is zero. */
  type Wallets = map<(Address, Address), nat>

  /**
    What one call finds in the token contracts: the initialised tokens, none of them at the
    zero address, and the (user, token) pairs whose transfers are refused.
   */
  datatype TokenRules = TokenRules(tokens: set<Address>, blocked: set<(Address, Address)>)

  type Tip20 = r: TokenRules | ZERO_ADDRESS !in r.tokens witness TokenRules({}, {})

  /**
    `settled` is bookkeeping of the model alone: per token, the total that fills have debited
    from internal balances.
   */
  datatype Market = Market(
    books: map<BookKey, Book>,
    keys: seq<BookKey>,
    balances: Balances,
    wallets: Wallets,
    nextId: nat,
    log: seq<Event>,
    settled: map<Address, nat>
  )

  const GENESIS: Market := Market(map[], [], map[], map[], 1, [], map[])

  // ---- balances --------------------------------------------------------------------------

  function BalanceOf(b: Balances, user: Address, token: Address): u128 {
    if (user, token) in b then b[(user, token)] else 0
  }

  function Credit(b: Balances, user: Address, token: Address, amount: u128): Result<Balances, Error> {
    if BalanceOf(b, user, token) + amount > U128_MAX then Err(Arithmetic(Overflow))
    else Ok(b[(user, token) := BalanceOf(b, user, token) + amount])
  }

  function Debit(b: Balances, user: Address, token: Address, amount: u128): Result<Balances, Error> {
    if BalanceOf(b, user, token) < amount then Err(Arithmetic(Underflow))
    else Ok(b[(user, token) := BalanceOf(b, user, token) - amount])
  }

  /** One fill's four balance writes, in the order the precompile makes them. */
  function Swap(b: Balances, taker: Address, maker: Address, paid: Address, payment: u128,
                bought: Address, amount: u128): Result<Balances, Error>
  {
    var b1 :- Debit(b, taker, paid, payment);
    var b2 :- Credit(b1, taker, bought, amount);
    var b3 :- Debit(b2, maker, bought, amount);
    Credit(b3, maker, paid, payment)
  }

  function WalletOf(w: Wallets, owner: Address, token: Address): nat {
    if (owner, token) in w then w[(owner, token)] else 0
  }

  /** A TIP-20 transfer between the darkpool and `user` moves exactly `amount` or is refused. */
  function Transfer(rules: Tip20, w: Wallets, token: Address, user: Address, from: Address, to: Address,
                    amount: u128): Result<Wallets, Error>
  {
    if token !in rules.tokens then Err(NotATip20)
    else if (user, token) in rules.blocked || WalletOf(w, from, token) < amount then Err(TransferRefused)
    else
      var w1 := w[(from, token) := WalletOf(w, from, token) - amount];
      Ok(w1[(to, token) := WalletOf(w1, to, token) + amount])
  }

  // ---- book sides ------------------------------------------------------------------------

  function SideOf(b: Book, isBid: bool): seq<Resting> {
    if isBid then b.bids else b.asks
  }

  function SetSide(b: Book, isBid: bool, side: seq<Resting>): Book {
    if isBid then b.(bids := side) else b.(asks := side)
  }

  function WithSide(m: Market, k: BookKey, isBid: bool, side: seq<Resting>): (r: Market)
    requires k in m.books
    ensures r == m.(books := r.books) && r.books.Keys == m.books.Keys
    ensures SideOf(r.books[k], isBid) == side && SideOf(r.books[k], !isBid) == SideOf(m.books[k], !isBid)
    ensures forall k' :: k' in m.books && k' != k ==> r.books[k'] == m.books[k']
  {
    m.(books := m.books[k := SetSide(m.books[k], isBid, side)])
  }

  /** `price` is strictly better than `other` on its side of the book. */
  predicate Beats(isBid: bool, price: u128, other: u128) {
    if isBid then price > other else price < other
  }

  /** A maker's price is within a taker's limit. */
  predicate Crosses(makerIsBid: bool, makerPrice: u128, limit: u128) {
    if makerIsBid then makerPrice >= limit else makerPrice <= limit
  }

  /** Where a new order goes: before the first order it beats. */
  function InsertPos(isBid: bool, side: seq<Resting>, price: u128): (n: nat)
    ensures n <= |side|
    ensures forall i :: 0 <= i < n ==> !Beats(isBid, price, side[i].price)
    ensures n < |side| ==> Beats(isBid, price, side[n].price)
  {
    if side == [] || Beats(isBid, price, side[0].price) then 0
    else 1 + InsertPos(isBid, side[1..], price)
  }

  function InsertAt(side: seq<Resting>, n: nat, o: Resting): seq<Resting>
    requires n <= |side|
  {
    side[..n] + [o] + side[n..]
  }

  function RemoveAt(side: seq<Resting>, n: nat): seq<Resting>
    requires n < |side|
  {
    side[..n] + side[n + 1..]
  }

  /** The maker side after its best order gave up `fill`. */
  function AfterFill(side: seq<Resting>, fill: u128): seq<Resting>
    requires side != [] && fill <= side[0].qty
  {
    if fill == side[0].qty then side[1..] else side[0 := side[0].(qty := side[0].qty - fill)]
  }

  // ---- reservations ----------------------------------------------------------------------

  /** A quantity attributed to each resting order, to be summed over all books. */
  type Weight = (BookKey, bool, Resting) -> nat

  function SideSum(w: Weight, k: BookKey, isBid: bool, side: seq<Resting>): nat {
    if side == [] then 0 else w(k, isBid, side[0]) + SideSum(w, k, isBid, side[1..])
  }

  function BookSum(w: Weight, k: BookKey, b: Book): nat {
    SideSum(w, k, true, b.bids) + SideSum(w, k, false, b.asks)
  }

  function KeysSum(w: Weight, keys: seq<BookKey>, books: map<BookKey, Book>): nat {
    if keys == [] then 0
    else (if keys[0] in books then BookSum(w, keys[0], books[keys[0]]) else 0) + KeysSum(w, keys[1..], books)
  }

  function Total(w: Weight, m: Market): nat {
    KeysSum(w, m.keys, m.books)
  }

  /** The token a resting order will give up: quote for a bid, base for an ask. */
  function GivenToken(k: BookKey, isBid: bool): Address {
    if isBid then k.quote else k.base
  }

  /** What a resting order holds back from its maker's balance. */
  function Reservation(isBid: bool, o: Resting): nat {
    if isBid then Escrow(o.qty, o.price) else o.qty
  }

  function ReservedBy(user: Address, token: Address): Weight {
    (k: BookKey, isBid: bool, o: Resting) =>
      if o.maker == user && GivenToken(k, isBid) == token then Reservation(isBid, o) else 0
  }

  function Reserved(m: Market, user: Address, token: Address): nat {
    Total(ReservedBy(user, token), m)
  }

  /** The recomputed available balance: the subtraction saturates at zero. */
  function Available(m: Market, user: Address, token: Address): Result<u128, Error> {
    var reserved := Reserved(m, user, token);
    var balance := BalanceOf(m.balances, user, token);
    if reserved > U128_MAX then Err(Arithmetic(Overflow))
    else Ok(if balance >= reserved then balance - reserved else 0)
  }

  /** What an order call pulls in from the sender's wallet to have `required` available. */
  function Shortfall(m: Market, user: Address, token: Address, required: nat): nat {
    var available := Available(m, user, token);
    if available.Ok? && available.value < required then required - available.value else 0
  }

  /** Pull in from the wallet whatever the available balance lacks. */
  function EnsureBalance(rules: Tip20, m: Market, user: Address, token: Address,
                         required: u128): Result<Market, Error> {
    var available :- Available(m, user, token);
    if available >= required then Ok(m)
    else
      var w :- Transfer(rules, m.wallets, token, user, user, DARKPOOL_ADDRESS, required - available);
      var b :- Credit(m.balances, user, token, required - available);
      Ok(m.(wallets := w, balances := b))
  }

  // ---- matching --------------------------------------------------------------------------

  function Accrue(settled: map<Address, nat>, token: Address, amount: nat): map<Address, nat> {
    settled[token := SettledOf(settled, token) + amount]
  }

  function SettledOf(settled: map<Address, nat>, token: Address): nat {
    if token in settled then settled[token] else 0
  }

  /** The balance writes of a fill: the taker pays base to a bid and quote to an ask. */
  function Exchange(b: Balances, k: BookKey, makerIsBid: bool, taker: Address, maker: Address, fill: u128,
                    quote: u128): Result<Balances, Error> {
    if makerIsBid then Swap(b, taker, maker, k.base, fill, k.quote, quote)
    else Swap(b, taker, maker, k.quote, quote, k.base, fill)
  }

  function FillEvent(best: Resting, takerId: nat, taker: Address, fill: u128): Event {
    OrderFilled(best.id, best.maker, taker, takerId, fill, best.price)
  }

  /** The market once a fill against the best order has been paid for. */
  function Booked(m: Market, k: BookKey, makerIsBid: bool, takerId: nat, taker: Address, fill: u128, quote: u128,
                  paid: Balances): (r: Market)
    requires k in m.books && SideOf(m.books[k], makerIsBid) != [] && fill <= SideOf(m.books[k], makerIsBid)[0].qty
    ensures r.books == WithSide(m, k, makerIsBid, AfterFill(SideOf(m.books[k], makerIsBid), fill)).books
    ensures r.keys == m.keys && r.nextId == m.nextId && r.balances == paid
    ensures r.log == m.log + [FillEvent(SideOf(m.books[k], makerIsBid)[0], takerId, taker, fill)]
  {
    var side := SideOf(m.books[k], makerIsBid);
    var m1 := WithSide(m, k, makerIsBid, AfterFill(side, fill));
    m1.(balances := paid,
        log := m.log + [FillEvent(side[0], takerId, taker, fill)],
        settled := Accrue(Accrue(m.settled, k.base, fill), k.quote, quote))
  }

  datatype Filled = Filled(market: Market, amount: u128, quote: u128)

  /** Trade the taker against the best order of the maker side, at the maker's price. */
  function FillBest(m: Market, k: BookKey, makerIsBid: bool, takerId: nat, taker: Address,
                    want: u128): (r: Result<Filled, Error>)
    requires k in m.books && SideOf(m.books[k], makerIsBid) != []
    ensures r.Err? ==> r.error.Arithmetic?
    ensures r.Ok? ==>
              var side := SideOf(m.books[k], makerIsBid);
              && r.value.amount == Min(want, side[0].qty)
              && r.value.market.books.Keys == m.books.Keys && r.value.market.nextId == m.nextId
              && SideOf(r.value.market.books[k], makerIsBid) == AfterFill(side, r.value.amount)
  {
    var best := SideOf(m.books[k], makerIsBid)[0];
    var fill := Min(want, best.qty);
    match QuoteAmount(fill, best.price)
    case None => Err(Arithmetic(QuoteOutOfRange))
    case Some(quote) =>
      var paid :- Exchange(m.balances, k, makerIsBid, taker, best.maker, fill, quote);
      Ok(Filled(Booked(m, k, makerIsBid, takerId, taker, fill, quote, paid), fill, quote))
  }

  datatype Crossed = Crossed(market: Market, left: u128, quote: nat)

  /** Keep filling while something is wanted and the best opposite order is within the limit. */
  function Cross(m: Market, k: BookKey, makerIsBid: bool, takerId: nat, taker: Address, limit: u128,
                 want: u128): (r: Result<Crossed, Error>)
    requires k in m.books
    ensures r.Err? ==> r.error.Arithmetic?
    ensures r.Ok? ==> r.value.market.books.Keys == m.books.Keys && r.value.left <= want
    decreases |SideOf(m.books[k], makerIsBid)| + want
  {
    var side := SideOf(m.books[k], makerIsBid);
    if want == 0 || side == [] || !Crosses(makerIsBid, side[0].price, limit) then Ok(Crossed(m, want, 0))
    else
      var f :- FillBest(m, k, makerIsBid, takerId, taker, want);
      var c :- Cross(f.market, k, makerIsBid, takerId, taker, limit, want - f.amount);
      Ok(c.(quote := c.quote + f.quote))
  }

  /** Nothing but one side, the balances, the log and the settled totals differs. */
  ghost predicate SameElsewhere(m: Market, m': Market, k: BookKey, isBid: bool)
    requires k in m.books
  {
    && k in m'.books
    && m' == WithSide(m, k, isBid, SideOf(m'.books[k], isBid)).(balances := m'.balances, log := m'.log,
      settled := m'.settled)
  }

  /** Everything one fill does, away from the branches of its definition. */
  lemma FillFacts(m: Market, k: BookKey, makerIsBid: bool, takerId: nat, taker: Address, want: u128, f: Filled)
    requires k in m.books && SideOf(m.books[k], makerIsBid) != []
    requires FillBest(m, k, makerIsBid, takerId, taker, want) == Ok(f)
    ensures var best := SideOf(m.books[k], makerIsBid)[0];
            && f.quote == QuoteFloor(f.amount, best.price)
            && f.market.log == m.log + [FillEvent(best, takerId, taker, f.amount)]
            && Exchange(m.balances, k, makerIsBid, taker, best.maker, f.amount, f.quote) == Ok(f.market.balances)
            && SameElsewhere(m, f.market, k, makerIsBid)
            && (0 < want ==>
                  |SideOf(f.market.books[k], makerIsBid)| + (want - f.amount) < |SideOf(m.books[k], makerIsBid)| + want)
  {
    hide Exchange, QuoteFloor;
  }

  /** One turn of the loop. */
  lemma CrossTurn(m: Market, k: BookKey, makerIsBid: bool, takerId: nat, taker: Address, limit: u128, want: u128)
    requires k in m.books && 0 < want && SideOf(m.books[k], makerIsBid) != []
    requires Crosses(makerIsBid, SideOf(m.books[k], makerIsBid)[0].price, limit)
    ensures Cross(m, k, makerIsBid, takerId, taker, limit, want) ==
            match FillBest(m, k, makerIsBid, takerId, taker, want)
            case Err(e) => Err(e)
            case Ok(f) =>
              match Cross(f.market, k, makerIsBid, takerId, taker, limit, want - f.amount)
              case Err(e) => Err(e)
              case Ok(c) => Ok(c.(quote := c.quote + f.quote))
  {
    hide FillBest;
  }

  /** The loop ends when nothing is wanted or the best order is out of reach. */
  lemma CrossEnds(m: Market, k: BookKey, makerIsBid: bool, takerId: nat, taker: Address, limit: u128, want: u128)
    requires k in m.books
    requires want == 0 || SideOf(m.books[k], makerIsBid) == []
             || !Crosses(makerIsBid, SideOf(m.books[k], makerIsBid)[0].price, limit)
    ensures Cross(m, k, makerIsBid, takerId, taker, limit, want) == Ok(Crossed(m, want, 0))
  {
  }

  // ---- external calls --------------------------------------------------------------------

  datatype Call =
    | CreatePair(base: Address, quote: Address)
    | Deposit(token: Address, amount: u128)
    | Withdraw(token: Address, amount: u128)
    | Place(base: Address, quote: Address, amount: u128, price: u128, isBid: bool, timeInForce: nat)
    | Cancel(orderId: nat)
    | MarketOrder(base: Address, quote: Address, amount: u128, guard: u128, isBuy: bool, timeInForce: nat)

  datatype Output =
    | Done
    | PairKey(key: BookKey)
    | Placed(orderId: nat)
    | Traded(tradeId: nat, filled: u128, quote: u128)

  datatype Outcome = Outcome(market: Market, output: Output)

  function AddBook(m: Market, k: BookKey): Market {
    m.(books := m.books[k := Book([], [])], keys := m.keys + [k])
  }

  function OpenPair(rules: Tip20, m: Market, base: Address, quote: Address): Result<Market, Error> {
    if base !in rules.tokens || quote !in rules.tokens then Err(NotATip20)
    else if BookKey(base, quote) in m.books then Ok(m)
    else Ok(AddBook(m, BookKey(base, quote)))
  }

  function CallCreatePair(rules: Tip20, m: Market, base: Address, quote: Address): Result<Outcome, Error> {
    if base == quote then Err(InvalidToken)
    else if base !in rules.tokens || quote !in rules.tokens then Err(NotATip20)
    else if BookKey(base, quote) in m.books then Err(PairAlreadyExists)
    else Ok(Outcome(AddBook(m, BookKey(base, quote)), PairKey(BookKey(base, quote))))
  }

  function CallDeposit(rules: Tip20, m: Market, sender: Address, token: Address, amount: u128): Result<Outcome, Error> {
    var w :- Transfer(rules, m.wallets, token, sender, sender, DARKPOOL_ADDRESS, amount);
    var b :- Credit(m.balances, sender, token, amount);
    Ok(Outcome(m.(wallets := w, balances := b), Done))
  }

  function CallWithdraw(rules: Tip20, m: Market, sender: Address, token: Address,
                        amount: u128): Result<Outcome, Error> {
    var available :- Available(m, sender, token);
    if available < amount then Err(InsufficientBalance)
    else
      var b :- Debit(m.balances, sender, token, amount);
      var w :- Transfer(rules, m.wallets, token, sender, DARKPOOL_ADDRESS, sender, amount);
      Ok(Outcome(m.(wallets := w, balances := b), Done))
  }

  /** Take the next order id and announce the order. */
  function Submit(m: Market, submitted: Event): Market
    requires submitted.OrderSubmitted?
  {
    m.(nextId := m.nextId + 1, log := m.log + [submitted])
  }

  /** Put what is left of a limit order on its side of the book. */
  function Rest(m: Market, k: BookKey, isBid: bool, o: Resting): Market
    requires k in m.books
  {
    var side := SideOf(m.books[k], isBid);
    var m1 := m.(log := m.log + [OrderPlaced(o.id, o.maker, k.base, k.quote, o.qty, o.price, isBid)]);
    WithSide(m1, k, isBid, InsertAt(side, InsertPos(isBid, side, o.price), o))
  }

  function CallPlace(rules: Tip20, m: Market, sender: Address, base: Address, quote: Address, amount: u128,
                     price: u128, isBid: bool, timeInForce: nat): Result<Outcome, Error>
  {
    if timeInForce != TIME_IN_FORCE_GTC then Err(InvalidTimeInForce)
    else if base == quote then Err(InvalidToken)
    else if amount < MIN_ORDER_AMOUNT then Err(AmountBelowMinimum)
    else if price == 0 || QuoteAmount(amount, price).None? then Err(PriceOutOfRange)
    else
      var k := BookKey(base, quote);
      var m1 :- OpenPair(rules, m, base, quote);
      var need :- if !isBid then Ok(amount)
                  else if BidEscrow(amount, price).None? then Err(PriceOutOfRange)
                  else Ok(BidEscrow(amount, price).value);
      var m2 :- EnsureBalance(rules, m1, sender, GivenToken(k, isBid), need);
      var id := m2.nextId;
      var m3 := Submit(m2, OrderSubmitted(id, sender, base, quote, amount, price, isBid, Limit, timeInForce));
      var c :- Cross(m3, k, !isBid, id, sender, price, amount);
      var m4 := if c.left == 0 then c.market
                else Rest(c.market, k, isBid, Resting(id, sender, price, c.left));
      Ok(Outcome(m4, Placed(id)))
  }

  function CallMarketOrder(rules: Tip20, m: Market, sender: Address, base: Address, quote: Address, amount: u128,
                           guard: u128, isBuy: bool, timeInForce: nat): Result<Outcome, Error>
  {
    if timeInForce != TIME_IN_FORCE_IOC && timeInForce != TIME_IN_FORCE_FOK then Err(InvalidTimeInForce)
    else if base == quote then Err(InvalidToken)
    else if amount < MIN_ORDER_AMOUNT then Err(AmountBelowMinimum)
    else if isBuy && BidEscrow(amount, guard).None? then Err(PriceOutOfRange)
    else if !isBuy && guard != 0 && QuoteAmount(amount, guard).None? then Err(PriceOutOfRange)
    else
      var k := BookKey(base, quote);
      var m1 :- OpenPair(rules, m, base, quote);
      var need := if isBuy then BidEscrow(amount, guard).value else amount;
      var m2 :- EnsureBalance(rules, m1, sender, GivenToken(k, isBuy), need);
      var id := m2.nextId;
      var m3 := Submit(m2, OrderSubmitted(id, sender, base, quote, amount, guard, isBuy, AtMarket, timeInForce));
      var c :- Cross(m3, k, !isBuy, id, sender, guard, amount);
      if c.quote > U128_MAX then Err(Arithmetic(Overflow))
      else if c.left > 0 && timeInForce == TIME_IN_FORCE_FOK then Err(InsufficientLiquidity)
      else
        var m4 := if c.left == 0 then c.market
                  else c.market.(log := c.market.log + [OrderCancelled(id, sender, c.left, IocRemainder)]);
        Ok(Outcome(m4, Traded(id, amount - c.left, c.quote)))
  }

  /** An order id rests at position `n` of one side of one book. */
  ghost predicate RestsAt(m: Market, k: BookKey, isBid: bool, n: nat, id: nat) {
    k in m.books && n < |SideOf(m.books[k], isBid)| && SideOf(m.books[k], isBid)[n].id == id
  }

  ghost function CallCancel(m: Market, sender: Address, id: nat): Result<Outcome, Error> {
    if !exists k, isBid, n: nat :: RestsAt(m, k, isBid, n, id) then Err(OrderDoesNotExist)
    else
      var k, isBid, n: nat :| RestsAt(m, k, isBid, n, id);
      var o := SideOf(m.books[k], isBid)[n];
      if o.maker == ZERO_ADDRESS then Err(OrderDoesNotExist)
      else if o.maker != sender then Err(Unauthorized)
      else
        var m1 := WithSide(m, k, isBid, RemoveAt(SideOf(m.books[k], isBid), n));
        Ok(Outcome(m1.(log := m1.log + [OrderCancelled(id, sender, o.qty, ByUser)]), Done))
  }

  ghost function Execute(rules: Tip20, m: Market, sender: Address, call: Call): Result<Outcome, Error> {
    match call
    case CreatePair(base, quote) => CallCreatePair(rules, m, base, quote)
    case Deposit(token, amount) => CallDeposit(rules, m, sender, token, amount)
    case Withdraw(token, amount) => CallWithdraw(rules, m, sender, token, amount)
    case Place(base, quote, amount, price, isBid, tif) =>
      CallPlace(rules, m, sender, base, quote, amount, price, isBid, tif)
    case Cancel(id) => CallCancel(m, sender, id)
    case MarketOrder(base, quote, amount, guard, isBuy, tif) =>
      CallMarketOrder(rules, m, sender, base, quote, amount, guard, isBuy, tif)
  }
}
