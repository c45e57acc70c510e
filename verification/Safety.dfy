/** Every external call, and so every run of calls, keeps the book sound. */
module Safety {
  import opened Prelude
  import opened FixedPoint
  import opened OrderBook
  import opened BookSums
  import opened Soundness

  /** A taker that wants nothing more holds nothing back. */
  lemma LandFilled(m: Market, f: Flight)
    requires Sound(m, f) && f.left == 0
    ensures Sound(m, LANDED)
  {
    hide Shape, Uncrossed, Reserved, BalanceOf, LogSum, RestingQty;
    forall u, t ensures BalanceOf(m.balances, u, t) >= Reserved(m, u, t) + HeldBack(LANDED, u, t) {
      assert BalanceOf(m.balances, u, t) >= Reserved(m, u, t) + HeldBack(f, u, t);
    }
  }

  /** Cancelling the unfilled remainder settles a market order's ledger. */
  lemma LandCancelled(m: Market, f: Flight, sender: Address)
    requires Sound(m, f) && f.left <= U128_MAX
    ensures Sound(m.(log := m.log + [OrderCancelled(f.id, sender, f.left, IocRemainder)]), LANDED)
  {
    var e := OrderCancelled(f.id, sender, f.left, IocRemainder);
    var m' := m.(log := m.log + [e]);
    assert Shape(m') && Uncrossed(m');
    hide Shape, Uncrossed, LogSum, KeysSum, BalanceOf;
    assert Solvent(m', LANDED) by {
      forall u, t ensures BalanceOf(m'.balances, u, t) >= Reserved(m', u, t) + HeldBack(LANDED, u, t) {
        assert BalanceOf(m.balances, u, t) >= Reserved(m, u, t) + HeldBack(f, u, t);
      }
    }
    forall id ensures LogSum(LedgerWeight(id), m'.log) == RestingQty(m', id) {
      LogSumAppend(LedgerWeight(id), m.log, e);
      assert LogSum(LedgerWeight(id), m.log) == RestingQty(m, id) + (if id == f.id then f.left else 0);
    }
  }

  lemma OpenPairSound(rules: Tip20, m: Market, base: Address, quote: Address)
    requires Sound(m, LANDED) && base != quote
    ensures match OpenPair(rules, m, base, quote)
            case Err(e) => !e.Arithmetic?
            case Ok(m') => Sound(m', LANDED) && BookKey(base, quote) in m'.books
  {
    hide Sound;
    if BookKey(base, quote) !in m.books {
      AddBookSound(m, BookKey(base, quote));
    }
  }

  /** From submission to the end of the crossing loop, for limit and market orders alike. */
  lemma TakeSound(m: Market, k: BookKey, isBid: bool, sender: Address, limit: u128, amount: u128, submitted: Event)
    requires k in m.books && submitted.OrderSubmitted? && submitted.orderId == m.nextId && submitted.amount == amount
    requires Sound(m, LANDED.(user := sender, token := GivenToken(k, isBid), need := Need(!isBid, limit, amount)))
    ensures match Cross(Submit(m, submitted), k, !isBid, m.nextId, sender, limit, amount)
            case Err(e) => e.Arithmetic? && e.cause != Underflow
            case Ok(c) =>
              && Sound(c.market, TakerFlight(k, !isBid, m.nextId, sender, limit, c.left))
              && c.market.nextId == m.nextId + 1 && 0 < m.nextId
              && GoodSide(isBid, SideOf(c.market.books[k], isBid), m.nextId)
              && (0 < c.left ==>
                    forall p :: p in SideOf(c.market.books[k], !isBid) ==> !Crosses(!isBid, p.price, limit))
  {
    hide Sound, Cross, GoodSide;
    var f := LANDED.(user := sender, token := GivenToken(k, isBid), need := Need(!isBid, limit, amount));
    var m' := Submit(m, submitted);
    SubmitSound(m, f, submitted);
    assert f.(id := m.nextId, left := amount) == TakerFlight(k, !isBid, m.nextId, sender, limit, amount);
    CrossSound(m', k, !isBid, m.nextId, sender, limit, amount);
    assert GoodSide(isBid, SideOf(m.books[k], isBid), m.nextId)
      && GoodSide(!isBid, SideOf(m'.books[k], !isBid), m'.nextId) && 0 < m.nextId by {
      SoundSides(m, f, k, isBid);
      SoundSides(m', TakerFlight(k, !isBid, m.nextId, sender, limit, amount), k, !isBid);
    }
    CrossExhausts(m', k, !isBid, m.nextId, sender, limit, amount);
  }

  lemma SoundSides(m: Market, f: Flight, k: BookKey, isBid: bool)
    requires Sound(m, f) && k in m.books
    ensures GoodSide(isBid, SideOf(m.books[k], isBid), m.nextId) && 0 < m.nextId
  {
  }

  lemma PlaceSound(rules: Tip20, m: Market, sender: Address, base: Address, quote: Address, amount: u128,
                   price: u128, isBid: bool, timeInForce: nat)
    requires Sound(m, LANDED)
    ensures match CallPlace(rules, m, sender, base, quote, amount, price, isBid, timeInForce)
            case Err(e) => e != Arithmetic(Underflow)
            case Ok(o) => Sound(o.market, LANDED)
  {
    hide Sound, Cross, GoodSide, EnsureBalance, OpenPair, QuoteAmount, Rest, QuoteFloor;
    var k := BookKey(base, quote);
    var r := CallPlace(rules, m, sender, base, quote, amount, price, isBid, timeInForce);
    if timeInForce != TIME_IN_FORCE_GTC || base == quote || amount < MIN_ORDER_AMOUNT || price == 0
      || QuoteAmount(amount, price).None? {
      return;
    }
    OpenPairSound(rules, m, base, quote);
    var m1 := OpenPair(rules, m, base, quote);
    if m1.Err? || (isBid && BidEscrow(amount, price).None?) {
      return;
    }
    var need := if isBid then BidEscrow(amount, price).value else amount;
    EnsureBalanceSound(rules, m1.value, sender, GivenToken(k, isBid), need);
    var m2 := EnsureBalance(rules, m1.value, sender, GivenToken(k, isBid), need);
    if m2.Err? {
      return;
    }
    var id := m2.value.nextId;
    var e := OrderSubmitted(id, sender, base, quote, amount, price, isBid, Limit, timeInForce);
    TakeSound(m2.value, k, isBid, sender, price, amount, e);
    var c := Cross(Submit(m2.value, e), k, !isBid, id, sender, price, amount);
    if c.Ok? {
      if c.value.left == 0 {
        LandFilled(c.value.market, TakerFlight(k, !isBid, id, sender, price, 0));
      } else {
        RestLive(m2.value.nextId, isBid, sender, price, amount, c.value.left);
        RestSound(c.value.market, k, isBid, Resting(id, sender, price, c.value.left));
      }
    }
  }

  lemma RestLive(id: nat, isBid: bool, sender: Address, price: u128, amount: u128, left: u128)
    requires 0 < id && 0 < price && 0 < left <= amount && (isBid ==> BidEscrow(amount, price).Some?)
    ensures Live(isBid, Resting(id, sender, price, left), id + 1)
  {
    EscrowMonotone(left, amount, price);
  }

  lemma MarketOrderSound(rules: Tip20, m: Market, sender: Address, base: Address, quote: Address, amount: u128,
                         guard: u128, isBuy: bool, timeInForce: nat)
    requires Sound(m, LANDED)
    ensures match CallMarketOrder(rules, m, sender, base, quote, amount, guard, isBuy, timeInForce)
            case Err(e) => e != Arithmetic(Underflow)
            case Ok(o) => Sound(o.market, LANDED)
  {
    hide Sound, Cross, GoodSide, EnsureBalance, OpenPair, QuoteAmount, QuoteFloor;
    var k := BookKey(base, quote);
    if base == quote || (isBuy && BidEscrow(amount, guard).None?)
      || (!isBuy && guard != 0 && QuoteAmount(amount, guard).None?) {
      return;
    }
    OpenPairSound(rules, m, base, quote);
    var m1 := OpenPair(rules, m, base, quote);
    if m1.Err? {
      return;
    }
    var need := if isBuy then BidEscrow(amount, guard).value else amount;
    EnsureBalanceSound(rules, m1.value, sender, GivenToken(k, isBuy), need);
    var m2 := EnsureBalance(rules, m1.value, sender, GivenToken(k, isBuy), need);
    if m2.Err? {
      return;
    }
    var id := m2.value.nextId;
    var e := OrderSubmitted(id, sender, base, quote, amount, guard, isBuy, AtMarket, timeInForce);
    TakeSound(m2.value, k, isBuy, sender, guard, amount, e);
    var c := Cross(Submit(m2.value, e), k, !isBuy, id, sender, guard, amount);
    if c.Ok? {
      if c.value.left == 0 {
        LandFilled(c.value.market, TakerFlight(k, !isBuy, id, sender, guard, 0));
      } else {
        LandCancelled(c.value.market, TakerFlight(k, !isBuy, id, sender, guard, c.value.left), sender);
      }
    }
  }

  /** New funds for one account, or a debit its available balance covers, keep the book sound. */
  lemma FundsSound(m: Market, w: Wallets, b: Balances)
    requires Sound(m, LANDED)
    requires forall u, t :: BalanceOf(b, u, t) >= Reserved(m, u, t)
    ensures Sound(m.(wallets := w, balances := b), LANDED)
  {
    var m' := m.(wallets := w, balances := b);
    ShapeIgnoresFunds(m, w, b);
    hide Shape, Uncrossed, LogSum, KeysSum, BalanceOf, LedgerWeight;
    forall u, t ensures BalanceOf(m'.balances, u, t) >= Reserved(m', u, t) + HeldBack(LANDED, u, t) {
      assert BalanceOf(b, u, t) >= Reserved(m, u, t);
    }
    forall id ensures LogSum(LedgerWeight(id), m'.log) == RestingQty(m', id) {
      assert LogSum(LedgerWeight(id), m.log) == RestingQty(m, id) + (if id == LANDED.id then LANDED.left else 0);
    }
  }

  lemma SolventAt(m: Market, u: Address, t: Address)
    requires Sound(m, LANDED)
    ensures BalanceOf(m.balances, u, t) >= Reserved(m, u, t)
  {
    assert BalanceOf(m.balances, u, t) >= Reserved(m, u, t) + HeldBack(LANDED, u, t);
  }

  lemma DepositSound(rules: Tip20, m: Market, sender: Address, token: Address, amount: u128)
    requires Sound(m, LANDED)
    ensures match CallDeposit(rules, m, sender, token, amount)
            case Err(e) => e != Arithmetic(Underflow)
            case Ok(o) => Sound(o.market, LANDED)
  {
    hide Sound, Reserved;
    var r := CallDeposit(rules, m, sender, token, amount);
    if r.Ok? {
      var b := r.value.market.balances;
      forall u, t ensures BalanceOf(b, u, t) >= Reserved(m, u, t) {
        SolventAt(m, u, t);
      }
      FundsSound(m, r.value.market.wallets, b);
    }
  }

  /** The recomputed available balance is the exact difference: the subtraction never saturates. */
  lemma AvailableIsExact(m: Market, u: Address, t: Address)
    requires Sound(m, LANDED)
    ensures Available(m, u, t) == Ok(BalanceOf(m.balances, u, t) - Reserved(m, u, t))
  {
    SolventAt(m, u, t);
  }

  /** What an order call pulls in is what the free balance lacks. */
  lemma ShortfallIsExact(m: Market, u: Address, t: Address, required: nat)
    requires Sound(m, LANDED)
    ensures var free := BalanceOf(m.balances, u, t) - Reserved(m, u, t);
            Shortfall(m, u, t, required) == if required <= free then 0 else required - free
  {
    AvailableIsExact(m, u, t);
    SolventAt(m, u, t);
    hide Sound, Available, Reserved;
  }

  lemma WithdrawSound(rules: Tip20, m: Market, sender: Address, token: Address, amount: u128)
    requires Sound(m, LANDED)
    ensures match CallWithdraw(rules, m, sender, token, amount)
            case Err(e) => e != Arithmetic(Underflow)
            case Ok(o) => Sound(o.market, LANDED)
  {
    hide Sound, Reserved, Available;
    AvailableIsExact(m, sender, token);
    var r := CallWithdraw(rules, m, sender, token, amount);
    if r.Ok? {
      var b := r.value.market.balances;
      forall u, t ensures BalanceOf(b, u, t) >= Reserved(m, u, t) {
        SolventAt(m, u, t);
      }
      FundsSound(m, r.value.market.wallets, b);
    }
  }

  lemma CancelSound(m: Market, sender: Address, id: nat)
    requires Sound(m, LANDED)
    ensures match CallCancel(m, sender, id)
            case Err(e) => e != Arithmetic(Underflow)
            case Ok(o) => Sound(o.market, LANDED)
  {
    hide Sound;
    var r := CallCancel(m, sender, id);
    if r.Ok? {
      var k, isBid, n: nat :| RestsAt(m, k, isBid, n, id) && r.value.market == Removed(m, k, isBid, n);
      RemoveSound(m, k, isBid, n);
    }
  }

  /** One external call: it keeps the book sound, and it never fails because a debit underflows. */
  lemma ExecuteSound(rules: Tip20, m: Market, sender: Address, call: Call)
    requires Sound(m, LANDED)
    ensures match Execute(rules, m, sender, call)
            case Err(e) => e != Arithmetic(Underflow)
            case Ok(o) => Sound(o.market, LANDED)
  {
    hide Sound, CallPlace, CallMarketOrder, CallCancel, CallDeposit, CallWithdraw;
    match call
    case CreatePair(base, quote) =>
      if base != quote && BookKey(base, quote) !in m.books {
        AddBookSound(m, BookKey(base, quote));
      }
    case Deposit(token, amount) => DepositSound(rules, m, sender, token, amount);
    case Withdraw(token, amount) => WithdrawSound(rules, m, sender, token, amount);
    case Place(base, quote, amount, price, isBid, tif) =>
      PlaceSound(rules, m, sender, base, quote, amount, price, isBid, tif);
    case Cancel(id) => CancelSound(m, sender, id);
    case MarketOrder(base, quote, amount, guard, isBuy, tif) =>
      MarketOrderSound(rules, m, sender, base, quote, amount, guard, isBuy, tif);
  }

  // ---- whole runs ------------------------------------------------------------------------

  /** A call by an account, or token movements elsewhere that do not take from the darkpool's wallet. */
  datatype Step = Called(rules: Tip20, sender: Address, call: Call) | Elsewhere(wallets: Wallets)

  ghost predicate PoolKeeps(before: Wallets, after: Wallets) {
    forall t :: WalletOf(after, DARKPOOL_ADDRESS, t) >= WalletOf(before, DARKPOOL_ADDRESS, t)
  }

  /** A failed call is rolled back by its host. */
  ghost function Next(m: Market, step: Step): Market {
    match step
    case Called(rules, sender, call) =>
      var r := Execute(rules, m, sender, call);
      if r.Ok? then r.value.market else m
    case Elsewhere(w) => if PoolKeeps(m.wallets, w) then m.(wallets := w) else m
  }

  ghost function Run(steps: seq<Step>): Market {
    if steps == [] then GENESIS else Next(Run(steps[..|steps| - 1]), steps[|steps| - 1])
  }

  /** Every reachable market is sound. */
  lemma {:induction false} RunSound(steps: seq<Step>)
    ensures Sound(Run(steps), LANDED)
  {
    if steps == [] {
      assert Sound(GENESIS, LANDED);
    } else {
      var m, step := Run(steps[..|steps| - 1]), steps[|steps| - 1];
      RunSound(steps[..|steps| - 1]);
      hide Sound, Execute;
      match step
      case Called(rules, sender, call) => ExecuteSound(rules, m, sender, call);
      case Elsewhere(w) =>
        forall u, t ensures BalanceOf(m.balances, u, t) >= Reserved(m, u, t) {
          SolventAt(m, u, t);
        }
        FundsSound(m, w, m.balances);
    }
  }
}
