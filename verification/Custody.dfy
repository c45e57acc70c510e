/** The darkpool's wallet always covers what it owes its users. */
module Custody {
  import opened Prelude
  import opened FixedPoint
  import opened OrderBook
  import opened Soundness
  import opened Safety
  import opened Stages

  // ---- sums over accounts ----------------------------------------------------------------

  ghost function SumOver(accounts: set<(Address, Address)>, b: Balances, token: Address): nat {
    if accounts == {} then 0
    else
      var a :| a in accounts;
      (if a.1 == token then BalanceOf(b, a.0, a.1) else 0) + SumOver(accounts - {a}, b, token)
  }

  lemma {:induction false} SumOverPick(accounts: set<(Address, Address)>, b: Balances, token: Address,
                                       a: (Address, Address))
    requires a in accounts
    ensures SumOver(accounts, b, token)
            == (if a.1 == token then BalanceOf(b, a.0, a.1) else 0) + SumOver(accounts - {a}, b, token)
  {
    var x :| x in accounts && SumOver(accounts, b, token)
                              == (if x.1 == token then BalanceOf(b, x.0, x.1) else 0)
                                + SumOver(accounts - {x}, b, token);
    if x != a {
      SumOverPick(accounts - {x}, b, token, a);
      SumOverPick(accounts - {a}, b, token, x);
      assert accounts - {x} - {a} == accounts - {a} - {x};
    }
  }

  lemma {:induction false} SumOverFrame(accounts: set<(Address, Address)>, b: Balances, b': Balances, token: Address)
    requires forall a :: a in accounts ==> BalanceOf(b, a.0, a.1) == BalanceOf(b', a.0, a.1)
    ensures SumOver(accounts, b, token) == SumOver(accounts, b', token)
  {
    if accounts != {} {
      var a :| a in accounts;
      SumOverPick(accounts, b, token, a);
      SumOverPick(accounts, b', token, a);
      SumOverFrame(accounts - {a}, b, b', token);
    }
  }

  /** Total internal balance of a token over all users. */
  ghost function Owed(b: Balances, token: Address): nat {
    SumOver(b.Keys, b, token)
  }

  lemma OwedUpdate(b: Balances, user: Address, token: Address, amount: u128, t: Address)
    ensures Owed(b[(user, token) := amount], t) as int == Owed(b, t)
            + (if t == token then amount - BalanceOf(b, user, token) else 0)
  {
    var a := (user, token);
    var b' := b[a := amount];
    SumOverPick(b'.Keys, b', t, a);
    SumOverFrame(b'.Keys - {a}, b, b', t);
    if a in b {
      assert b'.Keys == b.Keys;
      SumOverPick(b.Keys, b, t, a);
    } else {
      assert b'.Keys - {a} == b.Keys;
    }
  }

  lemma SomeoneIsOwed(b: Balances, user: Address, token: Address)
    ensures Owed(b, token) >= BalanceOf(b, user, token)
  {
    if (user, token) in b {
      SumOverPick(b.Keys, b, token, (user, token));
    }
  }

  // ---- calls -----------------------------------------------------------------------------

  /** A token's holding in the darkpool's wallet beyond what users are owed. */
  ghost function Surplus(m: Market, token: Address): int {
    WalletOf(m.wallets, DARKPOOL_ADDRESS, token) - Owed(m.balances, token)
  }

  lemma ExchangeConserves(b: Balances, k: BookKey, makerIsBid: bool, taker: Address, maker: Address, fill: u128,
                          quote: u128, paid: Balances, t: Address)
    requires Exchange(b, k, makerIsBid, taker, maker, fill, quote) == Ok(paid)
    ensures Owed(paid, t) == Owed(b, t)
  {
    hide Owed, BalanceOf;
    var pay, payment := if makerIsBid then k.base else k.quote, if makerIsBid then fill else quote;
    var buy, amount := if makerIsBid then k.quote else k.base, if makerIsBid then quote else fill;
    var b1 := Debit(b, taker, pay, payment).value;
    var b2 := Credit(b1, taker, buy, amount).value;
    var b3 := Debit(b2, maker, buy, amount).value;
    OwedUpdate(b, taker, pay, BalanceOf(b, taker, pay) - payment, t);
    OwedUpdate(b1, taker, buy, BalanceOf(b1, taker, buy) + amount, t);
    OwedUpdate(b2, maker, buy, BalanceOf(b2, maker, buy) - amount, t);
    OwedUpdate(b3, maker, pay, BalanceOf(b3, maker, pay) + payment, t);
  }

  /** Matching only moves value between users. */
  lemma {:induction false} CrossConserves(m: Market, k: BookKey, makerIsBid: bool, takerId: nat, taker: Address,
                                          limit: u128, want: u128, t: Address)
    requires k in m.books
    ensures var r := Cross(m, k, makerIsBid, takerId, taker, limit, want);
            r.Ok? ==> Owed(r.value.market.balances, t) == Owed(m.balances, t) && r.value.market.wallets == m.wallets
    decreases |SideOf(m.books[k], makerIsBid)| + want
  {
    hide Cross, FillBest, Exchange, Owed, QuoteFloor;
    var side := SideOf(m.books[k], makerIsBid);
    if want == 0 || side == [] || !Crosses(makerIsBid, side[0].price, limit) {
      CrossEnds(m, k, makerIsBid, takerId, taker, limit, want);
    } else {
      CrossTurn(m, k, makerIsBid, takerId, taker, limit, want);
      var r := FillBest(m, k, makerIsBid, takerId, taker, want);
      if r.Ok? {
        FillFacts(m, k, makerIsBid, takerId, taker, want, r.value);
        ExchangeConserves(m.balances, k, makerIsBid, taker, side[0].maker, r.value.amount, r.value.quote,
          r.value.market.balances, t);
        CrossConserves(r.value.market, k, makerIsBid, takerId, taker, limit, want - r.value.amount, t);
      }
    }
  }

  lemma EnsureBalanceDrift(rules: Tip20, m: Market, user: Address, token: Address, required: u128, t: Address)
    ensures var r := EnsureBalance(rules, m, user, token, required);
            r.Ok? ==> Surplus(r.value, t) == Surplus(m, t)
                      - (if user == DARKPOOL_ADDRESS && t == token then Shortfall(m, user, token, required) else 0)
  {
    hide Owed, Available;
    var available := Available(m, user, token);
    if available.Ok? && available.value < required
      && BalanceOf(m.balances, user, token) + (required - available.value) <= U128_MAX {
      OwedUpdate(m.balances, user, token, BalanceOf(m.balances, user, token) + (required - available.value), t);
    }
  }

  lemma TookDrift(rules: Tip20, m: Market, sender: Address, k: BookKey, amount: u128, limit: u128, isBid: bool,
                  s: Stage, t: Address)
    requires Sound(m, LANDED) && Took(rules, m, sender, k, amount, limit, isBid, s)
    ensures var token := GivenToken(k, isBid);
            Surplus(s.crossed.market, t)
            == Surplus(m, t)
               - (if sender == DARKPOOL_ADDRESS && t == token
                  then Shortfall(m, sender, token, Need(!isBid, limit, amount)) else 0)
  {
    hide Owed, Cross, EnsureBalance, Sound, Reserved, Shortfall;
    ListingKeepsShortfall(rules, m, k, sender, GivenToken(k, isBid), Need(!isBid, limit, amount), s.listed);
    EnsureBalanceDrift(rules, s.listed, sender, GivenToken(k, isBid), Need(!isBid, limit, amount), t);
    CrossConserves(Submit(s.funded, s.submitted), k, !isBid, m.nextId, sender, limit, amount, t);
  }

  lemma DepositDrift(rules: Tip20, m: Market, sender: Address, token: Address, amount: u128, t: Address)
    ensures var r := CallDeposit(rules, m, sender, token, amount);
            r.Ok? ==> Surplus(r.value.market, t) == Surplus(m, t)
                      - (if sender == DARKPOOL_ADDRESS && t == token then amount else 0)
  {
    hide Owed;
    if BalanceOf(m.balances, sender, token) + amount <= U128_MAX {
      OwedUpdate(m.balances, sender, token, BalanceOf(m.balances, sender, token) + amount, t);
    }
  }

  lemma WithdrawDrift(rules: Tip20, m: Market, sender: Address, token: Address, amount: u128, t: Address)
    ensures var r := CallWithdraw(rules, m, sender, token, amount);
            r.Ok? ==> Surplus(r.value.market, t) == Surplus(m, t)
                      + (if sender == DARKPOOL_ADDRESS && t == token then amount else 0)
  {
    hide Owed, Available;
    if BalanceOf(m.balances, sender, token) >= amount {
      OwedUpdate(m.balances, sender, token, BalanceOf(m.balances, sender, token) - amount, t);
    }
  }

  /** The transfer between a sender's wallet and the darkpool that a call would make. */
  function Transferred(m: Market, sender: Address, call: Call): (Address, int) {
    match call
    case Deposit(token, amount) => (token, amount)
    case Withdraw(token, amount) => (token, amount)
    case Place(base, quote, amount, price, isBid, _) =>
      var token := GivenToken(BookKey(base, quote), isBid);
      (token, Shortfall(m, sender, token, Need(!isBid, price, amount)))
    case MarketOrder(base, quote, amount, guard, isBuy, _) =>
      var token := GivenToken(BookKey(base, quote), isBuy);
      (token, Shortfall(m, sender, token, Need(!isBuy, guard, amount)))
    case _ => (ZERO_ADDRESS, 0)
  }

  /** How far a call moves the surplus: only when the darkpool would pay itself. */
  lemma ExecuteDrift(rules: Tip20, m: Market, sender: Address, call: Call, t: Address)
    requires Sound(m, LANDED) && Execute(rules, m, sender, call).Ok?
    ensures var (token, amount) := Transferred(m, sender, call);
            Surplus(Execute(rules, m, sender, call).value.market, t)
            == Surplus(m, t)
               + (if sender != DARKPOOL_ADDRESS || t != token then 0 else if call.Withdraw? then amount else -amount)
  {
    hide Owed, CallPlace, CallMarketOrder, CallDeposit, CallWithdraw, Cross, Took, Rest, Sound, Shortfall;
    var r := Execute(rules, m, sender, call);
    match call
    case CreatePair(base, quote) =>
    case Deposit(token, amount) => DepositDrift(rules, m, sender, token, amount, t);
    case Withdraw(token, amount) => WithdrawDrift(rules, m, sender, token, amount, t);
    case Place(base, quote, amount, price, isBid, tif) =>
      var s := PlaceStages(rules, m, sender, base, quote, amount, price, isBid, tif, r.value);
      TookDrift(rules, m, sender, BookKey(base, quote), amount, price, isBid, s, t);
      if s.crossed.left != 0 {
        RestKeepsFunds(s, BookKey(base, quote), isBid, Resting(m.nextId, sender, price, s.crossed.left));
      }
    case Cancel(id) =>
    case MarketOrder(base, quote, amount, guard, isBuy, tif) =>
      var s := MarketStages(rules, m, sender, base, quote, amount, guard, isBuy, tif, r.value);
      TookDrift(rules, m, sender, BookKey(base, quote), amount, guard, isBuy, s, t);
  }

  /**
    A call leaves the difference between the wallet and what users are owed unchanged for every
    token, exactly unless the darkpool itself calls and would transfer something.
   */
  lemma ExecuteConservesIff(rules: Tip20, m: Market, sender: Address, call: Call)
    requires Sound(m, LANDED) && Execute(rules, m, sender, call).Ok?
    ensures (forall t :: Surplus(Execute(rules, m, sender, call).value.market, t) == Surplus(m, t))
            <==> sender != DARKPOOL_ADDRESS || Transferred(m, sender, call).1 == 0
  {
    hide Execute, Surplus, Transferred, Sound;
    forall t {
      ExecuteDrift(rules, m, sender, call, t);
    }
    ExecuteDrift(rules, m, sender, call, Transferred(m, sender, call).0);
  }

  lemma RestKeepsFunds(s: Stage, k: BookKey, isBid: bool, o: Resting)
    requires k in s.crossed.market.books
    ensures Rest(s.crossed.market, k, isBid, o).wallets == s.crossed.market.wallets
    ensures Rest(s.crossed.market, k, isBid, o).balances == s.crossed.market.balances
  {
  }

  // ---- whole runs ------------------------------------------------------------------------

  /** Nobody holds the key of the precompile's own address. */
  ghost predicate CalledByUsers(steps: seq<Step>) {
    forall i :: 0 <= i < |steps| && steps[i].Called? ==> steps[i].sender != DARKPOOL_ADDRESS
  }

  /** In every reachable market the darkpool can pay everyone at once. */
  lemma {:induction false} RunCovered(steps: seq<Step>, t: Address)
    requires CalledByUsers(steps)
    ensures Surplus(Run(steps), t) >= 0
  {
    hide Execute, Owed;
    if steps == [] {
      OwedNothing(t);
    } else {
      var m, step := Run(steps[..|steps| - 1]), steps[|steps| - 1];
      RunCovered(steps[..|steps| - 1], t);
      if step.Called? {
        RunSound(steps[..|steps| - 1]);
        if Execute(step.rules, m, step.sender, step.call).Ok? {
          hide Surplus, Sound;
          ExecuteDrift(step.rules, m, step.sender, step.call, t);
        }
      }
    }
  }

  lemma OwedNothing(t: Address)
    ensures Owed(map[], t) == 0
  {
  }

  /**
    A transfer of `amount` into the darkpool, or out of it when negative: the user's balance and
    the two wallets move by it, and nothing else changes.
   */
  ghost predicate Moved(m: Market, m': Market, user: Address, token: Address, amount: int) {
    && m' == m.(wallets := m'.wallets, balances := m'.balances)
    && (forall u, t ::
          BalanceOf(m'.balances, u, t) as int
          == BalanceOf(m.balances, u, t) + (if u == user && t == token then amount else 0))
    && (forall u, t ::
          WalletOf(m'.wallets, u, t) as int
          == WalletOf(m.wallets, u, t) + (if u == DARKPOOL_ADDRESS && t == token then amount else 0)
             - (if u == user && t == token then amount else 0))
  }

  /**
    A deposit is accepted exactly when the token exists and does not refuse the user, the wallet
    holds the amount and the balance has room for it; it moves exactly the amount.
   */
  lemma DepositAcceptedIff(rules: Tip20, m: Market, sender: Address, token: Address, amount: u128)
    ensures var r := Execute(rules, m, sender, Deposit(token, amount));
            && (r.Ok? <==> && token in rules.tokens && (sender, token) !in rules.blocked
                           && amount <= WalletOf(m.wallets, sender, token)
                           && BalanceOf(m.balances, sender, token) + amount <= U128_MAX)
            && (r.Ok? ==> r.value.output == Done && Moved(m, r.value.market, sender, token, amount))
            && (r.Err? ==>
                  r.error == if token !in rules.tokens then NotATip20
                             else if (sender, token) in rules.blocked || WalletOf(m.wallets, sender, token) < amount
                             then TransferRefused else Arithmetic(Overflow))
  {
  }

  /**
    After any run of users' calls, a withdrawal is accepted exactly when the token exists and does
    not refuse the user, and the balance covers it beyond the reservations; it moves exactly the
    amount.
   */
  lemma WithdrawalPays(steps: seq<Step>, rules: Tip20, sender: Address, token: Address, amount: u128)
    requires CalledByUsers(steps) && sender != DARKPOOL_ADDRESS
    ensures var m := Run(steps);
            var r := Execute(rules, m, sender, Withdraw(token, amount));
            && (r.Ok? <==> && token in rules.tokens && (sender, token) !in rules.blocked
                           && Reserved(m, sender, token) + amount <= BalanceOf(m.balances, sender, token))
            && (r.Ok? ==> r.value.output == Done && Moved(m, r.value.market, sender, token, -(amount as int)))
            && (r.Err? ==>
                  r.error == if Reserved(m, sender, token) + amount > BalanceOf(m.balances, sender, token)
                             then InsufficientBalance
                             else if token !in rules.tokens then NotATip20 else TransferRefused)
  {
    var m := Run(steps);
    hide Run, Owed, Available, Reserved, Sound;
    RunSound(steps);
    RunCovered(steps, token);
    AvailableIsExact(m, sender, token);
    SolventAt(m, sender, token);
    SomeoneIsOwed(m.balances, sender, token);
  }

  /** A deposit of the darkpool to itself goes through whenever its wallet holds the amount. */
  lemma SelfDepositStep(m: Market, rules: Tip20, token: Address, amount: u128)
    requires Sound(m, LANDED) && token in rules.tokens && rules.blocked == {}
    requires amount <= WalletOf(m.wallets, DARKPOOL_ADDRESS, token)
    requires BalanceOf(m.balances, DARKPOOL_ADDRESS, token) + amount <= U128_MAX
    ensures var m' := Next(m, Called(rules, DARKPOOL_ADDRESS, Deposit(token, amount)));
            && Surplus(m', token) == Surplus(m, token) - amount
            && WalletOf(m'.wallets, DARKPOOL_ADDRESS, token) == WalletOf(m.wallets, DARKPOOL_ADDRESS, token)
            && BalanceOf(m'.balances, DARKPOOL_ADDRESS, token)
               == BalanceOf(m.balances, DARKPOOL_ADDRESS, token) + amount
  {
    hide Sound, Owed;
    DepositDrift(rules, m, DARKPOOL_ADDRESS, token, amount, token);
  }

  /** The one account the law does not cover: depositing to itself twice, the darkpool owes more than it holds. */
  lemma SelfDepositBreaksCustody()
    ensures exists steps, token :: Surplus(Run(steps), token) < 0
  {
    var rules: Tip20 := TokenRules({1}, {});
    var deposit := Called(rules, DARKPOOL_ADDRESS, Deposit(1, 5));
    var s1 := [Elsewhere(map[(DARKPOOL_ADDRESS, 1) := 5])];
    var s2 := s1 + [deposit];
    var s3 := s2 + [deposit];
    assert s1[..0] == [] && s2[..1] == s1 && s3[..2] == s2;
    assert Run(s1) == GENESIS.(wallets := map[(DARKPOOL_ADDRESS, 1) := 5]);
    OwedNothing(1);
    assert Surplus(Run(s1), 1) == 5;
    RunSound(s1);
    RunSound(s2);
    hide Sound, Surplus, Next;
    SelfDepositStep(Run(s1), rules, 1, 5);
    SelfDepositStep(Run(s2), rules, 1, 5);
    assert Surplus(Run(s3), 1) < 0;
  }
}
