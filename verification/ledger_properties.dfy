/**
 * Properties of the ledger that relate several calls: the invariants every
 * call keeps, the log as an append-only audit trail, what a trade does to the
 * portfolio value, and the buy-then-sell round trip.
 */
module LedgerProperties {
  import opened Wrappers
  import Prices
  import opened Ledger

  // ---------------------------------------------------------------------------
  // Every call, and every sequence of calls.
  // ---------------------------------------------------------------------------

  /** Appending a record to the log replays it on top of what the log already gave. */
  lemma AppendRecord(log: seq<Transaction>, t: Transaction)
    ensures (log + [t])[..|log|] == log
    ensures HoldingsOf(log + [t]) == ReplayShares(HoldingsOf(log), t)
    ensures NetCash(log + [t]) == NetCash(log) + CashFlow(t)
  {
    assert (log + [t])[..|log|] == log;
  }

  /** The record a successful call appends. */
  function LastRecord(b: Book, req: Request, now: Instant): (t: Transaction)
    requires Apply(b, req, now).Ok?
    ensures Apply(b, req, now).value.log == b.log + [t]
  {
    match req
    case CreateAccount(d) => CashRecord(Deposit, d, now)
    case DepositFunds(a) => CashRecord(Deposit, a, now)
    case WithdrawFunds(a) => CashRecord(Withdrawal, a, now)
    case BuyShares(s, q) => TradeRecord(Buy, s, q, Prices.SharePrice(s).value, now)
    case SellShares(s, q) => TradeRecord(Sell, s, q, Prices.SharePrice(s).value, now)
  }

  /**
   * One call keeps the ledger invariant and the holdings audit, appends exactly
   * one record when it succeeds (earlier records untouched), changes nothing when
   * it fails, and never changes an initial deposit that is already set.
   */
  lemma ApplyKeepsInvariants(b: Book, req: Request, now: Instant)
    requires Valid(b) && Audited(b)
    ensures var b' := After(b, Apply(b, req, now));
      && Valid(b') && Audited(b')
      && (Apply(b, req, now).Ok? ==> |b'.log| == |b.log| + 1 && b'.log[..|b.log|] == b.log)
      && (Apply(b, req, now).Err? ==> b' == b)
      && (b.initialDeposit > 0.0 ==> b'.initialDeposit == b.initialDeposit)
  {
    if Apply(b, req, now).Ok? {
      AppendRecord(b.log, LastRecord(b, req, now));
    }
  }

  /**
   * Any sequence of calls keeps the invariants, only ever appends to the log
   * (at most one record per call), and never changes a set initial deposit.
   */
  lemma {:induction false} RunKeepsInvariants(b: Book, calls: seq<(Request, Instant)>)
    requires Valid(b) && Audited(b)
    ensures var b' := Run(b, calls);
      && Valid(b') && Audited(b')
      && |b.log| <= |b'.log| <= |b.log| + |calls|
      && b'.log[..|b.log|] == b.log
      && (b.initialDeposit > 0.0 ==> b'.initialDeposit == b.initialDeposit)
    decreases |calls|
  {
    if calls != [] {
      var b1 := After(b, Apply(b, calls[0].0, calls[0].1));
      ApplyKeepsInvariants(b, calls[0].0, calls[0].1);
      RunKeepsInvariants(b1, calls[1..]);
      var b' := Run(b1, calls[1..]);
      assert b'.log[..|b.log|] == b'.log[..|b1.log|][..|b.log|];
    }
  }

  /** Creation succeeds at most once: once created, every later creation is refused. */
  lemma {:induction false} CreatedStaysCreated(b: Book, calls: seq<(Request, Instant)>, d: real, now: Instant)
    requires b.initialDeposit > 0.0
    ensures Run(b, calls).initialDeposit == b.initialDeposit
    ensures ApplyCreate(Run(b, calls), d, now) == Err(AlreadyCreated)
    decreases |calls|
  {
    if calls != [] {
      CreatedStaysCreated(After(b, Apply(b, calls[0].0, calls[0].1)), calls[1..], d, now);
    }
  }

  // ---------------------------------------------------------------------------
  // The cash balance against the log.
  // ---------------------------------------------------------------------------

  /** A successful call moves the cash by what its record shows; creation first resets it to 0. */
  lemma CashFollowsRecord(b: Book, req: Request, now: Instant)
    requires Apply(b, req, now).Ok?
    ensures Apply(b, req, now).value.cash ==
      (if req.CreateAccount? then 0.0 else b.cash) + CashFlow(LastRecord(b, req, now))
  {
  }

  /**
   * Deposits, withdrawals and trades move the cash by exactly the amount their
   * record shows.  Creation assigns the balance rather than adding to it, so it
   * keeps the cash in step with the log only when the balance was 0 before.
   */
  lemma ApplyKeepsCashAudited(b: Book, req: Request, now: Instant)
    requires CashAudited(b)
    ensures req.CreateAccount? && Apply(b, req, now).Ok? ==>
      (CashAudited(After(b, Apply(b, req, now))) <==> b.cash == 0.0)
    ensures !req.CreateAccount? ==> CashAudited(After(b, Apply(b, req, now)))
  {
    if Apply(b, req, now).Ok? {
      AppendRecord(b.log, LastRecord(b, req, now));
      CashFollowsRecord(b, req, now);
    }
  }

  /** On an account already created, every later sequence of calls keeps the cash in step with the log. */
  lemma {:induction false} CreatedAccountStaysCashAudited(b: Book, calls: seq<(Request, Instant)>)
    requires CashAudited(b) && b.initialDeposit > 0.0
    ensures CashAudited(Run(b, calls))
    decreases |calls|
  {
    if calls != [] {
      var req := calls[0].0;
      ApplyKeepsCashAudited(b, req, calls[0].1);
      if req.CreateAccount? {
        assert Apply(b, req, calls[0].1).Err?;
      }
      CreatedAccountStaysCashAudited(After(b, Apply(b, req, calls[0].1)), calls[1..]);
    }
  }

  /**
   * Because `deposit` does not check for creation and `create_account` assigns
   * the balance, money deposited before creation disappears from the balance
   * while its record stays in the log.
   */
  lemma DepositBeforeCreateIsOverwritten(t1: Instant, t2: Instant)
    ensures var b1 := ApplyDeposit(Empty, 100.0, t1);
      && b1.Ok?
      && var b2 := ApplyCreate(b1.value, 50.0, t2);
      && b2.Ok?
      && b2.value.cash == 50.0
      && NetCash(b2.value.log) == 150.0
      && !CashAudited(b2.value)
  {
    var b1 := ApplyDeposit(Empty, 100.0, t1).value;
    var b2 := ApplyCreate(b1, 50.0, t2).value;
    assert b2.log[..1] == b1.log;
    assert b1.log[..0] == [];
    assert NetCash(b1.log) == 100.0;
    assert NetCash(b2.log) == NetCash(b1.log) + 50.0;
  }

  // ---------------------------------------------------------------------------
  // Valuation.
  // ---------------------------------------------------------------------------

  /** Adding a new position adds its worth to the market value. */
  lemma MarketValueAdd(h: map<string, int>, symbol: string, quantity: int)
    requires symbol !in h
    ensures MarketValue(h[symbol := quantity]) == MarketValue(h) + Worth(symbol, quantity)
  {
    MarketValueRemove(h[symbol := quantity], symbol);
    assert h[symbol := quantity] - {symbol} == h;
  }

  /** The market value of `h` with the position in `symbol` taken out and `quantity` shares of it put back. */
  lemma MarketValueReplace(h: map<string, int>, symbol: string, quantity: int)
    ensures MarketValue(h[symbol := quantity]) == MarketValue(h - {symbol}) + Worth(symbol, quantity)
    ensures MarketValue(h) == MarketValue(h - {symbol}) + Worth(symbol, Held(h, symbol))
  {
    MarketValueAdd(h - {symbol}, symbol, quantity);
    assert (h - {symbol})[symbol := quantity] == h[symbol := quantity];
    if symbol in h {
      MarketValueRemove(h, symbol);
    } else {
      assert h - {symbol} == h;
    }
  }

  /** The worth of a position is linear in its size. */
  lemma WorthAdds(symbol: string, m: int, n: int)
    ensures Worth(symbol, m + n) == Worth(symbol, m) + Worth(symbol, n)
  {
  }

  /** A buy at the oracle's price swaps cash for shares of equal worth: value and profit/loss are unchanged. */
  lemma BuyKeepsPortfolioValue(b: Book, symbol: string, quantity: int, now: Instant)
    requires ApplyBuy(b, symbol, quantity, now).Ok?
    ensures PortfolioValue(ApplyBuy(b, symbol, quantity, now).value) == PortfolioValue(b)
    ensures ProfitLoss(ApplyBuy(b, symbol, quantity, now).value) == ProfitLoss(b)
  {
    var b' := ApplyBuy(b, symbol, quantity, now).value;
    var held := Held(b.holdings, symbol);
    assert b'.holdings == b.holdings[symbol := held + quantity];
    MarketValueReplace(b.holdings, symbol, held + quantity);
    WorthAdds(symbol, held, quantity);
  }

  /** A sale at the oracle's price swaps shares for cash of equal worth: value and profit/loss are unchanged. */
  lemma SellKeepsPortfolioValue(b: Book, symbol: string, quantity: int, now: Instant)
    requires ApplySell(b, symbol, quantity, now).Ok?
    ensures PortfolioValue(ApplySell(b, symbol, quantity, now).value) == PortfolioValue(b)
    ensures ProfitLoss(ApplySell(b, symbol, quantity, now).value) == ProfitLoss(b)
  {
    var b' := ApplySell(b, symbol, quantity, now).value;
    var held := Held(b.holdings, symbol);
    var left := held - quantity;
    MarketValueReplace(b.holdings, symbol, left);
    WorthAdds(symbol, left, quantity);
    if left == 0 {
      assert b'.holdings == b.holdings - {symbol};
      assert Worth(symbol, 0) == 0.0;
    } else {
      assert b'.holdings == b.holdings[symbol := left];
    }
  }

  /**
   * Buying and then selling the same quantity of the same symbol restores the
   * cash and the holdings and leaves two new records behind the old log.
   * `Valid` is needed: without it a zero position would be deleted by the sale.
   */
  lemma BuyThenSellRestores(b: Book, symbol: string, quantity: int, t1: Instant, t2: Instant)
    requires Valid(b)
    requires ApplyBuy(b, symbol, quantity, t1).Ok?
    ensures var b1 := ApplyBuy(b, symbol, quantity, t1).value;
      && ApplySell(b1, symbol, quantity, t2).Ok?
      && var b2 := ApplySell(b1, symbol, quantity, t2).value;
      && b2.cash == b.cash
      && b2.holdings == b.holdings
      && b2.initialDeposit == b.initialDeposit
      && |b2.log| == |b.log| + 2
      && b2.log[..|b.log|] == b.log
  {
  }

  // ---------------------------------------------------------------------------
  // Worked examples.
  // ---------------------------------------------------------------------------

  /** A second creation is refused and leaves the balance of the first. */
  lemma CreateTwiceExample(t1: Instant, t2: Instant)
    ensures ApplyCreate(Empty, 1000.0, t1).Ok?
    ensures ApplyCreate(ApplyCreate(Empty, 1000.0, t1).value, 500.0, t2) == Err(AlreadyCreated)
    ensures ApplyCreate(Empty, 1000.0, t1).value.cash == 1000.0
  {
  }

  /** Ten AAPL at 150 cost 1500, more than a fresh 1000 balance. */
  lemma BuyOverBudgetExample(t1: Instant, t2: Instant)
    ensures ApplyCreate(Empty, 1000.0, t1).Ok?
    ensures ApplyBuy(ApplyCreate(Empty, 1000.0, t1).value, "AAPL", 10, t2) == Err(InsufficientFunds)
  {
    Prices.QuotedPrices();
  }

  /** Selling a symbol that is not held is refused whatever the balance. */
  lemma SellUnheldExample(b: Book, now: Instant)
    requires "TSLA" !in b.holdings
    ensures ApplySell(b, "TSLA", 1, now) == Err(InsufficientShares)
  {
  }

  /** Create 2000, buy 5 AAPL (balance 1250), sell them (balance 2000): no profit, no loss. */
  lemma RoundTripExample(t1: Instant, t2: Instant, t3: Instant)
    ensures var b1 := ApplyCreate(Empty, 2000.0, t1);
      && b1.Ok?
      && var b2 := ApplyBuy(b1.value, "AAPL", 5, t2);
      && b2.Ok? && b2.value.cash == 1250.0 && b2.value.holdings == map["AAPL" := 5]
      && var b3 := ApplySell(b2.value, "AAPL", 5, t3);
      && b3.Ok? && b3.value.cash == 2000.0 && b3.value.holdings == map[]
      && ProfitLoss(b3.value) == 0.0
      && |b3.value.log| == 3
  {
  }
}
