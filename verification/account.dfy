/**
 * The `Account` class: one trading account whose fields every mutating call
 * updates in place.  Each mutator validates before it touches a field, so a
 * refused call leaves the object exactly as it was; its contract ties the
 * outcome and the new state to the matching transition of module Ledger.
 */
module Accounts {
  import opened Wrappers
  import Prices
  import opened Ledger

  class Account {
    var cash: real
    var holdings: map<string, int>
    var transactions: seq<Transaction>
    var initialDeposit: real

    /** The account's state as a value. */
    function Snapshot(): Book
      reads this
    {
      Book(cash, holdings, transactions, initialDeposit)
    }

    /** The object invariant: the ledger invariant, and holdings that agree with the log. */
    ghost predicate Valid()
      reads this
    {
      Ledger.Valid(Snapshot()) && Audited(Snapshot())
    }

    /** `Account()`: no cash, no holdings, no transactions, not yet created. */
    constructor ()
      ensures Snapshot() == Empty
      ensures Valid()
    {
      cash := 0.0;
      holdings := map[];
      transactions := [];
      initialDeposit := 0.0;
    }

    method CreateAccount(deposit: real, now: Instant) returns (r: Outcome<Error>)
      modifies this
      ensures r == Status(ApplyCreate(old(Snapshot()), deposit, now))
      ensures Snapshot() == After(old(Snapshot()), ApplyCreate(old(Snapshot()), deposit, now))
      ensures old(Valid()) ==> Valid()
    {
      if initialDeposit > 0.0 {
        return Fail(AlreadyCreated);
      }
      if deposit <= 0.0 {
        return Fail(NonPositiveAmount);
      }
      cash := deposit;
      initialDeposit := deposit;
      transactions := transactions + [CashRecord(Ledger.Deposit, deposit, now)];
      r := Pass;
    }

    method Deposit(amount: real, now: Instant) returns (r: Outcome<Error>)
      modifies this
      ensures r == Status(ApplyDeposit(old(Snapshot()), amount, now))
      ensures Snapshot() == After(old(Snapshot()), ApplyDeposit(old(Snapshot()), amount, now))
      ensures old(Valid()) ==> Valid()
    {
      if amount <= 0.0 {
        return Fail(NonPositiveAmount);
      }
      cash := cash + amount;
      transactions := transactions + [CashRecord(Ledger.Deposit, amount, now)];
      r := Pass;
    }

    method Withdraw(amount: real, now: Instant) returns (r: Outcome<Error>)
      modifies this
      ensures r == Status(ApplyWithdraw(old(Snapshot()), amount, now))
      ensures Snapshot() == After(old(Snapshot()), ApplyWithdraw(old(Snapshot()), amount, now))
      ensures old(Valid()) ==> Valid()
    {
      if amount <= 0.0 {
        return Fail(NonPositiveAmount);
      }
      if amount > cash {
        return Fail(InsufficientFunds);
      }
      cash := cash - amount;
      transactions := transactions + [CashRecord(Withdrawal, amount, now)];
      r := Pass;
    }

    method Buy(symbol: string, quantity: int, now: Instant) returns (r: Outcome<Error>)
      modifies this
      ensures r == Status(ApplyBuy(old(Snapshot()), symbol, quantity, now))
      ensures Snapshot() == After(old(Snapshot()), ApplyBuy(old(Snapshot()), symbol, quantity, now))
      ensures old(Valid()) ==> Valid()
    {
      if quantity <= 0 {
        return Fail(NonPositiveQuantity);
      }
      var quote := Prices.SharePrice(symbol);
      if quote.None? {
        return Fail(UnknownSymbol);
      }
      var sharePrice := quote.value;
      var totalCost := sharePrice * quantity as real;
      if totalCost > cash {
        return Fail(InsufficientFunds);
      }
      cash := cash - totalCost;
      holdings := holdings[symbol := Held(holdings, symbol) + quantity];
      transactions := transactions + [TradeRecord(Ledger.Buy, symbol, quantity, sharePrice, now)];
      r := Pass;
    }

    method Sell(symbol: string, quantity: int, now: Instant) returns (r: Outcome<Error>)
      modifies this
      ensures r == Status(ApplySell(old(Snapshot()), symbol, quantity, now))
      ensures Snapshot() == After(old(Snapshot()), ApplySell(old(Snapshot()), symbol, quantity, now))
      ensures old(Valid()) ==> Valid()
    {
      if quantity <= 0 {
        return Fail(NonPositiveQuantity);
      }
      var currentQuantity := Held(holdings, symbol);
      if quantity > currentQuantity {
        return Fail(InsufficientShares);
      }
      var quote := Prices.SharePrice(symbol);
      if quote.None? {
        return Fail(UnknownSymbol);
      }
      var sharePrice := quote.value;
      var totalProceeds := sharePrice * quantity as real;
      var newQuantity := currentQuantity - quantity;
      if newQuantity == 0 {
        holdings := holdings - {symbol};
      } else {
        holdings := holdings[symbol := newQuantity];
      }
      cash := cash + totalProceeds;
      transactions := transactions + [TradeRecord(Ledger.Sell, symbol, quantity, sharePrice, now)];
      r := Pass;
    }

    method GetCashBalance() returns (balance: real)
      ensures balance == cash
      ensures Valid() ==> balance >= 0.0
    {
      balance := cash;
    }

    /** A snapshot of the holdings; being a value, later calls cannot alter it. */
    method GetHoldings() returns (h: map<string, int>)
      ensures h == holdings
      ensures Valid() ==> forall s :: s in h ==> h[s] > 0
    {
      h := holdings;
    }

    /**
     * Cash plus the value of every position, summed one position at a time.
     * A position the oracle cannot price makes the call fail, as in the source;
     * on a valid account that never happens.
     */
    method GetPortfolioValue() returns (r: Result<real, Error>)
      ensures r.Ok? <==> holdings.Keys <= Prices.Listed
      ensures r.Err? ==> r.error == UnknownSymbol
      ensures r.Ok? ==> r.value == PortfolioValue(Snapshot())
      ensures Valid() ==> r.Ok?
    {
      var totalValue := cash;
      var rest := holdings;
      while rest != map[]
        invariant rest.Keys <= holdings.Keys
        invariant holdings.Keys - rest.Keys <= Prices.Listed
        invariant totalValue + MarketValue(rest) == cash + MarketValue(holdings)
        decreases |rest|
      {
        var symbol :| symbol in rest;
        var quantity := rest[symbol];
        var quote := Prices.SharePrice(symbol);
        if quote.None? {
          return Err(UnknownSymbol);
        }
        var positionValue := quote.value * quantity as real;
        PricedStep(rest, symbol, quote.value, positionValue);
        totalValue := totalValue + positionValue;
        rest := rest - {symbol};
      }
      r := Ok(totalValue);
    }

    method GetProfitLoss() returns (r: Result<real, Error>)
      ensures r.Ok? <==> holdings.Keys <= Prices.Listed
      ensures r.Err? ==> r.error == UnknownSymbol
      ensures r.Ok? ==> r.value == PortfolioValue(Snapshot()) - initialDeposit
      ensures Valid() ==> r.Ok?
    {
      var currentValue := GetPortfolioValue();
      if currentValue.Err? {
        return Err(currentValue.error);
      }
      r := Ok(currentValue.value - initialDeposit);
    }

    /** A snapshot of the log, oldest record first. */
    method ListTransactions() returns (log: seq<Transaction>)
      ensures log == transactions
    {
      log := transactions;
    }
  }
}
