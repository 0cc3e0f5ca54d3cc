/**
 * The trading-account ledger as a value: the state an `Account` holds, the
 * transition each mutating call makes (or the error it raises instead), and the
 * valuation of a state against the price oracle.  The class in module Accounts
 * implements these transitions in place; this module is their specification.
 */
module Ledger {
  import opened Wrappers
  import Prices

  /** The wall-clock reading a transaction is stamped with (supplied by the caller). */
  type Instant = int

  /** The four values of a transaction's `type` field. */
  datatype Kind = Deposit | Withdrawal | Buy | Sell

  /** An immutable transaction record; the optional fields are `None` where the source leaves them unset. */
  datatype Transaction = Transaction(
    timestamp: Instant,
    kind: Kind,
    amount: real,
    symbol: Option<string>,
    quantity: Option<int>,
    pricePerShare: Option<real>)

  /** A deposit or withdrawal record: only `amount` is set. */
  function CashRecord(kind: Kind, amount: real, now: Instant): Transaction
  {
    Transaction(now, kind, amount, None, None, None)
  }

  /** A buy or sell record: `amount` keeps its default of 0.0. */
  function TradeRecord(kind: Kind, symbol: string, quantity: int, price: real, now: Instant): Transaction
  {
    Transaction(now, kind, 0.0, Some(symbol), Some(quantity), Some(price))
  }

  /** The reasons a call is refused: within each call, one constructor per `ValueError` it can raise. */
  datatype Error =
    | AlreadyCreated
    | NonPositiveAmount
    | NonPositiveQuantity
    | InsufficientFunds
    | InsufficientShares
    | UnknownSymbol

  /** The four fields of an account. */
  datatype Book = Book(
    cash: real,
    holdings: map<string, int>,
    log: seq<Transaction>,
    initialDeposit: real)

  /** A freshly constructed account. */
  const Empty: Book := Book(0.0, map[], [], 0.0)

  /** The ledger invariant: no overdraft, no zero or negative position, every position priceable. */
  predicate Valid(b: Book)
  {
    && b.cash >= 0.0
    && b.initialDeposit >= 0.0
    && b.holdings.Keys <= Prices.Listed
    && forall s :: s in b.holdings ==> b.holdings[s] > 0
  }

  /** `holdings.get(symbol, 0)`. */
  function Held(h: map<string, int>, symbol: string): int
  {
    if symbol in h then h[symbol] else 0
  }

  /** The holdings after buying `quantity` shares of `symbol`. */
  function AddShares(h: map<string, int>, symbol: string, quantity: int): map<string, int>
  {
    h[symbol := Held(h, symbol) + quantity]
  }

  /** The holdings after selling `quantity` shares of `symbol`; a position that reaches 0 is deleted. */
  function RemoveShares(h: map<string, int>, symbol: string, quantity: int): map<string, int>
  {
    var left := Held(h, symbol) - quantity;
    if left == 0 then h - {symbol} else h[symbol := left]
  }

  /** The market value of `quantity` shares of `symbol` at the oracle's price (0 if it cannot be priced). */
  function Worth(symbol: string, quantity: int): real
  {
    match Prices.SharePrice(symbol)
    case Some(price) => price * quantity as real
    case None => 0.0
  }

  // ---------------------------------------------------------------------------
  // The mutating calls.  Each validates first and either fails with the state
  // untouched (an `Err`) or commits the whole update (an `Ok` with the new state).
  // ---------------------------------------------------------------------------

  /** `create_account(initial_deposit)`. */
  function ApplyCreate(b: Book, initialDeposit: real, now: Instant): (r: Result<Book, Error>)
    ensures b.initialDeposit > 0.0 ==> r == Err(AlreadyCreated)
    ensures b.initialDeposit <= 0.0 && initialDeposit <= 0.0 ==> r == Err(NonPositiveAmount)
    ensures r.Ok? <==> b.initialDeposit <= 0.0 && initialDeposit > 0.0
    ensures r.Ok? ==>
      && r.value.cash == initialDeposit
      && r.value.initialDeposit == initialDeposit
      && r.value.holdings == b.holdings
      && r.value.log == b.log + [CashRecord(Deposit, initialDeposit, now)]
    ensures r.Ok? && Valid(b) ==> Valid(r.value)
  {
    if b.initialDeposit > 0.0 then Err(AlreadyCreated)
    else if initialDeposit <= 0.0 then Err(NonPositiveAmount)
    else Ok(b.(cash := initialDeposit,
               initialDeposit := initialDeposit,
               log := b.log + [CashRecord(Deposit, initialDeposit, now)]))
  }

  /** `deposit(amount)`; note that it does not check that the account was created. */
  function ApplyDeposit(b: Book, amount: real, now: Instant): (r: Result<Book, Error>)
    ensures r.Err? <==> amount <= 0.0
    ensures r.Err? ==> r.error == NonPositiveAmount
    ensures r.Ok? ==>
      && r.value.cash == b.cash + amount
      && r.value.holdings == b.holdings
      && r.value.initialDeposit == b.initialDeposit
      && r.value.log == b.log + [CashRecord(Deposit, amount, now)]
    ensures r.Ok? && Valid(b) ==> Valid(r.value)
  {
    if amount <= 0.0 then Err(NonPositiveAmount)
    else Ok(b.(cash := b.cash + amount, log := b.log + [CashRecord(Deposit, amount, now)]))
  }

  /** `withdraw(amount)`: the sign of the amount is checked before the balance. */
  function ApplyWithdraw(b: Book, amount: real, now: Instant): (r: Result<Book, Error>)
    ensures amount <= 0.0 ==> r == Err(NonPositiveAmount)
    ensures 0.0 < amount && b.cash < amount ==> r == Err(InsufficientFunds)
    ensures r.Ok? <==> 0.0 < amount <= b.cash
    ensures r.Ok? ==>
      && r.value.cash == b.cash - amount
      && r.value.cash >= 0.0
      && r.value.holdings == b.holdings
      && r.value.initialDeposit == b.initialDeposit
      && r.value.log == b.log + [CashRecord(Withdrawal, amount, now)]
    ensures r.Ok? && Valid(b) ==> Valid(r.value)
  {
    if amount <= 0.0 then Err(NonPositiveAmount)
    else if amount > b.cash then Err(InsufficientFunds)
    else Ok(b.(cash := b.cash - amount, log := b.log + [CashRecord(Withdrawal, amount, now)]))
  }

  /** `buy(symbol, quantity)`: quantity, then symbol, then cost are checked. */
  function ApplyBuy(b: Book, symbol: string, quantity: int, now: Instant): (r: Result<Book, Error>)
    ensures quantity <= 0 ==> r == Err(NonPositiveQuantity)
    ensures quantity > 0 && symbol !in Prices.Listed ==> r == Err(UnknownSymbol)
    ensures quantity > 0 && symbol in Prices.Listed && Worth(symbol, quantity) > b.cash ==> r == Err(InsufficientFunds)
    ensures r.Ok? <==> quantity > 0 && symbol in Prices.Listed && Worth(symbol, quantity) <= b.cash
    ensures r.Ok? ==>
      && r.value.cash == b.cash - Worth(symbol, quantity)
      && r.value.cash >= 0.0
      && Held(r.value.holdings, symbol) == Held(b.holdings, symbol) + quantity
      && symbol in r.value.holdings
      && r.value.holdings - {symbol} == b.holdings - {symbol}
      && r.value.initialDeposit == b.initialDeposit
      && r.value.log == b.log + [TradeRecord(Buy, symbol, quantity, Prices.SharePrice(symbol).value, now)]
    ensures r.Ok? && Valid(b) ==> Valid(r.value)
  {
    if quantity <= 0 then Err(NonPositiveQuantity)
    else match Prices.SharePrice(symbol)
      case None => Err(UnknownSymbol)
      case Some(price) =>
        var totalCost := price * quantity as real;
        if totalCost > b.cash then Err(InsufficientFunds)
        else Ok(b.(cash := b.cash - totalCost,
                   holdings := AddShares(b.holdings, symbol, quantity),
                   log := b.log + [TradeRecord(Buy, symbol, quantity, price, now)]))
  }

  /** `sell(symbol, quantity)`: quantity, then shares held, then symbol are checked. */
  function ApplySell(b: Book, symbol: string, quantity: int, now: Instant): (r: Result<Book, Error>)
    ensures quantity <= 0 ==> r == Err(NonPositiveQuantity)
    ensures 0 < quantity && Held(b.holdings, symbol) < quantity ==> r == Err(InsufficientShares)
    ensures 0 < quantity <= Held(b.holdings, symbol) && symbol !in Prices.Listed ==> r == Err(UnknownSymbol)
    ensures r.Ok? <==> 0 < quantity <= Held(b.holdings, symbol) && symbol in Prices.Listed
    ensures r.Ok? ==>
      && r.value.cash == b.cash + Worth(symbol, quantity)
      && Held(r.value.holdings, symbol) == Held(b.holdings, symbol) - quantity
      && (symbol in r.value.holdings <==> Held(b.holdings, symbol) > quantity)
      && r.value.holdings - {symbol} == b.holdings - {symbol}
      && r.value.initialDeposit == b.initialDeposit
      && r.value.log == b.log + [TradeRecord(Sell, symbol, quantity, Prices.SharePrice(symbol).value, now)]
    ensures r.Ok? && Valid(b) ==> Valid(r.value)
  {
    if quantity <= 0 then Err(NonPositiveQuantity)
    else
      var current := Held(b.holdings, symbol);
      if quantity > current then Err(InsufficientShares)
      else match Prices.SharePrice(symbol)
        case None => Err(UnknownSymbol)
        case Some(price) =>
          var proceeds := price * quantity as real;
          Ok(b.(cash := b.cash + proceeds,
                holdings := RemoveShares(b.holdings, symbol, quantity),
                log := b.log + [TradeRecord(Sell, symbol, quantity, price, now)]))
  }

  /** The state after a call: the committed state, or the old one when the call failed. */
  function After(b: Book, r: Result<Book, Error>): Book
  {
    if r.Ok? then r.value else b
  }

  /** What the caller sees of a call: success, or the error it raised. */
  function Status(r: Result<Book, Error>): Outcome<Error>
  {
    if r.Ok? then Pass else Fail(r.error)
  }

  // ---------------------------------------------------------------------------
  // Any sequence of calls.
  // ---------------------------------------------------------------------------

  /** One call to a mutating method of `Account`. */
  datatype Request =
    | CreateAccount(initialDeposit: real)
    | DepositFunds(amount: real)
    | WithdrawFunds(amount: real)
    | BuyShares(symbol: string, quantity: int)
    | SellShares(symbol: string, quantity: int)

  function Apply(b: Book, req: Request, now: Instant): Result<Book, Error>
  {
    match req
    case CreateAccount(d) => ApplyCreate(b, d, now)
    case DepositFunds(a) => ApplyDeposit(b, a, now)
    case WithdrawFunds(a) => ApplyWithdraw(b, a, now)
    case BuyShares(s, q) => ApplyBuy(b, s, q, now)
    case SellShares(s, q) => ApplySell(b, s, q, now)
  }

  /** The state after the calls in `calls`, made in order, each at its own instant. */
  function Run(b: Book, calls: seq<(Request, Instant)>): Book
    decreases |calls|
  {
    if calls == [] then b
    else Run(After(b, Apply(b, calls[0].0, calls[0].1)), calls[1..])
  }

  // ---------------------------------------------------------------------------
  // The transaction log as an audit trail.
  // ---------------------------------------------------------------------------

  /** The effect of one record on the holdings (deposits and withdrawals leave them alone). */
  function ReplayShares(h: map<string, int>, t: Transaction): map<string, int>
  {
    if t.symbol.None? || t.quantity.None? then h
    else match t.kind
      case Buy => AddShares(h, t.symbol.value, t.quantity.value)
      case Sell => RemoveShares(h, t.symbol.value, t.quantity.value)
      case _ => h
  }

  /** The holdings that replaying `log` from an empty account produces. */
  function HoldingsOf(log: seq<Transaction>): map<string, int>
  {
    if log == [] then map[] else ReplayShares(HoldingsOf(log[..|log| - 1]), log[|log| - 1])
  }

  /** The holdings agree with the log. */
  predicate Audited(b: Book)
  {
    b.holdings == HoldingsOf(b.log)
  }

  /** The cash one record moves: a buy costs, and a sell brings in, price times quantity. */
  function CashFlow(t: Transaction): real
  {
    match t.kind
    case Deposit => t.amount
    case Withdrawal => -t.amount
    case Buy => if t.pricePerShare.Some? && t.quantity.Some? then -(t.pricePerShare.value * t.quantity.value as real) else 0.0
    case Sell => if t.pricePerShare.Some? && t.quantity.Some? then t.pricePerShare.value * t.quantity.value as real else 0.0
  }

  /** The net cash moved by all of `log`. */
  function NetCash(log: seq<Transaction>): real
  {
    if log == [] then 0.0 else NetCash(log[..|log| - 1]) + CashFlow(log[|log| - 1])
  }

  /** The cash balance agrees with the log. */
  predicate CashAudited(b: Book)
  {
    b.cash == NetCash(b.log)
  }

  // ---------------------------------------------------------------------------
  // Valuation.
  // ---------------------------------------------------------------------------

  /** The sum of `Worth(s, h[s])` over the positions in `h`, in no particular order. */
  ghost function MarketValue(h: map<string, int>): real
    decreases |h|
  {
    if h == map[] then 0.0
    else
      var s :| s in h;
      assert |h - {s}| < |h| by { assert (h - {s}).Keys == h.Keys - {s}; }
      Worth(s, h[s]) + MarketValue(h - {s})
  }

  /** Any one position can be taken out of the sum first: the sum does not depend on the order. */
  lemma {:induction false} MarketValueRemove(h: map<string, int>, symbol: string)
    requires symbol in h
    ensures MarketValue(h) == Worth(symbol, h[symbol]) + MarketValue(h - {symbol})
    decreases |h|
  {
    var s :| s in h && MarketValue(h) == Worth(s, h[s]) + MarketValue(h - {s});
    if s != symbol {
      assert (h - {s}).Keys == h.Keys - {s};
      assert (h - {symbol}).Keys == h.Keys - {symbol};
      MarketValueRemove(h - {s}, symbol);
      MarketValueRemove(h - {symbol}, s);
      assert h - {s} - {symbol} == h - {symbol} - {s};
    }
  }

  /** A position in a symbol the oracle can price is worth its price times its count. */
  lemma WorthAtPrice(symbol: string, quantity: int, price: real)
    requires Prices.SharePrice(symbol) == Some(price)
    ensures Worth(symbol, quantity) == price * quantity as real
  {
  }

  /**
   * One step of summing the positions: a position the oracle prices at `price`
   * splits off as `value`, its price times its count, and taking it out shrinks
   * the map, which is what the summing loop's `decreases` needs.
   */
  lemma PricedStep(h: map<string, int>, symbol: string, price: real, value: real)
    requires symbol in h && Prices.SharePrice(symbol) == Some(price)
    requires value == price * h[symbol] as real
    ensures MarketValue(h) == value + MarketValue(h - {symbol})
    ensures |h - {symbol}| < |h|
  {
    WorthAtPrice(symbol, h[symbol], price);
    MarketValueRemove(h, symbol);
    assert (h - {symbol}).Keys == h.Keys - {symbol};
  }

  /** `get_portfolio_value()`: cash plus the market value of the holdings. */
  ghost function PortfolioValue(b: Book): real
  {
    b.cash + MarketValue(b.holdings)
  }

  /** `get_profit_loss()`: portfolio value against the initial deposit. */
  ghost function ProfitLoss(b: Book): real
  {
    PortfolioValue(b) - b.initialDeposit
  }
}
