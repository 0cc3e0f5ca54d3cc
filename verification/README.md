# Trading-account ledger

A Dafny model of the account ledger behind a trading simulation
(`output/accounts.py`). The ledger is a single account. It holds a cash balance,
a map from share symbol to share count, an append-only log of transaction
records, and the initial deposit that profit and loss are measured against.
Trades are priced by a fixed-table oracle that knows three symbols:
AAPL at 150, TSLA at 700 and GOOGL at 2800.

The model has five modules:

- `Wrappers` has `Option`, `Result` and `Outcome`. These stand in for the
  source's `None` values and its `ValueError`s.
- `Prices` is the price oracle `get_share_price`. An unknown symbol gives `None`.
- `Ledger` is the account's state as a value (`Book`). It has one transition
  function per mutating call (`ApplyCreate`, `ApplyDeposit`, `ApplyWithdraw`,
  `ApplyBuy`, `ApplySell`). Each one returns either the new state or the error
  the source raises. It also has the ledger invariant `Valid`, the audit of the
  log against the holdings and the cash (`Audited`, `CashAudited`), and the
  valuation (`MarketValue`, `PortfolioValue`, `ProfitLoss`).
- `Accounts` has `class Account`. Its fields are the source's four fields, and
  its methods update them in place in the source's order. Each mutator's
  contract ties its outcome and the new state to the matching `Ledger`
  transition. It also promises that the object invariant is kept. The queries
  do not change the object. `GetPortfolioValue` adds up the positions one at a
  time in a loop, as the source does.
- `LedgerProperties` holds lemmas that relate several calls. Any sequence of
  calls keeps the invariants and only appends to the log. A trade at the
  oracle's price leaves the portfolio value unchanged. A buy followed by a sell
  restores cash and holdings. There are also the worked examples of the
  account's intended behaviour.

Money is `real`, so amounts are exact and nothing is rounded. Share counts are
`int`. Each mutator takes the instant to stamp its record with as a parameter
(`now`), in place of reading the clock.

The model follows the code as written, including these behaviours:

- `deposit`, `withdraw`, `buy` and `sell` do not check that the account was
  created. Only `create_account` refuses, and it refuses a second creation by
  testing `initial_deposit > 0`. Because `create_account` assigns the balance
  rather than adding to it, money deposited before creation is lost from the
  balance while its record stays in the log.
  `LedgerProperties.DepositBeforeCreateIsOverwritten` shows this.
- Buy and sell records leave `amount` at 0.0. The cost or the proceeds can be
  recovered from `quantity` and `price_per_share` only.
- `get_portfolio_value` and `get_profit_loss` fail if a held symbol cannot be
  priced. Before creation they are computed from the fields as at any other
  time: the initial deposit is then 0, so profit equals the portfolio value. The
  invariant rules out an unpriceable position, so on a valid account they never
  fail.
- `sell` checks the shares held before it asks the oracle for the price, so
  selling an unheld unknown symbol is refused for insufficient shares.

## Model

| member | source | states |
|---|---|---|
| Prices.SharePrice | output/accounts.py:24-45 | a price exists exactly for AAPL, TSLA and GOOGL, and every price is positive |
| Prices.QuotedPrices | output/accounts.py:38-42 | the three quoted prices are 150, 700 and 2800 |
| Ledger.ApplyCreate | output/accounts.py:103-116 | refused with AlreadyCreated when the initial deposit is already positive (checked first), then with NonPositiveAmount when d <= 0; on success cash and initial deposit both become d (assigned, not added), holdings are untouched, one deposit record of d is appended, and the invariant is kept |
| Ledger.ApplyDeposit | output/accounts.py:128-137 | fails exactly when amount <= 0; otherwise cash grows by exactly the amount, one deposit record is appended and nothing else changes |
| Ledger.ApplyWithdraw | output/accounts.py:149-160 | amount <= 0 is refused before amount > cash; succeeds exactly when 0 < amount <= cash, then cash falls by exactly the amount and stays >= 0, and one withdrawal record is appended |
| Ledger.ApplyBuy | output/accounts.py:174-193 | refused in order for quantity <= 0, an unknown symbol, cost above cash; on success cash falls by price*quantity and stays >= 0, the position grows by quantity (created if absent), no other position changes, and one buy record with symbol, quantity and price (amount 0.0) is appended |
| Ledger.ApplySell | output/accounts.py:207-231 | refused in order for quantity <= 0, more than the shares held, an unknown symbol; on success cash grows by price*quantity, the position shrinks by quantity and is deleted when it reaches 0, no other position changes, and one sell record is appended |
| Ledger.MarketValueRemove | output/accounts.py:259-263 | the sum over the positions does not depend on the order they are taken in |
| Accounts.Account.constructor | output/accounts.py:81-91 | a new account has no cash, no holdings, no records and no initial deposit, and satisfies the invariant |
| Accounts.Account.CreateAccount | output/accounts.py:93-116 | validates before it writes; the outcome and the new fields are those of ApplyCreate, a refusal leaves every field unchanged, and the invariant is kept |
| Accounts.Account.Deposit | output/accounts.py:118-137 | the outcome and the new fields are those of ApplyDeposit; a refusal changes nothing |
| Accounts.Account.Withdraw | output/accounts.py:139-160 | the outcome and the new fields are those of ApplyWithdraw; a refusal changes nothing |
| Accounts.Account.Buy | output/accounts.py:162-193 | the outcome and the new fields are those of ApplyBuy; a refusal changes nothing |
| Accounts.Account.Sell | output/accounts.py:195-231 | the outcome and the new fields are those of ApplySell; a refusal changes nothing |
| Accounts.Account.GetCashBalance | output/accounts.py:233-240 | returns the balance, which is never negative on a valid account |
| Accounts.Account.GetHoldings | output/accounts.py:242-250 | returns the holdings as a value, with every count positive on a valid account |
| Accounts.Account.GetPortfolioValue | output/accounts.py:252-263 | fails with UnknownSymbol exactly when some held symbol cannot be priced, never on a valid account, and otherwise returns cash plus the sum of price*count over the positions |
| Accounts.Account.GetProfitLoss | output/accounts.py:265-273 | the portfolio value minus the initial deposit, failing exactly when the portfolio value does |
| Accounts.Account.ListTransactions | output/accounts.py:275-283 | returns the whole log as a value, oldest record first |
| LedgerProperties.ApplyKeepsInvariants | output/accounts.py:103-231 | every call keeps the invariant and the holdings audit; a success appends exactly one record and leaves the earlier ones alone; a failure changes nothing; a set initial deposit never changes |
| LedgerProperties.RunKeepsInvariants | output/accounts.py:93-231 | any sequence of calls keeps the invariant and the holdings audit, only appends to the log (at most one record per call), and never changes a set initial deposit |
| LedgerProperties.CreatedStaysCreated | output/accounts.py:103-104 | once created, the account refuses every later creation, whatever calls come between |
| LedgerProperties.ApplyKeepsCashAudited | output/accounts.py:108-231 | deposits, withdrawals and trades move the cash by exactly what their record shows; creation keeps cash and log in step only when the balance was 0 before |
| LedgerProperties.CashFollowsRecord | output/accounts.py:108-221 | a successful call moves the cash by exactly the cash flow of the record it appends (creation first resets the balance to 0) |
| LedgerProperties.CreatedAccountStaysCashAudited | output/accounts.py:128-231 | after creation, the balance always equals the net cash of the log |
| LedgerProperties.DepositBeforeCreateIsOverwritten | output/accounts.py:108 | a deposit of 100 followed by create_account(50) succeeds and leaves cash 50 while the log shows 150 |
| LedgerProperties.MarketValueAdd | output/accounts.py:260-262 | a new position adds its worth to the market value |
| LedgerProperties.MarketValueReplace | output/accounts.py:260-262 | replacing one position changes the market value by the difference of the two worths |
| LedgerProperties.WorthAdds | output/accounts.py:177 | the worth of a position is linear in the share count |
| LedgerProperties.BuyKeepsPortfolioValue | output/accounts.py:176-183 | a buy leaves the portfolio value and the profit/loss unchanged |
| LedgerProperties.SellKeepsPortfolioValue | output/accounts.py:212-221 | a sale leaves the portfolio value and the profit/loss unchanged |
| LedgerProperties.BuyThenSellRestores | output/accounts.py:181-183 | on a valid account, a buy that succeeds is followed by a sell of the same quantity that also succeeds; together they restore cash and holdings and append exactly two records behind the unchanged old log |
| LedgerProperties.CreateTwiceExample | output/accounts.py:103-104 | create(1000) then create(500): the second is refused with AlreadyCreated and the balance stays 1000 |
| LedgerProperties.BuyOverBudgetExample | output/accounts.py:177-179 | buying 10 AAPL (1500) on a fresh balance of 1000 is refused with InsufficientFunds |
| LedgerProperties.SellUnheldExample | output/accounts.py:209-211 | selling TSLA that is not held is refused with InsufficientShares whatever the cash |
| LedgerProperties.RoundTripExample | output/accounts.py:103-273 | create(2000), buy 5 AAPL (cash 1250, holdings AAPL:5), sell 5 AAPL (cash 2000, no holdings): profit/loss is 0 and the log holds three records |

## Left out

- Timestamps: `datetime.now()` is not modelled. Each mutator takes the instant as a parameter and stores it in the record. The log is in call order; it is in timestamp order, as `list_transactions` documents, only when callers pass non-decreasing instants, which the model does not enforce.
- Floating point: money is exact `real` arithmetic. Rounding, NaN and infinities of Python floats are not modelled, and neither is how the result of summing the positions depends on their order.
- Error messages: the message texts are not modelled. Within each call, each `ValueError` it can raise is one constructor of `Ledger.Error`.
- Copying: `get_holdings` and `list_transactions` return copies in the source. Dafny maps and sequences are values, so a returned snapshot cannot be changed by later calls or change the account.
- Python typing: the source does not enforce its type hints (a non-numeric argument fails with `TypeError` at the first comparison). The model takes `real` amounts and `int` quantities; the front end passes whole share counts.
- `output/app.py` (the web front end and its single shared account) is not part of this model.
- Concurrency: the account is single-threaded and in memory, so there is nothing to model.
