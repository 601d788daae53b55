# Paper-trading ledger

A model of the bookkeeping inside `app/Trade.php` of a command-line cryptocurrency
paper-trading simulator. The program keeps one document: a cash balance, starting at
1000.0, and an append-only log of purchase and sell records (type, symbol, amount,
price, cost or value, time). `purchase` and `sell` validate a request against that
document and then either commit the whole change or leave it untouched. Holdings are
never stored. They are derived from the log in two places: `sell` scans it for the
amount bought minus the amount sold of one symbol, and `displayWallet` folds it into a
symbol -> net amount map and shows the positive entries.

Two files:

- `portfolio.dfy` (module `Portfolio`): the records and the ledger as values, the
  sell-side scan (`Bought`, `Sold`, `Held`), the wallet fold (`Holdings`, `Shown`),
  the two operations as functions on a ledger (`PurchaseStep`, `SellStep`), and the
  lemmas about them.
- `trade.dfy` (module `App`): class `Trade`, whose `balance` and `log` fields are the
  stored document. Its methods `Purchase`, `Sell` and `DisplayWallet` do what the PHP
  methods do, loops included. Each is proved against the functions of `Portfolio`.
  `Session` walks through a fresh store, buying 2 BTC at 100.0 (balance 800.0), selling
  1 at 150.0 (balance 950.0, 1 BTC held), and a refused sale of 5.

The quote lookup is a parameter `quote: Option<real>`, where `None` means the price API has
no entry for the symbol. The amount the user types and the timestamp are parameters too.
The code checks the quote first and the amount second (app/Trade.php:131-137), and the
model keeps that order.

`price * amount` is exact `real` arithmetic. The PHP code uses `float`.

## Model

| member | source | states |
|---|---|---|
| App.Trade.constructor | app/Trade.php:12-20 | with no stored document the ledger is `FRESH_LEDGER` (balance 1000.0, empty log); otherwise the stored document is used as it is |
| App.Trade.GetTransactions | app/Trade.php:118-121 | loading returns exactly the stored balance and log |
| App.Trade.SaveTransactions | app/Trade.php:123-126 | saving replaces the stored balance and log wholesale |
| App.Trade.Purchase | app/Trade.php:129-159 | the new stored document and the reported outcome are exactly those of `PurchaseStep` on the old document |
| App.Trade.Sell | app/Trade.php:161-201 | the `bought`/`sold` loop computes the `Bought`/`Sold` sums; the new document and outcome are exactly those of `SellStep` on the old document |
| App.Trade.DisplayWallet | app/Trade.php:203-226 | the loop builds `Holdings(log)`; its keys are exactly the traded symbols; each entry is that symbol's purchases minus sells; the shown entries are exactly the strictly positive ones; the store is only read |
| Portfolio.HeldAppend | app/Trade.php:175-182 | appending one record changes a symbol's available amount by exactly that record's signed amount (+ for a purchase of it, - for a sale of it, 0 otherwise) |
| Portfolio.HeldUntraded | app/Trade.php:172-182 | a symbol that no record names has available amount 0 |
| Portfolio.HoldingsMatchHeld | app/Trade.php:207-218 | the wallet fold and the sell scan agree: a symbol is a key of the wallet map iff some record names it, and its entry equals `bought - sold` |
| Portfolio.HoldingsAppend | app/Trade.php:208-217 | appending one record changes only its own symbol's wallet entry, to the old holding plus the record's signed amount |
| Portfolio.PurchaseRefusals | app/Trade.php:132-144 | a purchase reports not-found iff there is no quote, invalid-amount iff amount <= 0, insufficient-funds iff price*amount > balance, and succeeds iff none of these holds; every refusal leaves balance and log unchanged |
| Portfolio.PurchaseCommits | app/Trade.php:145-154 | a successful purchase reports cost price*amount, sets balance to balance - cost, and appends exactly one purchase record with that symbol, amount, price, cost and time, keeping every earlier record |
| Portfolio.PurchaseSolvent | app/Trade.php:139-145 | from a non-negative balance, a purchase (successful or not) leaves a non-negative balance |
| Portfolio.PurchaseHeld | app/Trade.php:145-154 | a successful purchase raises its symbol's holding by the amount and leaves every other symbol's holding alone; a refused one changes no holding |
| Portfolio.PurchaseWallet | app/Trade.php:146-153 | after a successful purchase the wallet map equals the old one with only the bought symbol's entry set to its old holding + amount |
| Portfolio.SellRefusals | app/Trade.php:164-186 | a sale reports not-found iff there is no quote, invalid-amount iff amount <= 0, insufficient-amount iff amount > bought - sold for that symbol, and succeeds iff 0 < amount <= bought - sold; every refusal leaves balance and log unchanged |
| Portfolio.SellCommits | app/Trade.php:187-196 | a successful sale reports value price*amount, sets balance to balance + value, and appends exactly one sell record with that symbol, amount, price, value and time, keeping every earlier record |
| Portfolio.SellHeld | app/Trade.php:182-196 | a successful sale lowers its symbol's holding by the amount, never below zero, and leaves every other symbol's holding alone; a refused one changes no holding |
| Portfolio.SellWallet | app/Trade.php:188-195 | after a successful sale the wallet map equals the old one with only the sold symbol's entry set to its old holding - amount |
| Portfolio.FreshSound | app/Trade.php:12-19 | the fresh document has balance 1000.0 and no records, and satisfies the ledger invariant (balance >= 0, every holding >= 0) |
| Portfolio.PurchaseKeepsSound | app/Trade.php:139-154 | every purchase preserves the ledger invariant |
| Portfolio.SellKeepsSound | app/Trade.php:182-196 | every sale at a non-negative quote preserves the ledger invariant |
| Portfolio.PurchaseThenSellRestores | app/Trade.php:139-196 | from a ledger whose holding of the symbol is non-negative (as every `Sound` ledger's is), at a fixed price, a successful purchase followed by a sale of the same symbol and amount succeeds, reports price*amount, and restores the balance and every symbol's holding |

## Left out

- The price API calls in `list`, `search` and `searchSymbol` (app/Trade.php:23-116) are network I/O. A purchase or sale receives the looked-up price as `quote`, and `None` stands for a response without the symbol.
- The `exit()` calls on a failed request or a response without data (app/Trade.php:47, 65, 92, 114) end the process during I/O and are not modelled.
- The JSON store file is modelled as the object's `balance` and `log` fields. Creating, reading and writing the file, and JSON encoding, are file I/O. A missing document is the constructor's `stored == None`; an existing document is `stored == Some(l)`.
- An existing store file that does not decode is not modelled. The constructor only tests whether the file exists (app/Trade.php:18), so such a file stays in place. `getTransactions` is declared to return `array` (app/Trade.php:118), so the null that `json_decode` gives for such a file (app/Trade.php:120) raises a TypeError. `purchase`, `sell` and `displayWallet` stop there (app/Trade.php:140, 174, 205) and the file is not written. `stored` has no value for that state, and the model has no such failure.
- The `readline` prompt and its `(float)` parse (app/Trade.php:133, 165) are interactive input. The amount is passed in as a real number.
- `date('Y-m-d H:i:s')` is a clock read. The time is passed in as an opaque string.
- Table rendering and the `echo` messages in `list`, `search`, `displayWallet` and `displayTransactions` are presentation. `DisplayWallet` returns the balance, the holding map and the shown entries instead of printing them. `displayTransactions` (app/Trade.php:230-247) only prints the log and has no model.
- DisplayWallet: returns the shown entries as a map, so it does not model the order in which the table lists them (first appearance in the log).
- PHP `float` rounding of `price * amount` and of the running sums is not modelled. All arithmetic is exact.
- The two record shapes (`cost` for purchases, `value` for sales) are modelled as one field, `total`.
- SellKeepsSound: assumes a non-negative quote. The code never checks the quote's sign, so a negative price would lower the balance on a sale.
- PurchaseThenSellRestores: restores every symbol's holding, not the wallet map itself. A symbol that first appears in the purchase is left in the map with entry 0.
