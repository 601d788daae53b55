/**
 The bookkeeping of the paper-trading ledger: a cash balance and an
 append-only log of purchase and sell records. Holdings are never stored;
 they are always derived from the log, in two ways that app/Trade.php keeps
 side by side: the per-symbol `bought - sold` scan that guards a sale, and
 the symbol -> net amount fold that the wallet view builds.
 */
module Portfolio {

  datatype Option<T> = None | Some(value: T)

  /** The `type` field of a record. */
  datatype Kind = Purchase | Sell

  /** One log record. `total` is the record's `cost` (purchase) or `value` (sell). */
  datatype Txn = Txn(kind: Kind, symbol: string, amount: real, price: real, total: real, time: string)

  /** The persisted document: cash balance and the transaction log in insertion order. */
  datatype Ledger = Ledger(balance: real, log: seq<Txn>)

  /** What a purchase or a sell reports: the executed cost or value, or why it was refused. */
  datatype Outcome =
    | Done(total: real)
    | NotFound            // the quote lookup has no entry for the symbol
    | InvalidAmount       // the amount entered is not positive
    | InsufficientFunds   // the cost exceeds the balance
    | InsufficientAmount  // the amount exceeds the net holding

  /** A ledger after an operation, with what the operation reported. */
  datatype Step = Step(ledger: Ledger, outcome: Outcome)

  const INITIAL_BALANCE: real := 1000.0

  /** The document written when no store exists yet. */
  const FRESH_LEDGER: Ledger := Ledger(INITIAL_BALANCE, [])

  // ---------------------------------------------------------------------
  // The sell-side scan: sums of purchase and sell amounts for one symbol
  // ---------------------------------------------------------------------

  function Bought(log: seq<Txn>, s: string): real
  {
    if log == [] then 0.0
    else
      var t := log[|log| - 1];
      Bought(log[..|log| - 1], s) + (if t.kind == Purchase && t.symbol == s then t.amount else 0.0)
  }

  function Sold(log: seq<Txn>, s: string): real
  {
    if log == [] then 0.0
    else
      var t := log[|log| - 1];
      Sold(log[..|log| - 1], s) + (if t.kind == Sell && t.symbol == s then t.amount else 0.0)
  }

  /** The amount of `s` available to sell: everything bought minus everything sold. */
  function Held(log: seq<Txn>, s: string): real
  {
    Bought(log, s) - Sold(log, s)
  }

  /** The signed effect of one record on the holding of `s`. */
  function Delta(t: Txn, s: string): real
  {
    if t.symbol != s then 0.0 else if t.kind == Purchase then t.amount else -t.amount
  }

  /** Some record of the log names `s`. */
  ghost predicate Traded(log: seq<Txn>, s: string)
  {
    exists i :: 0 <= i < |log| && log[i].symbol == s
  }

  // ---------------------------------------------------------------------
  // The wallet fold: symbol -> net amount, built record by record
  // ---------------------------------------------------------------------

  /** The holding map the wallet builds: a symbol enters at 0 when first seen, then each
      purchase adds its amount and each sell subtracts it. */
  function Holdings(log: seq<Txn>): map<string, real>
  {
    if log == [] then map[]
    else
      var h := Holdings(log[..|log| - 1]);
      var t := log[|log| - 1];
      var base := if t.symbol in h then h[t.symbol] else 0.0;
      h[t.symbol := if t.kind == Purchase then base + t.amount else base - t.amount]
  }

  /** The entries the wallet view shows: only strictly positive holdings. */
  function Shown(h: map<string, real>): map<string, real>
  {
    map s | s in h && h[s] > 0.0 :: h[s]
  }

  // ---------------------------------------------------------------------
  // The two operations, validate then commit
  // ---------------------------------------------------------------------

  /** A purchase of `amount` units of `symbol` at the looked-up `quote`. */
  function PurchaseStep(l: Ledger, symbol: string, quote: Option<real>, amount: real, time: string): Step
  {
    match quote
    case None => Step(l, NotFound)
    case Some(price) =>
      if amount <= 0.0 then Step(l, InvalidAmount)
      else
        var cost := price * amount;
        if l.balance < cost then Step(l, InsufficientFunds)
        else Step(Ledger(l.balance - cost, l.log + [Txn(Purchase, symbol, amount, price, cost, time)]), Done(cost))
  }

  /** A sale of `amount` units of `symbol` at the looked-up `quote`. */
  function SellStep(l: Ledger, symbol: string, quote: Option<real>, amount: real, time: string): Step
  {
    match quote
    case None => Step(l, NotFound)
    case Some(price) =>
      if amount <= 0.0 then Step(l, InvalidAmount)
      else
        var value := price * amount;
        if amount > Bought(l.log, symbol) - Sold(l.log, symbol) then Step(l, InsufficientAmount)
        else Step(Ledger(l.balance + value, l.log + [Txn(Sell, symbol, amount, price, value, time)]), Done(value))
  }

  // ---------------------------------------------------------------------
  // Facts about the derived holdings
  // ---------------------------------------------------------------------

  /** Appending one record moves the holding of `s` by exactly that record's signed effect. */
  lemma HeldAppend(p: seq<Txn>, t: Txn, s: string)
    ensures Held(p + [t], s) == Held(p, s) + Delta(t, s)
  {
  }

  /** A record names a symbol of the extended log iff it is the new one or an old one. */
  lemma TradedAppend(p: seq<Txn>, t: Txn, s: string)
    ensures Traded(p + [t], s) <==> Traded(p, s) || t.symbol == s
  {
    var q := p + [t];
    if Traded(p, s) {
      var i :| 0 <= i < |p| && p[i].symbol == s;
      assert q[i] == p[i];
    }
    if t.symbol == s {
      assert q[|p|] == t;
    }
    if Traded(q, s) {
      var i :| 0 <= i < |q| && q[i].symbol == s;
      if i < |p| { assert p[i] == q[i]; }
    }
  }

  /** A symbol that no record names has nothing to sell. */
  lemma {:induction false} HeldUntraded(log: seq<Txn>, s: string)
    requires !Traded(log, s)
    ensures Held(log, s) == 0.0
  {
    if log != [] {
      var p, t := log[..|log| - 1], log[|log| - 1];
      assert log == p + [t];
      TradedAppend(p, t, s);
      HeldUntraded(p, s);
      HeldAppend(p, t, s);
    }
  }

  /** The wallet fold and the sell-side scan agree: the map holds exactly the traded
      symbols, and each one's entry is purchases minus sells of that symbol. */
  lemma {:induction false} HoldingsMatchHeld(log: seq<Txn>)
    ensures forall s :: s in Holdings(log) <==> Traded(log, s)
    ensures forall s :: s in Holdings(log) ==> Holdings(log)[s] == Held(log, s)
  {
    if log != [] {
      var p, t := log[..|log| - 1], log[|log| - 1];
      assert log == p + [t];
      HoldingsMatchHeld(p);
      forall s
        ensures s in Holdings(log) <==> Traded(log, s)
        ensures s in Holdings(log) ==> Holdings(log)[s] == Held(log, s)
      {
        TradedAppend(p, t, s);
        HeldAppend(p, t, s);
        if s == t.symbol && s !in Holdings(p) {
          HeldUntraded(p, s);
        }
      }
    }
  }

  /** One appended record changes only its own symbol's wallet entry, to the old holding
      plus the record's signed effect. */
  lemma HoldingsAppend(p: seq<Txn>, t: Txn)
    ensures Holdings(p + [t]) == Holdings(p)[t.symbol := Held(p, t.symbol) + Delta(t, t.symbol)]
  {
    var q := p + [t];
    assert q[..|p|] == p;
    HoldingsMatchHeld(p);
    if t.symbol !in Holdings(p) {
      HeldUntraded(p, t.symbol);
    }
  }

  // ---------------------------------------------------------------------
  // Purchase
  // ---------------------------------------------------------------------

  /** Why a purchase is refused, in the order app/Trade.php checks, and that a refusal
      leaves the ledger as it was. */
  lemma PurchaseRefusals(l: Ledger, symbol: string, quote: Option<real>, amount: real, time: string)
    ensures var r := PurchaseStep(l, symbol, quote, amount, time);
      && (r.outcome == NotFound <==> quote.None?)
      && (r.outcome == InvalidAmount <==> quote.Some? && amount <= 0.0)
      && (r.outcome == InsufficientFunds <==> quote.Some? && amount > 0.0 && l.balance < quote.value * amount)
      && (r.outcome.Done? <==> quote.Some? && amount > 0.0 && quote.value * amount <= l.balance)
      && (!r.outcome.Done? ==> r.ledger == l)
  {
  }

  /** A successful purchase debits the cost and appends exactly one purchase record,
      keeping every earlier record. */
  lemma PurchaseCommits(l: Ledger, symbol: string, quote: Option<real>, amount: real, time: string)
    requires PurchaseStep(l, symbol, quote, amount, time).outcome.Done?
    ensures var r := PurchaseStep(l, symbol, quote, amount, time);
      var cost := quote.value * amount;
      && r.outcome == Done(cost)
      && r.ledger.balance == l.balance - cost
      && |r.ledger.log| == |l.log| + 1
      && r.ledger.log[..|l.log|] == l.log
      && r.ledger.log[|l.log|] == Txn(Purchase, symbol, amount, quote.value, cost, time)
  {
  }

  /** A purchase never overdraws: from a non-negative balance it ends non-negative. */
  lemma PurchaseSolvent(l: Ledger, symbol: string, quote: Option<real>, amount: real, time: string)
    requires l.balance >= 0.0
    ensures PurchaseStep(l, symbol, quote, amount, time).ledger.balance >= 0.0
  {
  }

  /** A purchase raises the holding of its symbol by the amount bought and leaves every
      other symbol's holding alone; a refused one changes no holding. */
  lemma PurchaseHeld(l: Ledger, symbol: string, quote: Option<real>, amount: real, time: string, s: string)
    ensures var r := PurchaseStep(l, symbol, quote, amount, time);
      Held(r.ledger.log, s) == Held(l.log, s) + (if r.outcome.Done? && s == symbol then amount else 0.0)
  {
  }

  /** A successful purchase changes only its symbol's wallet entry, by +amount. */
  lemma PurchaseWallet(l: Ledger, symbol: string, quote: Option<real>, amount: real, time: string)
    requires PurchaseStep(l, symbol, quote, amount, time).outcome.Done?
    ensures Holdings(PurchaseStep(l, symbol, quote, amount, time).ledger.log)
         == Holdings(l.log)[symbol := Held(l.log, symbol) + amount]
  {
    HoldingsAppend(l.log, Txn(Purchase, symbol, amount, quote.value, quote.value * amount, time));
  }

  // ---------------------------------------------------------------------
  // Sell
  // ---------------------------------------------------------------------

  /** Why a sale is refused, in the order app/Trade.php checks, and that a refusal leaves
      the ledger as it was. */
  lemma SellRefusals(l: Ledger, symbol: string, quote: Option<real>, amount: real, time: string)
    ensures var r := SellStep(l, symbol, quote, amount, time);
      && (r.outcome == NotFound <==> quote.None?)
      && (r.outcome == InvalidAmount <==> quote.Some? && amount <= 0.0)
      && (r.outcome == InsufficientAmount <==> quote.Some? && amount > 0.0 && amount > Held(l.log, symbol))
      && (r.outcome.Done? <==> quote.Some? && 0.0 < amount <= Held(l.log, symbol))
      && (!r.outcome.Done? ==> r.ledger == l)
  {
  }

  /** A successful sale credits the value and appends exactly one sell record, keeping
      every earlier record. */
  lemma SellCommits(l: Ledger, symbol: string, quote: Option<real>, amount: real, time: string)
    requires SellStep(l, symbol, quote, amount, time).outcome.Done?
    ensures var r := SellStep(l, symbol, quote, amount, time);
      var value := quote.value * amount;
      && r.outcome == Done(value)
      && r.ledger.balance == l.balance + value
      && |r.ledger.log| == |l.log| + 1
      && r.ledger.log[..|l.log|] == l.log
      && r.ledger.log[|l.log|] == Txn(Sell, symbol, amount, quote.value, value, time)
  {
  }

  /** A sale lowers the holding of its symbol by the amount sold, never below zero, and
      leaves every other symbol's holding alone; a refused one changes no holding. */
  lemma SellHeld(l: Ledger, symbol: string, quote: Option<real>, amount: real, time: string, s: string)
    ensures var r := SellStep(l, symbol, quote, amount, time);
      && Held(r.ledger.log, s) == Held(l.log, s) - (if r.outcome.Done? && s == symbol then amount else 0.0)
      && (r.outcome.Done? ==> Held(r.ledger.log, symbol) >= 0.0)
  {
  }

  /** A successful sale changes only its symbol's wallet entry, by -amount. */
  lemma SellWallet(l: Ledger, symbol: string, quote: Option<real>, amount: real, time: string)
    requires SellStep(l, symbol, quote, amount, time).outcome.Done?
    ensures Holdings(SellStep(l, symbol, quote, amount, time).ledger.log)
         == Holdings(l.log)[symbol := Held(l.log, symbol) - amount]
  {
    HoldingsAppend(l.log, Txn(Sell, symbol, amount, quote.value, quote.value * amount, time));
  }

  // ---------------------------------------------------------------------
  // The ledger invariant and the round trip
  // ---------------------------------------------------------------------

  /** No negative cash and no symbol held short. */
  ghost predicate Sound(l: Ledger)
  {
    l.balance >= 0.0 && forall s :: Held(l.log, s) >= 0.0
  }

  /** The fresh document holds 1000.0 in cash and no records, and is sound. */
  lemma FreshSound()
    ensures FRESH_LEDGER.balance == 1000.0 && FRESH_LEDGER.log == []
    ensures Sound(FRESH_LEDGER)
  {
  }

  /** Every purchase keeps the ledger sound. */
  lemma PurchaseKeepsSound(l: Ledger, symbol: string, quote: Option<real>, amount: real, time: string)
    requires Sound(l)
    ensures Sound(PurchaseStep(l, symbol, quote, amount, time).ledger)
  {
    forall s ensures Held(PurchaseStep(l, symbol, quote, amount, time).ledger.log, s) >= 0.0 {
      PurchaseHeld(l, symbol, quote, amount, time, s);
    }
  }

  /** Every sale at a non-negative quote keeps the ledger sound. */
  lemma SellKeepsSound(l: Ledger, symbol: string, quote: Option<real>, amount: real, time: string)
    requires Sound(l)
    requires quote.Some? ==> quote.value >= 0.0
    ensures Sound(SellStep(l, symbol, quote, amount, time).ledger)
  {
    forall s ensures Held(SellStep(l, symbol, quote, amount, time).ledger.log, s) >= 0.0 {
      SellHeld(l, symbol, quote, amount, time, s);
    }
  }

  /** At a fixed price, a successful purchase followed by a sale of the same symbol and
      amount succeeds and restores both the balance and every symbol's holding. */
  lemma PurchaseThenSellRestores(l: Ledger, symbol: string, price: real, amount: real, t1: string, t2: string)
    requires Held(l.log, symbol) >= 0.0
    requires PurchaseStep(l, symbol, Some(price), amount, t1).outcome.Done?
    ensures var m := PurchaseStep(l, symbol, Some(price), amount, t1).ledger;
      var r := SellStep(m, symbol, Some(price), amount, t2);
      && r.outcome == Done(price * amount)
      && r.ledger.balance == l.balance
      && forall s :: Held(r.ledger.log, s) == Held(l.log, s)
  {
    var m := PurchaseStep(l, symbol, Some(price), amount, t1).ledger;
    PurchaseHeld(l, symbol, Some(price), amount, t1, symbol);
    var r := SellStep(m, symbol, Some(price), amount, t2);
    forall s ensures Held(r.ledger.log, s) == Held(l.log, s) {
      PurchaseHeld(l, symbol, Some(price), amount, t1, s);
      SellHeld(m, symbol, Some(price), amount, t2, s);
    }
  }
}
