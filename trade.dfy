/**
 The trading front end of app/Trade.php, reduced to its ledger: the object holds
 the stored document (cash balance and transaction log) and its purchase and sell
 commands load it, validate, and write it back. The quote lookup, the amount
 prompt and the clock are parameters.
 */
module App {
  import opened Portfolio

  class Trade {
    /** The stored document's `balance`. */
    var balance: real
    /** The stored document's `transactions`, in insertion order. */
    var log: seq<Txn>

    /** The stored document as a value. */
    function Current(): Ledger
      reads this
    {
      Ledger(balance, log)
    }

    /** Opens the store; when no document exists yet (`stored` is None), one is written
        with 1000.0 in cash and no records. */
    constructor (stored: Option<Ledger>)
      ensures stored.None? ==> Current() == FRESH_LEDGER
      ensures stored.Some? ==> Current() == stored.value
    {
      match stored
      case None =>
        balance, log := INITIAL_BALANCE, [];
      case Some(l) =>
        balance, log := l.balance, l.log;
    }

    /** Loads the stored document. */
    method GetTransactions() returns (l: Ledger)
      ensures l.balance == balance && l.log == log
    {
      l := Ledger(balance, log);
    }

    /** Overwrites the stored document wholesale. */
    method SaveTransactions(l: Ledger)
      modifies this
      ensures balance == l.balance && log == l.log
    {
      balance, log := l.balance, l.log;
    }

    /** Buys `amount` units of `symbol` at the looked-up `quote` (None: the symbol is not
        found). The quote is checked before the amount. */
    method Purchase(symbol: string, quote: Option<real>, amount: real, time: string) returns (o: Outcome)
      modifies this
      ensures Step(Current(), o) == PurchaseStep(old(Current()), symbol, quote, amount, time)
    {
      if quote.None? {
        return NotFound;
      }
      if amount <= 0.0 {
        return InvalidAmount;
      }
      var price := quote.value;
      var cost := price * amount;
      var l := GetTransactions();
      if l.balance < cost {
        return InsufficientFunds;
      }
      SaveTransactions(Ledger(l.balance - cost, l.log + [Txn(Kind.Purchase, symbol, amount, price, cost, time)]));
      return Done(cost);
    }

    /** Sells `amount` units of `symbol` at the looked-up `quote`, after scanning the log
        for the amount of `symbol` bought and sold so far. */
    method Sell(symbol: string, quote: Option<real>, amount: real, time: string) returns (o: Outcome)
      modifies this
      ensures Step(Current(), o) == SellStep(old(Current()), symbol, quote, amount, time)
    {
      if quote.None? {
        return NotFound;
      }
      if amount <= 0.0 {
        return InvalidAmount;
      }
      var price := quote.value;
      var value := price * amount;
      var bought, sold := 0.0, 0.0;
      var l := GetTransactions();
      for i := 0 to |l.log|
        invariant bought == Bought(l.log[..i], symbol)
        invariant sold == Sold(l.log[..i], symbol)
      {
        var t := l.log[i];
        assert l.log[..i + 1][..i] == l.log[..i];
        if t.kind == Kind.Purchase && t.symbol == symbol {
          bought := bought + t.amount;
        } else if t.kind == Kind.Sell && t.symbol == symbol {
          sold := sold + t.amount;
        }
      }
      assert l.log[..|l.log|] == l.log;
      var available := bought - sold;
      if amount > available {
        return InsufficientAmount;
      }
      SaveTransactions(Ledger(l.balance + value, l.log + [Txn(Kind.Sell, symbol, amount, price, value, time)]));
      return Done(value);
    }

    /** The wallet view: the balance, the symbol -> net amount map folded from the log, and
        the entries it shows (the strictly positive ones). Reads the store only. */
    method DisplayWallet() returns (cash: real, holding: map<string, real>, shown: map<string, real>)
      ensures cash == balance
      ensures holding == Holdings(log)
      ensures forall s :: s in holding <==> Traded(log, s)
      ensures forall s :: s in holding ==> holding[s] == Held(log, s)
      ensures forall s :: s in shown <==> s in holding && holding[s] > 0.0
      ensures forall s :: s in shown ==> shown[s] == holding[s]
    {
      var l := GetTransactions();
      cash := l.balance;
      holding := map[];
      for i := 0 to |l.log|
        invariant holding == Holdings(l.log[..i])
      {
        var t := l.log[i];
        assert l.log[..i + 1][..i] == l.log[..i];
        if t.symbol !in holding {
          holding := holding[t.symbol := 0.0];
        }
        if t.kind == Kind.Purchase {
          holding := holding[t.symbol := holding[t.symbol] + t.amount];
        } else if t.kind == Kind.Sell {
          holding := holding[t.symbol := holding[t.symbol] - t.amount];
        }
      }
      assert l.log[..|l.log|] == l.log;
      HoldingsMatchHeld(log);
      shown := Shown(holding);
    }
  }

  /** The worked session: a fresh store, a purchase, a partial sale and a refused
      over-sale, at fixed quotes. */
  method Session()
  {
    var trade := new Trade(None);
    FreshSound();
    assert trade.balance == 1000.0 && Sound(trade.Current());

    var o := trade.Purchase("BTC", Some(100.0), 2.0, "t1");
    assert o == Done(200.0) && trade.balance == 800.0 && |trade.log| == 1;
    var cash, holding, shown := trade.DisplayWallet();
    assert holding["BTC"] == 2.0;

    o := trade.Sell("BTC", Some(150.0), 1.0, "t2");
    assert o == Done(150.0) && trade.balance == 950.0;
    cash, holding, shown := trade.DisplayWallet();
    assert holding["BTC"] == 1.0;

    o := trade.Sell("BTC", Some(150.0), 5.0, "t3");
    assert o == InsufficientAmount && trade.balance == 950.0;
  }
}
