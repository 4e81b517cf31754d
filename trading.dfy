/**
 * The `POST /transaction` handler over in-memory state: a user account whose
 * cash and portfolio are updated in place, and the store of transaction
 * records. The quote is an input (absent when the quote service failed).
 */
module Trading {
  import opened Wrappers
  import opened Strings
  import opened Portfolio
  import History

  /** A user document: identity, cash and positions. */
  class Account {
    const id: string
    const email: string
    var balance: real
    var portfolio: seq<Position>

    ghost function State(): Holdings
      reads this
    {
      Holdings(balance, portfolio)
    }

    ghost predicate Valid()
      reads this
    {
      Consistent(State())
    }

    /** A new account: the default cash, nothing held. */
    constructor (id: string, email: string)
      ensures this.id == id && this.email == email
      ensures balance == DefaultBalance && portfolio == []
      ensures Valid()
    {
      this.id := id;
      this.email := email;
      balance := DefaultBalance;
      portfolio := [];
    }

    /**
     * The buy/sell body of the handler, as the source performs it: check,
     * then adjust the cash and the matching entry in place.
     */
    method Trade(side: Side, symbol: string, quantity: Shares, price: real) returns (r: Step)
      requires Valid() && price > 0.0
      modifies this
      ensures r == Apply(old(State()), side, symbol, quantity, price)
      ensures State() == if r.Done? then r.after else old(State())
      ensures Valid()
    {
      ApplyKeepsConsistent(State(), side, symbol, quantity, price);
      match side {
        case Buy => r := TradeBuy(symbol, quantity, price);
        case Sell => r := TradeSell(symbol, quantity, price);
      }
    }

    /** The buy branch in place: debit the cash, then grow the held entry or push a new one. */
    method TradeBuy(symbol: string, quantity: Shares, price: real) returns (r: Step)
      modifies this
      ensures r == BuyStep(old(State()), symbol, quantity, price)
      ensures State() == if r.Done? then r.after else old(State())
    {
      var totalCost := price * quantity as real;
      if balance < totalCost {
        return Rejected(InsufficientFunds);
      }
      balance := balance - totalCost;
      var k := IndexOf(portfolio, symbol);
      if k >= 0 {
        var existing := portfolio[k];
        var totalShares := existing.quantity + quantity;
        var avgPrice := AveragePrice(existing.price, existing.quantity, price, quantity);
        portfolio := portfolio[k := existing.(quantity := totalShares, price := avgPrice)];
      } else {
        portfolio := portfolio + [Position(symbol, quantity, price)];
      }
      r := Done(Holdings(balance, portfolio), totalCost);
    }

    /** The sell branch in place: decrement the held entry, credit the cash, splice out an emptied entry. */
    method TradeSell(symbol: string, quantity: Shares, price: real) returns (r: Step)
      modifies this
      ensures r == SellStep(old(State()), symbol, quantity, price)
      ensures State() == if r.Done? then r.after else old(State())
    {
      var totalCost := price * quantity as real;
      var k := IndexOf(portfolio, symbol);
      if k == -1 || portfolio[k].quantity < quantity {
        return Rejected(NotEnoughStock);
      }
      var left := portfolio[k].quantity - quantity;
      portfolio := portfolio[k := portfolio[k].(quantity := left)];
      balance := balance + totalCost;
      if portfolio[k].quantity == 0 {
        portfolio := portfolio[..k] + portfolio[k + 1..];
      }
      r := Done(Holdings(balance, portfolio), totalCost);
    }
  }

  /** The stored transaction records, in insertion order. */
  class TransactionLog {
    var entries: seq<Transaction>

    constructor ()
      ensures entries == []
    {
      entries := [];
    }

    /** Saving one new record. */
    method Append(t: Transaction)
      modifies this
      ensures entries == old(entries) + [t]
    {
      entries := entries + [t];
    }

    /** The history query: the caller's matching records, sorted only on a whitelisted field. */
    method Find(q: History.Query) returns (r: seq<Transaction>)
      ensures forall t :: t in r <==> t in entries && History.Matches(q, t)
      ensures multiset(r) == multiset(History.Filter(entries, q))
      ensures History.SortSelection(q).None? ==> r == History.Filter(entries, q)
      ensures History.SortSelection(q).Some? ==> History.SortedBy(History.SortSelection(q).value, r)
    {
      History.ResultIsTheMatches(entries, q);
      r := History.Result(entries, q);
    }
  }

  /** Why a trade request produced no transaction. */
  datatype TradeError =
    | InvalidSymbol
    | QuoteUnavailable
    | UserNotFound
    | Refused(reason: Rejection)
    | RecordRejected

  datatype Response = Executed(transaction: Transaction) | Failed(error: TradeError)

  /** The symbol check made before anything else: not empty once trimmed, so not all whitespace. */
  predicate ValidSymbol(symbol: string): (ok: bool)
    ensures ok <==> !AllWhitespace(symbol)
  {
    TrimEmptyIff(symbol);
    |Trim(symbol)| > 0
  }

  /**
   * One trade request. `account` is the user looked up by the caller's
   * identity (null when none exists); `quote` is the quoted current price.
   */
  method PostTransaction(account: Account?, log: TransactionLog, symbol: string, quantity: Shares,
                         action: string, quote: Option<real>) returns (resp: Response)
    requires quote.Some? ==> quote.value > 0.0
    requires account != null ==> account.Valid()
    modifies account, log
    ensures account != null ==> account.Valid()
    // the guards, in the order the handler applies them
    ensures !ValidSymbol(symbol) ==> resp == Failed(InvalidSymbol)
    ensures ValidSymbol(symbol) && quote.None? ==> resp == Failed(QuoteUnavailable)
    ensures ValidSymbol(symbol) && quote.Some? && account == null ==> resp == Failed(UserNotFound)
    ensures ValidSymbol(symbol) && quote.Some? && account != null && ParseAction(action).None? ==>
      resp == Failed(RecordRejected)
    ensures ValidSymbol(symbol) && quote.Some? && account != null && ParseAction(action).Some? ==>
      match Apply(old(account.State()), ParseAction(action).value, symbol, quantity, quote.value)
      case Rejected(why) => resp == Failed(Refused(why))
      case Done(_, _) => resp.Executed?
    // a failed request leaves the account and the records as they were
    ensures resp.Failed? ==>
      log.entries == old(log.entries) && (account != null ==> account.State() == old(account.State()))
    // an executed request changes the account by one ledger step and stores one record of it
    ensures resp.Executed? ==>
      && account != null && quote.Some? && ParseAction(action).Some?
      && var step := Apply(old(account.State()), ParseAction(action).value, symbol, quantity, quote.value);
      && step.Done?
      && account.State() == step.after
      && resp.transaction == Transaction(account.id, account.email, symbol, quantity,
                                         ParseAction(action).value, quote.value, step.totalCost)
      && resp.transaction.totalCost == TotalCost(resp.transaction.price, quantity)
      && log.entries == old(log.entries) + [resp.transaction]
  {
    if !ValidSymbol(symbol) {
      return Failed(InvalidSymbol);
    }
    if quote.None? {
      return Failed(QuoteUnavailable);
    }
    var currentPrice := quote.value;
    if account == null {
      return Failed(UserNotFound);
    }
    var side := ParseAction(action);
    if side.None? {
      // neither branch runs; the record then fails its `action` enumeration
      return Failed(RecordRejected);
    }
    var step := account.Trade(side.value, symbol, quantity, currentPrice);
    if step.Rejected? {
      return Failed(Refused(step.reason));
    }
    var record := Transaction(account.id, account.email, symbol, quantity, side.value,
                              currentPrice, step.totalCost);
    log.Append(record);
    resp := Executed(record);
  }
}
