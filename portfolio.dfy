/**
 * The ledger step of the `POST /transaction` handler as a pure
 * computation: given the account's cash and positions, an order and the
 * quoted price, either the order is refused and nothing changes, or the new
 * cash and positions are computed together with the cost of the trade.
 * Money is an exact `real`, so no rounding drift is modelled.
 */
module Portfolio {
  import opened Wrappers

  /** The cash a freshly created account starts with. */
  const DefaultBalance: real := 10000.0

  /** An order quantity: a whole number of shares, at least one. */
  type Shares = q: int | q >= 1 witness 1

  /** One entry of a user's portfolio; `price` is the quantity-weighted average paid. */
  datatype Position = Position(symbol: string, quantity: nat, price: real)

  datatype Side = Buy | Sell

  /** The `action` string a transaction record carries. */
  function ActionName(side: Side): string
  {
    match side
    case Buy => "buy"
    case Sell => "sell"
  }

  /** The order's `action` field, compared verbatim against "buy" and "sell". */
  function ParseAction(action: string): (side: Option<Side>)
    ensures side.Some? ==> ActionName(side.value) == action
    ensures side.None? <==> action != "buy" && action != "sell"
  {
    if action == "buy" then Some(Buy) else if action == "sell" then Some(Sell) else None
  }

  lemma ParseActionName(side: Side)
    ensures ParseAction(ActionName(side)) == Some(side)
  {
  }

  /** The part of a user account a trade reads and writes. */
  datatype Holdings = Holdings(balance: real, portfolio: seq<Position>)

  predicate UniqueSymbols(p: seq<Position>)
  {
    forall i, j :: 0 <= i < j < |p| ==> p[i].symbol != p[j].symbol
  }

  predicate LivePositions(p: seq<Position>)
  {
    forall i :: 0 <= i < |p| ==> p[i].quantity > 0 && p[i].price > 0.0
  }

  /** The account invariant: no debt, one entry per symbol, no empty entry. */
  predicate Consistent(h: Holdings)
  {
    h.balance >= 0.0 && UniqueSymbols(h.portfolio) && LivePositions(h.portfolio)
  }

  /** `portfolio.findIndex(s => s.symbol === symbol)`: the first entry for the symbol, or -1. */
  function IndexOf(p: seq<Position>, symbol: string): (k: int)
    ensures -1 <= k < |p|
    ensures k >= 0 ==> p[k].symbol == symbol && forall j :: 0 <= j < k ==> p[j].symbol != symbol
    ensures k == -1 <==> forall j :: 0 <= j < |p| ==> p[j].symbol != symbol
  {
    if |p| == 0 then -1
    else if p[0].symbol == symbol then 0
    else
      var k := IndexOf(p[1..], symbol);
      if k == -1 then -1 else k + 1
  }

  /** With unique symbols, the entry found is the only one for that symbol. */
  lemma IndexOfUnique(p: seq<Position>, symbol: string, j: int)
    requires UniqueSymbols(p) && 0 <= j < |p| && p[j].symbol == symbol
    ensures IndexOf(p, symbol) == j
  {
  }

  /** Appending an entry for a symbol not yet held makes that entry the one found. */
  lemma IndexOfAppended(p: seq<Position>, e: Position)
    requires IndexOf(p, e.symbol) == -1
    ensures IndexOf(p + [e], e.symbol) == |p|
  {
    assert (p + [e])[|p|].symbol == e.symbol;
    assert forall j :: 0 <= j < |p| ==> (p + [e])[j] == p[j];
  }

  /** What `quantity` shares cost at `price` each: the per-share price is recovered from it. */
  function TotalCost(price: real, quantity: Shares): (cost: real)
    ensures cost / quantity as real == price
    ensures price > 0.0 ==> cost >= price
  {
    price * quantity as real
  }

  /**
   * The held price after adding `quantity` shares at `price` to `heldQty`
   * shares held at `heldPrice`: the new holding is worth, at that price,
   * what was paid for both lots, and the price lies between the two prices.
   */
  function AveragePrice(heldPrice: real, heldQty: nat, price: real, quantity: Shares): (avg: real)
    ensures avg * (heldQty + quantity) as real == heldPrice * heldQty as real + price * quantity as real
    ensures heldQty == 0 ==> avg == price
    ensures heldQty > 0 && heldPrice <= price ==> heldPrice <= avg <= price
    ensures heldQty > 0 && price <= heldPrice ==> price <= avg <= heldPrice
  {
    var n := (heldQty + quantity) as real;
    var paid := heldPrice * heldQty as real + price * quantity as real;
    assert n == heldQty as real + quantity as real;
    LotBounds(heldPrice, heldQty as real, price, quantity as real);
    if heldPrice <= price then
      ScaleBounds(heldPrice, paid, price, n);
      paid / n
    else
      ScaleBounds(price, paid, heldPrice, n);
      paid / n
  }

  /** Dividing bounds `lo·n <= x <= hi·n` by a positive `n`. */
  lemma ScaleBounds(lo: real, x: real, hi: real, n: real)
    requires n > 0.0 && lo * n <= x <= hi * n
    ensures lo <= x / n <= hi
  {
    var y := x / n;
    assert y * n == x;
    assert (y - lo) * n >= 0.0 && (hi - y) * n >= 0.0;
  }

  /** A mix of two lots is worth between the lots valued wholly at the lower and at the higher price. */
  lemma LotBounds(a: real, m: real, b: real, n: real)
    requires m >= 0.0 && n >= 0.0
    ensures a <= b ==> a * (m + n) <= a * m + b * n <= b * (m + n)
    ensures b <= a ==> b * (m + n) <= a * m + b * n <= a * (m + n)
  {
    if a <= b {
      assert a * n <= b * n;
      assert a * m <= b * m;
    } else {
      assert b * n <= a * n;
      assert b * m <= a * m;
    }
  }

  datatype Rejection = InsufficientFunds | NotEnoughStock

  /** What one ledger step yields: the new holdings and the trade's total cost, or the reason it was refused. */
  datatype Step = Done(after: Holdings, totalCost: real) | Rejected(reason: Rejection)

  /** The buy branch. */
  function BuyStep(h: Holdings, symbol: string, quantity: Shares, price: real): (r: Step)
    ensures r.Rejected? <==> h.balance < price * quantity as real
    ensures r.Rejected? ==> r.reason == InsufficientFunds
    ensures r.Done? ==> r.totalCost == price * quantity as real
    ensures r.Done? ==> r.after.balance == h.balance - r.totalCost && r.after.balance >= 0.0
    // a held symbol: same length, that entry accumulates, every other entry is untouched
    ensures r.Done? && IndexOf(h.portfolio, symbol) >= 0 ==>
      var k := IndexOf(h.portfolio, symbol);
      var e := h.portfolio[k];
      && |r.after.portfolio| == |h.portfolio|
      && r.after.portfolio[k] == Position(symbol, e.quantity + quantity,
           AveragePrice(e.price, e.quantity, price, quantity))
      && forall j :: 0 <= j < |h.portfolio| && j != k ==> r.after.portfolio[j] == h.portfolio[j]
    // an unheld symbol: one new entry at the end
    ensures r.Done? && IndexOf(h.portfolio, symbol) == -1 ==>
      r.after.portfolio == h.portfolio + [Position(symbol, quantity, price)]
  {
    var cost := TotalCost(price, quantity);
    if h.balance < cost then Rejected(InsufficientFunds)
    else
      var k := IndexOf(h.portfolio, symbol);
      var p :=
        if k >= 0 then
          var e := h.portfolio[k];
          h.portfolio[k := e.(quantity := e.quantity + quantity,
                              price := AveragePrice(e.price, e.quantity, price, quantity))]
        else
          h.portfolio + [Position(symbol, quantity, price)];
      Done(Holdings(h.balance - cost, p), cost)
  }

  /** The sell branch. */
  function SellStep(h: Holdings, symbol: string, quantity: Shares, price: real): (r: Step)
    ensures r.Rejected? <==>
      IndexOf(h.portfolio, symbol) == -1 || h.portfolio[IndexOf(h.portfolio, symbol)].quantity < quantity
    ensures r.Rejected? ==> r.reason == NotEnoughStock
    ensures r.Done? ==> r.totalCost == price * quantity as real
    ensures r.Done? ==> r.after.balance == h.balance + r.totalCost
    ensures r.Done? ==>
      var k := IndexOf(h.portfolio, symbol);
      var e := h.portfolio[k];
      if e.quantity == quantity then
        // the emptied entry is spliced out; the others keep their order
        r.after.portfolio == h.portfolio[..k] + h.portfolio[k + 1..]
      else
        && |r.after.portfolio| == |h.portfolio|
        && r.after.portfolio[k] == Position(symbol, e.quantity - quantity, e.price)
        && forall j :: 0 <= j < |h.portfolio| && j != k ==> r.after.portfolio[j] == h.portfolio[j]
  {
    var k := IndexOf(h.portfolio, symbol);
    if k == -1 || h.portfolio[k].quantity < quantity then Rejected(NotEnoughStock)
    else
      var e := h.portfolio[k];
      var left := e.quantity - quantity;
      var p :=
        if left == 0 then h.portfolio[..k] + h.portfolio[k + 1..]
        else h.portfolio[k := e.(quantity := left)];
      Done(Holdings(h.balance + TotalCost(price, quantity), p), TotalCost(price, quantity))
  }

  /** One ledger step for a recognised action. */
  function Apply(h: Holdings, side: Side, symbol: string, quantity: Shares, price: real): (r: Step)
    ensures r.Rejected? ==> r.reason == (if side == Buy then InsufficientFunds else NotEnoughStock)
    ensures r.Done? ==> r.totalCost == TotalCost(price, quantity)
    ensures r.Done? ==> r.after.balance == if side == Buy then h.balance - r.totalCost else h.balance + r.totalCost
  {
    match side
    case Buy => BuyStep(h, symbol, quantity, price)
    case Sell => SellStep(h, symbol, quantity, price)
  }

  /** The record saved for an executed trade. */
  datatype Transaction = Transaction(
    userId: string,
    email: string,
    symbol: string,
    quantity: int,
    action: Side,
    price: real,
    totalCost: real)

  // ---------------------------------------------------------------- properties

  lemma PositiveAverage(heldPrice: real, heldQty: nat, price: real, quantity: Shares)
    requires heldPrice > 0.0 && price > 0.0
    ensures AveragePrice(heldPrice, heldQty, price, quantity) > 0.0
  {
  }

  lemma BuyKeepsConsistent(h: Holdings, symbol: string, quantity: Shares, price: real)
    requires Consistent(h) && price > 0.0
    ensures BuyStep(h, symbol, quantity, price).Done? ==> Consistent(BuyStep(h, symbol, quantity, price).after)
  {
    var k := IndexOf(h.portfolio, symbol);
    if k >= 0 {
      PositiveAverage(h.portfolio[k].price, h.portfolio[k].quantity, price, quantity);
    }
  }

  lemma SellKeepsConsistent(h: Holdings, symbol: string, quantity: Shares, price: real)
    requires Consistent(h) && price > 0.0
    ensures SellStep(h, symbol, quantity, price).Done? ==> Consistent(SellStep(h, symbol, quantity, price).after)
  {
  }

  /** Every executed step keeps the account invariant. */
  lemma ApplyKeepsConsistent(h: Holdings, side: Side, symbol: string, quantity: Shares, price: real)
    requires Consistent(h) && price > 0.0
    ensures Apply(h, side, symbol, quantity, price).Done? ==>
      Consistent(Apply(h, side, symbol, quantity, price).after)
  {
    match side
    case Buy => BuyKeepsConsistent(h, symbol, quantity, price);
    case Sell => SellKeepsConsistent(h, symbol, quantity, price);
  }

  /** A step is refused exactly when the funds, or the shares held, do not cover the order. */
  lemma RejectionsAreExactlyTheRules(h: Holdings, side: Side, symbol: string, quantity: Shares, price: real)
    ensures Apply(h, side, symbol, quantity, price).Rejected? <==>
      match side
      case Buy => h.balance < price * quantity as real
      case Sell => IndexOf(h.portfolio, symbol) == -1
                   || h.portfolio[IndexOf(h.portfolio, symbol)].quantity < quantity
  {
  }

  /** Selling a whole position removes the symbol from the portfolio. */
  lemma SellAllRemoves(h: Holdings, symbol: string, price: real)
    requires Consistent(h) && IndexOf(h.portfolio, symbol) >= 0
    ensures
      var k := IndexOf(h.portfolio, symbol);
      var r := SellStep(h, symbol, h.portfolio[k].quantity, price);
      r.Done? && IndexOf(r.after.portfolio, symbol) == -1
        && |r.after.portfolio| == |h.portfolio| - 1
  {
  }

  /** Buying an unheld symbol and selling the same quantity at the same price restores the account. */
  lemma BuyThenSellRestores(h: Holdings, symbol: string, quantity: Shares, price: real)
    requires IndexOf(h.portfolio, symbol) == -1
    requires h.balance >= price * quantity as real
    ensures BuyStep(h, symbol, quantity, price).Done?
    ensures SellStep(BuyStep(h, symbol, quantity, price).after, symbol, quantity, price)
            == Done(h, price * quantity as real)
  {
    var a := BuyStep(h, symbol, quantity, price).after;
    var n := |h.portfolio|;
    IndexOfAppended(h.portfolio, Position(symbol, quantity, price));
    assert a.portfolio[..n] + a.portfolio[n + 1..] == h.portfolio;
  }

  /** Two buys of a symbol not held before give the quantity-weighted average of the two prices. */
  lemma TwoBuysAverage(h: Holdings, symbol: string, q1: Shares, p1: real, q2: Shares, p2: real)
    requires IndexOf(h.portfolio, symbol) == -1
    requires p1 > 0.0 && p2 > 0.0 && h.balance >= p1 * q1 as real + p2 * q2 as real
    ensures BuyStep(h, symbol, q1, p1).Done?
    ensures
      var a := BuyStep(h, symbol, q1, p1).after;
      var b := BuyStep(a, symbol, q2, p2);
      && b.Done?
      && b.after.balance == h.balance - p1 * q1 as real - p2 * q2 as real
      && b.after.portfolio == h.portfolio
           + [Position(symbol, q1 + q2, AveragePrice(p1, q1, p2, q2))]
  {
    assert p2 * q2 as real > 0.0;
    var a := BuyStep(h, symbol, q1, p1).after;
    assert a == Holdings(h.balance - p1 * q1 as real, h.portfolio + [Position(symbol, q1, p1)]);
    var n := |h.portfolio|;
    IndexOfAppended(h.portfolio, Position(symbol, q1, p1));
    assert a.balance >= p2 * q2 as real;
    var avg := AveragePrice(p1, q1, p2, q2);
    var b := BuyStep(a, symbol, q2, p2);
    assert b.after.portfolio == a.portfolio[n := Position(symbol, q1 + q2, avg)];
    assert b.after.portfolio == h.portfolio + [Position(symbol, q1 + q2, avg)];
  }

  /**
   * A worked scenario: 10000 in cash; buy 10 AAPL at 150, buy 5 AAPL at 160,
   * sell 15 AAPL at 170. The cash ends at 10250 and AAPL is no longer held.
   */
  lemma WorkedScenario()
    ensures
      var h0 := Holdings(DefaultBalance, []);
      var s1 := BuyStep(h0, "AAPL", 10, 150.0);
      s1 == Done(Holdings(8500.0, [Position("AAPL", 10, 150.0)]), 1500.0)
      && var s2 := BuyStep(s1.after, "AAPL", 5, 160.0);
      s2 == Done(Holdings(7700.0, [Position("AAPL", 15, 2300.0 / 15.0)]), 800.0)
      && var s3 := SellStep(s2.after, "AAPL", 15, 170.0);
      s3 == Done(Holdings(10250.0, []), 2550.0)
  {
  }
}
