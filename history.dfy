/**
 * The `GET /transactions/history` query: which of the stored transactions
 * match the caller's filters, and in which order they come back.
 */
module History {
  import opened Wrappers
  import opened Strings
  import opened Portfolio

  /**
   * The query parameters. An absent or empty text parameter is "", which is
   * how the handler's truthiness tests treat them; numeric bounds arrive
   * already parsed.
   */
  datatype Query = Query(
    userId: string,
    symbol: string,
    action: string,
    minQuantity: Option<int>,
    maxQuantity: Option<int>,
    minPrice: Option<real>,
    maxPrice: Option<real>,
    sortBy: string,
    sortOrder: string)

  predicate QuantityInRange(q: Query, n: int)
  {
    (q.minQuantity.Some? ==> q.minQuantity.value <= n) && (q.maxQuantity.Some? ==> n <= q.maxQuantity.value)
  }

  predicate PriceInRange(q: Query, x: real)
  {
    (q.minPrice.Some? ==> q.minPrice.value <= x) && (q.maxPrice.Some? ==> x <= q.maxPrice.value)
  }

  /** The database filter the handler builds: owner, upper-cased symbol, lower-cased action, inclusive bounds. */
  predicate Matches(q: Query, t: Transaction): (b: bool)
    // only the caller's own records are ever found
    ensures b ==> t.userId == q.userId
    // with no filter set, every record of the caller is found
    ensures (&& q.symbol == "" && q.action == ""
             && q.minQuantity.None? && q.maxQuantity.None? && q.minPrice.None? && q.maxPrice.None?)
            ==> (b <==> t.userId == q.userId)
    // an action filter finds only records of the side it names, in any capitalisation
    ensures b && q.action != "" ==> ToLower(q.action) == ActionName(t.action)
  {
    && t.userId == q.userId
    && (q.symbol != "" ==> t.symbol == ToUpper(q.symbol))
    && (q.action != "" ==> ActionName(t.action) == ToLower(q.action))
    && QuantityInRange(q, t.quantity)
    && PriceInRange(q, t.price)
  }

  /** The matching transactions, in stored order. */
  function Filter(log: seq<Transaction>, q: Query): (r: seq<Transaction>)
    ensures forall t :: t in r <==> t in log && Matches(q, t)
    ensures forall t :: multiset(r)[t] == if Matches(q, t) then multiset(log)[t] else 0
  {
    if log == [] then []
    else
      assert log == [log[0]] + log[1..];
      (if Matches(q, log[0]) then [log[0]] else []) + Filter(log[1..], q)
  }

  // ---------------------------------------------------------------- sorting

  datatype SortField = SymbolField | QuantityField | PriceField | TotalCostField

  datatype Sort = Sort(field: SortField, descending: bool)

  function FieldName(f: SortField): string
  {
    match f
    case SymbolField => "symbol"
    case QuantityField => "quantity"
    case PriceField => "price"
    case TotalCostField => "totalCost"
  }

  /** The whitelisted sort fields. */
  const AllowedSortFields: seq<string> := ["symbol", "quantity", "price", "totalCost"]

  /** The sort the handler asks for: none unless `sortBy` is whitelisted; descending only for "desc". */
  function SortSelection(q: Query): (s: Option<Sort>)
    ensures s.Some? <==> q.sortBy in AllowedSortFields
    ensures s.Some? ==> FieldName(s.value.field) == q.sortBy
    ensures s.Some? ==> (s.value.descending <==> q.sortOrder == "desc")
  {
    var desc := q.sortOrder == "desc";
    if q.sortBy == "symbol" then Some(Sort(SymbolField, desc))
    else if q.sortBy == "quantity" then Some(Sort(QuantityField, desc))
    else if q.sortBy == "price" then Some(Sort(PriceField, desc))
    else if q.sortBy == "totalCost" then Some(Sort(TotalCostField, desc))
    else None
  }

  /** Code-point lexicographic order on strings (the database's binary string order). */
  predicate TextLe(a: string, b: string)
  {
    if a == [] then true
    else if b == [] then false
    else if a[0] != b[0] then a[0] < b[0]
    else TextLe(a[1..], b[1..])
  }

  lemma {:induction false} TextLeTotal(a: string, b: string)
    ensures TextLe(a, b) || TextLe(b, a)
  {
    if a != [] && b != [] && a[0] == b[0] {
      TextLeTotal(a[1..], b[1..]);
    }
  }

  lemma {:induction false} TextLeTransitive(a: string, b: string, c: string)
    requires TextLe(a, b) && TextLe(b, c)
    ensures TextLe(a, c)
  {
    if a != [] && b != [] && c != [] && a[0] == b[0] && b[0] == c[0] {
      TextLeTransitive(a[1..], b[1..], c[1..]);
    }
  }

  predicate KeyLe(f: SortField, a: Transaction, b: Transaction)
  {
    match f
    case SymbolField => TextLe(a.symbol, b.symbol)
    case QuantityField => a.quantity <= b.quantity
    case PriceField => a.price <= b.price
    case TotalCostField => a.totalCost <= b.totalCost
  }

  /** `a` may come before `b` in the requested order. */
  predicate Precedes(s: Sort, a: Transaction, b: Transaction)
  {
    if s.descending then KeyLe(s.field, b, a) else KeyLe(s.field, a, b)
  }

  lemma PrecedesTotal(s: Sort, a: Transaction, b: Transaction)
    ensures Precedes(s, a, b) || Precedes(s, b, a)
  {
    if s.field == SymbolField {
      TextLeTotal(a.symbol, b.symbol);
    }
  }

  lemma PrecedesTransitive(s: Sort, a: Transaction, b: Transaction, c: Transaction)
    requires Precedes(s, a, b) && Precedes(s, b, c)
    ensures Precedes(s, a, c)
  {
    if s.field == SymbolField {
      if s.descending {
        TextLeTransitive(c.symbol, b.symbol, a.symbol);
      } else {
        TextLeTransitive(a.symbol, b.symbol, c.symbol);
      }
    }
  }

  predicate SortedBy(s: Sort, xs: seq<Transaction>)
  {
    forall i, j :: 0 <= i < j < |xs| ==> Precedes(s, xs[i], xs[j])
  }

  function Insert(s: Sort, x: Transaction, xs: seq<Transaction>): (r: seq<Transaction>)
    requires SortedBy(s, xs)
    ensures SortedBy(s, r)
    ensures multiset(r) == multiset(xs) + multiset{x}
  {
    if xs == [] then [x]
    else if Precedes(s, x, xs[0]) then
      assert forall y :: y in xs ==> Precedes(s, x, y) by {
        forall y | y in xs ensures Precedes(s, x, y) {
          if y != xs[0] {
            PrecedesTransitive(s, x, xs[0], y);
          }
        }
      }
      ConsSorted(s, x, xs);
      [x] + xs
    else
      PrecedesTotal(s, x, xs[0]);
      assert xs == [xs[0]] + xs[1..];
      var rest := Insert(s, x, xs[1..]);
      assert forall y :: y in rest ==> Precedes(s, xs[0], y) by {
        forall y | y in rest ensures Precedes(s, xs[0], y) {
          assert y in multiset(rest);
          assert y == x || y in xs[1..];
        }
      }
      ConsSorted(s, xs[0], rest);
      [xs[0]] + rest
  }

  /** A sorted sequence stays sorted under a new head that may precede all its elements. */
  lemma ConsSorted(s: Sort, h: Transaction, xs: seq<Transaction>)
    requires SortedBy(s, xs) && forall y :: y in xs ==> Precedes(s, h, y)
    ensures SortedBy(s, [h] + xs)
  {
    var r := [h] + xs;
    forall i, j | 0 <= i < j < |r| ensures Precedes(s, r[i], r[j]) {
      assert r[j] == xs[j - 1];
      if i > 0 {
        assert r[i] == xs[i - 1];
      }
    }
  }

  /** A reference ordering of the found transactions by the requested key (ties in no particular order). */
  function SortBy(s: Sort, xs: seq<Transaction>): (r: seq<Transaction>)
    ensures SortedBy(s, r)
    ensures multiset(r) == multiset(xs)
  {
    if xs == [] then []
    else
      assert xs == xs[..|xs| - 1] + [xs[|xs| - 1]];
      Insert(s, xs[|xs| - 1], SortBy(s, xs[..|xs| - 1]))
  }

  /** What the history query returns from stored transactions `log`. */
  function Result(log: seq<Transaction>, q: Query): (r: seq<Transaction>)
    ensures multiset(r) == multiset(Filter(log, q))
    ensures SortSelection(q).None? ==> r == Filter(log, q)
    ensures SortSelection(q).Some? ==> SortedBy(SortSelection(q).value, r)
  {
    var found := Filter(log, q);
    match SortSelection(q)
    case None => found
    case Some(s) => SortBy(s, found)
  }

  // ---------------------------------------------------------------- properties

  /** The result holds exactly the caller's matching transactions, each as often as it is stored. */
  lemma ResultIsTheMatches(log: seq<Transaction>, q: Query)
    ensures forall t :: multiset(Result(log, q))[t] == if Matches(q, t) then multiset(log)[t] else 0
    ensures forall t :: t in Result(log, q) <==> t in log && Matches(q, t)
    ensures forall t :: t in Result(log, q) ==> t.userId == q.userId
  {
  }

  /** Bounds are inclusive: a transaction sitting exactly on both limits still matches. */
  lemma BoundsInclusive(q: Query, t: Transaction)
    requires t.userId == q.userId && q.symbol == "" && q.action == ""
    requires q.minQuantity == Some(t.quantity) && q.maxQuantity == Some(t.quantity)
    requires q.minPrice == Some(t.price) && q.maxPrice == Some(t.price)
    ensures Matches(q, t)
  {
  }

  /**
   * The trade handler records the symbol as the client sent it, while the
   * filter upper-cases the requested symbol: a stored symbol holding a
   * lower-case letter is never found by a symbol filter.
   */
  lemma LowerCaseSymbolNeverMatches(q: Query, t: Transaction, i: int)
    requires q.symbol != "" && 0 <= i < |t.symbol| && 'a' <= t.symbol[i] <= 'z'
    ensures !Matches(q, t)
  {
  }
}
