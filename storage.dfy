/** The `Storage<DAO>` front end of storage.hxx: what it does with the builders' results
  * before handing them to the caller's callbacks. */
module Storage {
  import opened Wrappers
  import opened Alloc
  import opened Core
  import opened Stocks
  import opened PortfolioBuilder
  import Sorting
  import Text

  /** The comparator `get_funds` gives `std::sort`: by broker with `strcmp`, and by name
    * within the same broker. */
  predicate FundLess(f1: Fund, f2: Fund)
  {
    if f1.broker != f2.broker then Text.StrLess(f1.broker, f2.broker) else Text.StrLess(f1.name, f2.name)
  }

  lemma FundLessTransitive(x: Fund, y: Fund, z: Fund)
    requires FundLess(x, y) && FundLess(y, z)
    ensures FundLess(x, z)
  {
    Text.StrLessIrreflexive(x.broker);
    Text.StrLessIrreflexive(y.broker);
    if Text.StrLess(x.broker, y.broker) && Text.StrLess(y.broker, z.broker) {
      Text.StrLessTransitive(x.broker, y.broker, z.broker);
    }
    if Text.StrLess(x.name, y.name) && Text.StrLess(y.name, z.name) {
      Text.StrLessTransitive(x.name, y.name, z.name);
    }
  }

  /** Two funds either compare one way or the other, or agree on broker and name. */
  lemma FundLessTotal(x: Fund, y: Fund)
    ensures FundLess(x, y) || FundLess(y, x) || (x.broker == y.broker && x.name == y.name)
  {
    if x.broker != y.broker {
      Text.StrLessTotal(x.broker, y.broker);
    } else if x.name != y.name {
      Text.StrLessTotal(x.name, y.name);
    }
  }

  /** The comparator meets `std::sort`'s requirement of a strict weak ordering. */
  lemma FundLessStrictWeakOrder()
    ensures Sorting.StrictWeakOrder(FundLess)
  {
    forall x: Fund
      ensures !FundLess(x, x)
    {
      Text.StrLessIrreflexive(x.name);
    }
    forall x: Fund, y: Fund | FundLess(x, y)
      ensures !FundLess(y, x)
    {
      if FundLess(y, x) {
        FundLessTransitive(x, y, x);
        Text.StrLessIrreflexive(x.name);
      }
    }
    forall x: Fund, y: Fund, z: Fund | FundLess(x, y) && FundLess(y, z)
      ensures FundLess(x, z)
    {
      FundLessTransitive(x, y, z);
    }
    forall x: Fund, y: Fund, z: Fund | !FundLess(x, y) && !FundLess(y, z)
      ensures !FundLess(x, z)
    {
      if FundLess(x, z) {
        FundLessTotal(x, y);
        if FundLess(y, x) {
          FundLessTransitive(y, x, z);
        }
      }
    }
  }

  /** Sorted by the comparator means ascending by broker, and ascending by name among the
    * funds of one broker. */
  lemma SortedFundsOrder(s: seq<Fund>)
    requires Sorting.SortedBy(s, FundLess)
    ensures forall i, j :: 0 <= i < j < |s| ==>
      Text.StrLess(s[i].broker, s[j].broker) || (s[i].broker == s[j].broker && !Text.StrLess(s[j].name, s[i].name))
  {
    forall i, j | 0 <= i < j < |s|
      ensures Text.StrLess(s[i].broker, s[j].broker) || (s[i].broker == s[j].broker && !Text.StrLess(s[j].name, s[i].name))
    {
      assert !FundLess(s[j], s[i]);
      if s[i].broker != s[j].broker {
        Text.StrLessTotal(s[i].broker, s[j].broker);
      }
    }
  }

  /** The `onSuccess` of `get_funds`: sorts the allocated funds in place and wraps them in a
    * `FundPortfolio` of `allocated_num()` funds. */
  method DeliverFunds(fundAlloc: AllocState<Fund>) returns (p: FundPortfolio)
    ensures p.num == fundAlloc.AllocatedNum() && Spans(p.firstFund, p.num)
    ensures Sorting.SortedBy(Range(p.firstFund, p.num), FundLess)
    ensures multiset(Range(p.firstFund, p.num)) == multiset(fundAlloc.items)
  {
    var items := fundAlloc.items;
    var head := new Fund[|items|](i requires 0 <= i < |items| => items[i]);
    assert head[..] == items;
    FundLessStrictWeakOrder();
    Sorting.SortBy(head, FundLess);
    p := FundPortfolio(head.Length, Buf(head[..]));
    assert Range(p.firstFund, p.num) == head[..];
  }

  /** The `onSuccess` of `get_stock_portfolio`: a `StockPortfolio` of the allocated stocks
    * and their `create_stock_with_tx` entries. */
  method DeliverPortfolio(d: Delivery) returns (p: StockPortfolio)
    requires d.stocks.Some?
    requires forall i :: 0 <= i < |d.stocks.value.items| ==> d.stocks.value.items[i].symbol.Some?
    ensures p.num == d.stocks.value.AllocatedNum()
    ensures Spans(p.firstStock, p.num) && Range(p.firstStock, p.num) == d.stocks.value.items
    ensures Spans(p.firstStockWithTx, p.num)
    ensures forall i :: 0 <= i < p.num ==>
      p.firstStockWithTx.cells[i] == StockWithTx(i, TxListFor(d.stocks.value.items[i].symbol, d.tx))
  {
    var stocks := d.stocks.value;
    var withTx := CreateStockWithTx(stocks, d.tx);
    p := StockPortfolio(stocks.AllocatedNum(), Buf(stocks.items), Buf(withTx[..]));
  }

  /** The number of quote cells `get_quotes(num, symbols_head, ...)` preallocates: 10 when
    * no symbols are given (all latest quotes), `num` otherwise. */
  function QuotesPreallocation(num: int, symbolsGiven: bool): int
  {
    if symbolsGiven then num else 10
  }

  /** The `onSuccess` of `get_quotes`: `Quotes(allocated_num(), head())`. */
  method DeliverQuotes(alloc: AllocState<Quote>) returns (q: Quotes)
    ensures q.num == alloc.AllocatedNum() && Spans(q.first, q.num)
    ensures Range(q.first, q.num) == alloc.items
  {
    q := Quotes(|alloc.items|, Buf(alloc.items));
  }

  /** The `get_brokers` callback: `AllBrokers(allocated_num(), head())`. */
  method DeliverBrokers(alloc: AllocState<Broker>) returns (b: AllBrokers)
    ensures b.num == alloc.AllocatedNum() && Spans(b.firstBroker, b.num)
    ensures Range(b.firstBroker, b.num) == alloc.items
  {
    b := AllBrokers(Buf(alloc.items), |alloc.items|);
  }
}
