/** `list_stock_tx` of the command line's stock listing: the transactions of a delivered
  * stock portfolio are flattened into (symbol, transaction) pairs, sorted newest first and
  * emitted as table rows after one header row. The date and number formatting of a row is
  * left to the printer, so a row keeps the raw values. */
module CliStock {
  import opened Wrappers
  import opened Alloc
  import opened Stocks
  import Sorting

  /** One element of `all_tx`: the instrument's symbol and the transaction. */
  type Entry = (Option<string>, StockTx)

  /** What `list_stock_tx` hands its `IStockTx`: the header columns, then one row per
    * transaction. */
  datatype Line =
    | Headers(cols: seq<string>)
    | TxRow(symbol: Option<string>, date: int, broker: string, side: string, price: real, shares: real, fee: real)

  const HEADERS: seq<string> := ["Symbol", "Date", "Broker", "Type", "Price", "Shares", "Fee"]

  /** The stock buffer and the `StockWithTx` buffer span `num` cells, every entry points at a
    * stock of the buffer, and every transaction list spans its cells. */
  predicate PortfolioShape(p: StockPortfolio)
  {
    && Spans(p.firstStock, p.num)
    && Spans(p.firstStockWithTx, p.num)
    && EntriesShape(Range(p.firstStock, p.num), Range(p.firstStockWithTx, p.num))
  }

  predicate EntriesShape(stocks: seq<Stock>, swts: seq<StockWithTx>)
  {
    forall i :: 0 <= i < |swts| ==> swts[i].instrument < |stocks| && swts[i].txList.WellFormed()
  }

  /** The transactions of one list. */
  function TxsOf(l: StockTxList): (txs: seq<StockTx>)
    requires l.WellFormed()
    ensures |txs| == l.num
  {
    Range(l.firstTx, l.num)
  }

  /** Every transaction of `txs` paired with `symbol`, in order. */
  function Pairs(symbol: Option<string>, txs: seq<StockTx>): (r: seq<Entry>)
    ensures |r| == |txs|
    ensures forall k :: 0 <= k < |txs| ==> r[k] == (symbol, txs[k])
  {
    seq(|txs|, k requires 0 <= k < |txs| => (symbol, txs[k]))
  }

  /** The pairs one `StockWithTx` contributes. */
  function EntryPairs(stocks: seq<Stock>, stx: StockWithTx): seq<Entry>
    requires stx.instrument < |stocks| && stx.txList.WellFormed()
  {
    Pairs(stocks[stx.instrument].symbol, TxsOf(stx.txList))
  }

  /** The pairs of every entry, entry after entry. */
  function Flatten(stocks: seq<Stock>, swts: seq<StockWithTx>): seq<Entry>
    requires EntriesShape(stocks, swts)
  {
    if swts == [] then [] else Flatten(stocks, swts[..|swts| - 1]) + EntryPairs(stocks, swts[|swts| - 1])
  }

  /** The number of transactions of the entries. */
  function TotalTx(swts: seq<StockWithTx>): int
  {
    if swts == [] then 0 else TotalTx(swts[..|swts| - 1]) + swts[|swts| - 1].txList.num
  }

  lemma {:induction false} FlattenLength(stocks: seq<Stock>, swts: seq<StockWithTx>)
    requires EntriesShape(stocks, swts)
    ensures |Flatten(stocks, swts)| == TotalTx(swts)
  {
    if swts != [] {
      FlattenLength(stocks, swts[..|swts| - 1]);
    }
  }

  /** Transaction `k` of entry `i` sits at position `TotalTx(swts[..i]) + k` of the flattened
    * list, paired with the symbol of the entry's stock. With `FlattenLength` these positions
    * fill the list, so every transaction is in it exactly once. */
  lemma {:induction false} FlattenAt(stocks: seq<Stock>, swts: seq<StockWithTx>, i: nat, k: nat)
    requires EntriesShape(stocks, swts)
    requires i < |swts| && k < swts[i].txList.num
    ensures 0 <= TotalTx(swts[..i]) && TotalTx(swts[..i]) + k < |Flatten(stocks, swts)|
    ensures Flatten(stocks, swts)[TotalTx(swts[..i]) + k] ==
      (stocks[swts[i].instrument].symbol, swts[i].txList.firstTx.cells[k])
  {
    var init := swts[..|swts| - 1];
    if i == |swts| - 1 {
      FlattenAtLast(stocks, swts, k);
    } else {
      var front, last := Flatten(stocks, init), EntryPairs(stocks, swts[|swts| - 1]);
      assert Flatten(stocks, swts) == front + last;
      assert init[..i] == swts[..i];
      FlattenAt(stocks, init, i, k);
      assert (front + last)[TotalTx(swts[..i]) + k] == front[TotalTx(swts[..i]) + k];
    }
  }

  /** `FlattenAt` for the last entry, whose pairs end the flattened list. */
  lemma {:induction false} FlattenAtLast(stocks: seq<Stock>, swts: seq<StockWithTx>, k: nat)
    requires EntriesShape(stocks, swts)
    requires swts != [] && k < swts[|swts| - 1].txList.num
    ensures 0 <= TotalTx(swts[..|swts| - 1]) && TotalTx(swts[..|swts| - 1]) + k < |Flatten(stocks, swts)|
    ensures Flatten(stocks, swts)[TotalTx(swts[..|swts| - 1]) + k] ==
      (stocks[swts[|swts| - 1].instrument].symbol, swts[|swts| - 1].txList.firstTx.cells[k])
  {
    var init := swts[..|swts| - 1];
    var front, last := Flatten(stocks, init), EntryPairs(stocks, swts[|swts| - 1]);
    assert Flatten(stocks, swts) == front + last;
    FlattenLength(stocks, init);
    NonNegativeTotal(init);
    assert (front + last)[|front| + k] == last[k];
  }

  /** Offsets of consecutive entries are `num` apart, so distinct (entry, transaction)
    * positions are distinct. */
  lemma {:induction false} TotalTxGrows(swts: seq<StockWithTx>, i: nat, j: nat)
    requires i < j <= |swts|
    requires forall m :: 0 <= m < |swts| ==> swts[m].txList.WellFormed()
    ensures TotalTx(swts[..i]) + swts[i].txList.num <= TotalTx(swts[..j])
  {
    var s := swts[..j];
    assert s[..|s| - 1] == swts[..j - 1];
    if i < j - 1 {
      TotalTxGrows(swts, i, j - 1);
      NonNegativeTotal(swts[..j - 1]);
    }
  }

  lemma {:induction false} NonNegativeTotal(swts: seq<StockWithTx>)
    requires forall m :: 0 <= m < |swts| ==> swts[m].txList.WellFormed()
    ensures TotalTx(swts) >= 0
  {
    if swts != [] {
      NonNegativeTotal(swts[..|swts| - 1]);
    }
  }

  /** The flattening loops of `list_stock_tx`: for each `StockWithTx`, each transaction of its
    * list is pushed with the symbol of its instrument. */
  method FlattenTx(p: StockPortfolio) returns (all: seq<Entry>)
    requires PortfolioShape(p)
    ensures all == Flatten(Range(p.firstStock, p.num), Range(p.firstStockWithTx, p.num))
  {
    var stocks := Walk(p.firstStock, p.num);
    var swts := Walk(p.firstStockWithTx, p.num);
    assert stocks == Range(p.firstStock, p.num);
    assert swts == Range(p.firstStockWithTx, p.num);
    all := [];
    var i := 0;
    while i < |swts|
      invariant 0 <= i <= |swts|
      invariant all == Flatten(stocks, swts[..i])
    {
      var stx := swts[i];
      var txs := ListTxs(stx.txList);
      assert txs == TxsOf(stx.txList);
      all := PushPairs(all, stocks[stx.instrument].symbol, txs);
      assert swts[..i + 1][..i] == swts[..i];
      i := i + 1;
    }
    assert swts[..i] == swts;
  }

  /** The inner loop of the flattening: each transaction of one list is pushed with `symbol`. */
  method PushPairs(all0: seq<Entry>, symbol: Option<string>, txs: seq<StockTx>) returns (all: seq<Entry>)
    ensures all == all0 + Pairs(symbol, txs)
  {
    all := all0;
    var k := 0;
    while k < |txs|
      invariant 0 <= k <= |txs|
      invariant all == all0 + Pairs(symbol, txs[..k])
    {
      assert Pairs(symbol, txs[..k + 1]) == Pairs(symbol, txs[..k]) + [(symbol, txs[k])];
      all := all + [(symbol, txs[k])];
      k := k + 1;
    }
    assert txs[..k] == txs;
  }

  /** The comparator of the `std::sort` call: a later date first. */
  function NewerFirst(c1: Entry, c2: Entry): bool
  {
    c1.1.date > c2.1.date
  }

  lemma NewerFirstIsStrictWeakOrder()
    ensures Sorting.StrictWeakOrder(NewerFirst)
  {
  }

  /** Dates never increase along `s`. */
  ghost predicate NewestFirst(s: seq<Entry>)
  {
    forall i, j :: 0 <= i < j < |s| ==> s[i].1.date >= s[j].1.date
  }

  lemma SortedByNewerFirst(s: seq<Entry>)
    ensures Sorting.SortedBy(s, NewerFirst) <==> NewestFirst(s)
  {
  }

  /** The row `add_row` receives for one pair. */
  function RowOf(c: Entry): (l: Line)
    ensures l.TxRow? && l.symbol == c.0 && l.date == c.1.date && l.broker == c.1.broker
    ensures l.side == SideName(c.1.side) && l.price == c.1.price && l.shares == c.1.shares && l.fee == c.1.fee
  {
    TxRow(c.0, c.1.date, c.1.broker, SideName(c.1.side), c.1.price, c.1.shares, c.1.fee)
  }

  /** The rows of `list_stock_tx`'s emitting loop, one per pair in order. */
  function RowsOf(s: seq<Entry>): (rows: seq<Line>)
    ensures |rows| == |s|
    ensures forall k :: 0 <= k < |s| ==> rows[k] == RowOf(s[k])
  {
    seq(|s|, k requires 0 <= k < |s| => RowOf(s[k]))
  }

  /** The `std::sort` call on `all_tx`: the same pairs, newest first. */
  method SortNewestFirst(all: seq<Entry>) returns (sorted: seq<Entry>)
    ensures multiset(sorted) == multiset(all)
    ensures NewestFirst(sorted)
  {
    var a := new Entry[|all|](i requires 0 <= i < |all| => all[i]);
    assert a[..] == all;
    NewerFirstIsStrictWeakOrder();
    Sorting.SortBy(a, NewerFirst);
    sorted := a[..];
    SortedByNewerFirst(sorted);
  }

  /** `list_stock_tx`'s callback up to the final output call: the header first, then one row per flattened
    * pair, the pairs reordered newest first with none lost or added (`sorted` is the
    * `all_tx` vector after the sort). */
  method ListStockTx(p: StockPortfolio) returns (sorted: seq<Entry>, lines: seq<Line>)
    requires PortfolioShape(p)
    ensures multiset(sorted) == multiset(Flatten(Range(p.firstStock, p.num), Range(p.firstStockWithTx, p.num)))
    ensures NewestFirst(sorted)
    ensures |lines| == |sorted| + 1 && lines[0] == Headers(HEADERS)
    ensures lines[1..] == RowsOf(sorted)
  {
    var all := FlattenTx(p);
    sorted := SortNewestFirst(all);
    lines := EmitRows(sorted);
  }

  /** The emitting loop of `list_stock_tx`: the header row, then one row per pair in order. */
  method EmitRows(sorted: seq<Entry>) returns (lines: seq<Line>)
    ensures |lines| == |sorted| + 1 && lines[0] == Headers(HEADERS)
    ensures lines[1..] == RowsOf(sorted)
  {
    lines := [Headers(HEADERS)];
    var k := 0;
    while k < |sorted|
      invariant 0 <= k <= |sorted|
      invariant lines == [Headers(HEADERS)] + RowsOf(sorted[..k])
    {
      assert RowsOf(sorted[..k + 1]) == RowsOf(sorted[..k]) + [RowOf(sorted[k])];
      lines := lines + [RowOf(sorted[k])];
      k := k + 1;
    }
    assert sorted[..k] == sorted;
  }
}
