/** `get_stock_portfolio(builder, broker, symbol)` of cloud-src/firestore.cc (and of its
  * older copy src/storage/firestore.cc), as the sequence of builder calls its handlers
  * make, and what the builder hands to `onSuccess` at the end of it. */
module FirestorePortfolio {
  import opened Wrappers
  import opened Alloc
  import opened Stocks
  import opened PortfolioBuilder

  /** What the transaction sub-query of one stock completed with. */
  datatype TxQueryResult = TxQueryOk(txs: seq<TxFields>) | TxQueryFailed

  /** One document of the stocks query: its id (the symbol), its "ccy" field and the outcome
    * of its transaction sub-query. */
  datatype StockDoc = StockDoc(symbol: string, ccy: string, txQuery: TxQueryResult)

  /** The transaction a `TxFields` becomes in its allocator. */
  function TxOf(t: TxFields): StockTx
  {
    NewStockTx(t.broker, t.shares, t.price, t.fee, t.kind, t.date)
  }

  function TxsOf(txs: seq<TxFields>): (r: seq<StockTx>)
    ensures |r| == |txs|
  {
    if txs == [] then [] else [TxOf(txs[0])] + TxsOf(txs[1..])
  }

  /** The stocks `add_stock` places, one per document in document order. */
  function StocksOf(docs: seq<StockDoc>): (r: seq<Stock>)
    ensures |r| == |docs|
  {
    if docs == [] then [] else [NewStock(docs[0].symbol, docs[0].ccy, [])] + StocksOf(docs[1..])
  }

  predicate SymbolsDistinct(docs: seq<StockDoc>)
  {
    forall i, j :: 0 <= i < j < |docs| ==> docs[i].symbol != docs[j].symbol
  }

  /** Whether a stock ends up with a transaction allocator: its query succeeded and
    * returned at least one transaction. */
  predicate HasTxs(d: StockDoc)
  {
    d.txQuery.TxQueryOk? && d.txQuery.txs != []
  }

  /** The stocks handler's loop: `add_stock` per document. */
  function AddStockEvents(docs: seq<StockDoc>): seq<PortfolioEvent>
  {
    if docs == [] then [] else [AddStockEv(docs[0].symbol, docs[0].ccy)] + AddStockEvents(docs[1..])
  }

  /** The transaction handler's loop: `incr_counter` then `addTx` per transaction. */
  function TxEvents(symbol: string, txs: seq<TxFields>): seq<PortfolioEvent>
  {
    if txs == [] then [] else [IncrEv(symbol), AddTxEv(symbol, txs[0])] + TxEvents(symbol, txs[1..])
  }

  /** The calls one transaction sub-query's completion makes: `prepare_tx_alloc` and the
    * loop on success, `rm_stock` on an error. */
  function CompletionEvents(d: StockDoc): seq<PortfolioEvent>
  {
    match d.txQuery
    case TxQueryOk(txs) => [PrepareTx(d.symbol, |txs|)] + TxEvents(d.symbol, txs)
    case TxQueryFailed => [RmStockEv(d.symbol)]
  }

  function CompletionsEvents(order: seq<StockDoc>): seq<PortfolioEvent>
  {
    if order == [] then [] else CompletionEvents(order[0]) + CompletionsEvents(order[1..])
  }

  /** All calls made when the stocks query returns `docs` and the sub-queries complete in
    * the order `order`, each after every `add_stock`. */
  function PortfolioEvents(docs: seq<StockDoc>, order: seq<StockDoc>): seq<PortfolioEvent>
  {
    [PrepareStocks(|docs|)] + AddStockEvents(docs) + CompletionsEvents(order)
  }

  /** The transaction allocators after one more stock has completed. */
  function WithTxOf(tx: map<string, AllocState<StockTx>>, d: StockDoc): (r: map<string, AllocState<StockTx>>)
    ensures forall k :: k in r <==> k in tx || (k == d.symbol && HasTxs(d))
    ensures forall k :: k in tx && k != d.symbol ==> r[k] == tx[k]
    ensures HasTxs(d) ==> r[d.symbol] == AllocState(TxsOf(d.txQuery.txs), |d.txQuery.txs|, |d.txQuery.txs|)
  {
    if HasTxs(d) then tx[d.symbol := AllocState(TxsOf(d.txQuery.txs), |d.txQuery.txs|, |d.txQuery.txs|)]
    else tx
  }

  function FoldTx(tx: map<string, AllocState<StockTx>>, order: seq<StockDoc>): map<string, AllocState<StockTx>>
    decreases |order|
  {
    if order == [] then tx else FoldTx(WithTxOf(tx, order[0]), order[1..])
  }

  /** The transaction map `onSuccess` is meant to receive. */
  function TxMap(order: seq<StockDoc>): map<string, AllocState<StockTx>>
  {
    FoldTx(map[], order)
  }

  /** The builder after the completion of one stock whose sub-query was the last to start
    * it: `unfinished_stocks` is one less, and the builder delivers when that reaches 0,
    * except that as written a failed sub-query never does. */
  function AfterCompletion(s: PortfolioState, d: StockDoc, rules: Rules): PortfolioState
    requires !s.consumed
  {
    var t := s.(tx := WithTxOf(s.tx, d), unfinished := s.unfinished - 1);
    if t.unfinished == 0 && (rules == Corrected || d.txQuery.TxQueryOk?) then t.Deliver() else t
  }

  function FinalState(s: PortfolioState, order: seq<StockDoc>, rules: Rules): PortfolioState
    requires !s.consumed && order != []
  {
    var t := s.(tx := FoldTx(s.tx, order), unfinished := 0);
    if rules == Corrected || order[|order| - 1].txQuery.TxQueryOk? then t.Deliver() else t
  }

  lemma {:induction false} RunTwo(s: PortfolioState, e1: PortfolioEvent, e2: PortfolioEvent, rules: Rules)
    ensures Run(s, [e1, e2], rules) ==
      (if Step(s, e1, rules).Some? then Step(Step(s, e1, rules).value, e2, rules) else None)
  {
    assert [e1, e2][0] == e1 && [e1, e2][1..] == [e2];
    match Step(s, e1, rules)
    case None =>
    case Some(t) =>
      RunOne(t, e2, rules);
  }

  lemma {:induction false} RunOne(s: PortfolioState, e: PortfolioEvent, rules: Rules)
    ensures Run(s, [e], rules) == Step(s, e, rules)
  {
    assert [e][0] == e && [e][1..] == [];
    match Step(s, e, rules)
    case None =>
    case Some(t) =>
      assert Run(t, [], rules) == Some(t);
  }

  /** The builder with `stocks` placed after the stocks it holds. */
  function StocksPlaced(s: PortfolioState, stocks: seq<Stock>): PortfolioState
    requires s.stockAlloc.Some?
  {
    s.(stockAlloc := Some(s.stockAlloc.value.(items := s.stockAlloc.value.items + stocks)))
  }

  lemma {:induction false} AddStocksRun(s: PortfolioState, docs: seq<StockDoc>, rules: Rules)
    requires !s.consumed && s.stockAlloc.Some?
    requires |s.stockAlloc.value.items| + |docs| <= s.stockAlloc.value.capacity
    ensures Run(s, AddStockEvents(docs), rules) == Some(StocksPlaced(s, StocksOf(docs)))
    decreases |docs|
  {
    if docs == [] {
      assert s.stockAlloc.value.items + [] == s.stockAlloc.value.items;
    } else {
      AddStockCons(s, docs, rules);
      AddStocksRun(s.AddStock(docs[0].symbol, docs[0].ccy), docs[1..], rules);
      StocksPlacedStep(s, docs);
    }
  }

  /** The first `add_stock` of the loop, then the rest of the loop. */
  lemma {:induction false} AddStockCons(s: PortfolioState, docs: seq<StockDoc>, rules: Rules)
    requires !s.consumed && s.stockAlloc.Some? && s.stockAlloc.value.HasRoom() && docs != []
    ensures Run(s, AddStockEvents(docs), rules) ==
      Run(s.AddStock(docs[0].symbol, docs[0].ccy), AddStockEvents(docs[1..]), rules)
  {
    var e := AddStockEv(docs[0].symbol, docs[0].ccy);
    assert AddStockEvents(docs) == [e] + AddStockEvents(docs[1..]);
    assert Step(s, e, rules) == Some(s.AddStock(docs[0].symbol, docs[0].ccy));
    RunOne(s, e, rules);
    RunAppend(s, [e], AddStockEvents(docs[1..]), rules);
  }

  lemma {:induction false} StocksPlacedStep(s: PortfolioState, docs: seq<StockDoc>)
    requires !s.consumed && s.stockAlloc.Some? && s.stockAlloc.value.HasRoom() && docs != []
    ensures StocksPlaced(s.AddStock(docs[0].symbol, docs[0].ccy), StocksOf(docs[1..])) == StocksPlaced(s, StocksOf(docs))
  {
    assert s.stockAlloc.value.items + StocksOf(docs)
        == s.stockAlloc.value.items + [NewStock(docs[0].symbol, docs[0].ccy, [])] + StocksOf(docs[1..]);
  }

  /** The builder once the loop of a stock has placed `rest` and the stock is finished:
    * the allocator holds `rest` after what it held, fully counted, and one stock fewer is
    * pending, delivering when none is. */
  function TxsPlaced(s: PortfolioState, symbol: string, rest: seq<TxFields>): PortfolioState
    requires !s.consumed && symbol in s.tx
  {
    var a := s.tx[symbol];
    var t := s.(tx := s.tx[symbol := a.(items := a.items + TxsOf(rest), counter := a.capacity)],
                unfinished := s.unfinished - 1);
    if t.unfinished == 0 then t.Deliver() else t
  }

  /** The builder with transaction `t` counted and placed in the allocator of `symbol`,
    * before the completion check. */
  function PlaceTx(s: PortfolioState, symbol: string, t: TxFields): (r: PortfolioState)
    requires symbol in s.tx
    ensures symbol in r.tx && r.unfinished == s.unfinished && r.consumed == s.consumed
    ensures r.tx[symbol].capacity == s.tx[symbol].capacity
    ensures r.tx[symbol].counter == s.tx[symbol].counter + 1
    ensures r.tx[symbol].items == s.tx[symbol].items + [TxOf(t)]
  {
    var a := s.tx[symbol];
    s.(tx := s.tx[symbol := a.(items := a.items + [TxOf(t)], counter := a.counter + 1)])
  }

  /** The transaction loop of a stock whose allocator still needs exactly `|rest|` counts
    * places every transaction of `rest` and then finishes the stock. */
  lemma {:induction false} TxEventsRun(s: PortfolioState, symbol: string, rest: seq<TxFields>, rules: Rules)
    requires !s.consumed && s.unfinished >= 1 && symbol in s.tx && rest != []
    requires s.tx[symbol].counter + |rest| == s.tx[symbol].capacity
    requires |s.tx[symbol].items| + |rest| <= s.tx[symbol].capacity
    ensures Run(s, TxEvents(symbol, rest), rules) == Some(TxsPlaced(s, symbol, rest))
    decreases |rest|
  {
    TxEventsCons(s, symbol, rest, rules);
    if |rest| == 1 {
      TxsPlacedLast(s, symbol, rest);
    } else {
      TxsPlacedStep(s, symbol, rest);
      TxEventsRun(PlaceTx(s, symbol, rest[0]), symbol, rest[1..], rules);
    }
  }

  /** The first `incr_counter`/`addTx` pair of the loop, then the rest of the loop. */
  lemma {:induction false} TxEventsCons(s: PortfolioState, symbol: string, rest: seq<TxFields>, rules: Rules)
    requires !s.consumed && symbol in s.tx && |s.tx[symbol].items| < s.tx[symbol].capacity && rest != []
    ensures Run(s, TxEvents(symbol, rest), rules) ==
      Run(PlaceTx(s, symbol, rest[0]).CheckCompletion(Some(symbol)), TxEvents(symbol, rest[1..]), rules)
  {
    PairRun(s, symbol, rest[0], rules);
    assert TxEvents(symbol, rest) == [IncrEv(symbol), AddTxEv(symbol, rest[0])] + TxEvents(symbol, rest[1..]);
    RunAppend(s, [IncrEv(symbol), AddTxEv(symbol, rest[0])], TxEvents(symbol, rest[1..]), rules);
  }

  /** Placing the last transaction a stock needs finishes it. */
  lemma {:induction false} TxsPlacedLast(s: PortfolioState, symbol: string, rest: seq<TxFields>)
    requires !s.consumed && symbol in s.tx && |rest| == 1
    requires s.tx[symbol].counter + 1 == s.tx[symbol].capacity
    ensures TxEvents(symbol, rest[1..]) == []
    ensures PlaceTx(s, symbol, rest[0]).CheckCompletion(Some(symbol)) == TxsPlaced(s, symbol, rest)
  {
    assert rest[1..] == [] && TxsOf(rest) == [TxOf(rest[0])];
  }

  /** Placing a transaction before the last leaves the stock pending, and the rest of the loop
    * ends where the whole loop would. */
  lemma {:induction false} TxsPlacedStep(s: PortfolioState, symbol: string, rest: seq<TxFields>)
    requires !s.consumed && symbol in s.tx && |rest| > 1
    requires s.tx[symbol].counter + |rest| == s.tx[symbol].capacity
    ensures PlaceTx(s, symbol, rest[0]).CheckCompletion(Some(symbol)) == PlaceTx(s, symbol, rest[0])
    ensures TxsPlaced(PlaceTx(s, symbol, rest[0]), symbol, rest[1..]) == TxsPlaced(s, symbol, rest)
  {
    var a := s.tx[symbol];
    var placed := a.(items := a.items + [TxOf(rest[0])], counter := a.counter + 1);
    assert placed.items + TxsOf(rest[1..]) == a.items + TxsOf(rest);
    assert s.tx[symbol := placed][symbol := placed.(items := placed.items + TxsOf(rest[1..]), counter := a.capacity)]
        == s.tx[symbol := a.(items := a.items + TxsOf(rest), counter := a.capacity)];
  }

  /** One `incr_counter` and `addTx` pair on a registered symbol with room. */
  lemma {:induction false} PairRun(s: PortfolioState, symbol: string, t: TxFields, rules: Rules)
    requires !s.consumed && symbol in s.tx && |s.tx[symbol].items| < s.tx[symbol].capacity
    ensures Run(s, [IncrEv(symbol), AddTxEv(symbol, t)], rules) ==
      Some(PlaceTx(s, symbol, t).CheckCompletion(Some(symbol)))
  {
    var a := s.tx[symbol];
    var s1 := s.IncrCounter(symbol);
    assert Step(s, IncrEv(symbol), rules) == Some(s1);
    assert s1.tx[symbol] == a.IncCounter();
    var placed := a.IncCounter().Next(TxOf(t));
    assert s1.tx[symbol := placed] == s.tx[symbol := placed];
    assert s1.AddTx(t.broker, symbol, t.kind, t.price, t.shares, t.fee, t.date)
        == Ok(PlaceTx(s, symbol, t).CheckCompletion(Some(symbol)));
    RunTwo(s, IncrEv(symbol), AddTxEv(symbol, t), rules);
  }

  /** The calls of one sub-query's completion, for a stock not yet seen, take the builder to
    * `AfterCompletion`. */
  lemma {:induction false} CompletionRun(s: PortfolioState, d: StockDoc, rules: Rules)
    requires !s.consumed && s.unfinished >= 1 && d.symbol !in s.tx
    ensures Run(s, CompletionEvents(d), rules) == Some(AfterCompletion(s, d, rules))
  {
    match d.txQuery
    case TxQueryFailed =>
      assert s.tx - {d.symbol} == s.tx;
      assert CompletionEvents(d)[1..] == [];
    case TxQueryOk(txs) =>
      CompletionRunOk(s, d, txs, rules);
  }

  lemma {:induction false} CompletionRunOk(s: PortfolioState, d: StockDoc, txs: seq<TxFields>, rules: Rules)
    requires !s.consumed && s.unfinished >= 1 && d.symbol !in s.tx
    requires d.txQuery == TxQueryOk(txs)
    ensures Run(s, CompletionEvents(d), rules) == Some(AfterCompletion(s, d, rules))
  {
    var e := PrepareTx(d.symbol, |txs|);
    var s1 := s.PrepareTxAlloc(d.symbol, |txs|);
    assert Run(s, [e], rules) == Some(s1);
    RunAppend(s, [e], TxEvents(d.symbol, txs), rules);
    if txs != [] {
      TxEventsRun(s1, d.symbol, txs, rules);
      PlacedIsCompletion(s, d, txs, rules);
    }
  }

  /** Placing every transaction of a fresh allocator completes the stock as `AfterCompletion`. */
  lemma {:induction false} PlacedIsCompletion(s: PortfolioState, d: StockDoc, txs: seq<TxFields>, rules: Rules)
    requires !s.consumed && s.unfinished >= 1 && d.symbol !in s.tx
    requires d.txQuery == TxQueryOk(txs) && txs != []
    ensures TxsPlaced(s.PrepareTxAlloc(d.symbol, |txs|), d.symbol, txs) == AfterCompletion(s, d, rules)
  {
    var s1 := s.PrepareTxAlloc(d.symbol, |txs|);
    assert s1.tx[d.symbol] == AllocState([], |txs|, 0);
    assert [] + TxsOf(txs) == TxsOf(txs);
    assert s1.tx[d.symbol := AllocState(TxsOf(txs), |txs|, |txs|)] == WithTxOf(s.tx, d);
  }

  /** The completions of distinct, not yet seen stocks that are exactly the ones pending
    * take the builder to `FinalState`. */
  lemma {:induction false} CompletionsRun(s: PortfolioState, order: seq<StockDoc>, rules: Rules)
    requires !s.consumed && order != [] && s.unfinished == |order|
    requires SymbolsDistinct(order)
    requires forall i :: 0 <= i < |order| ==> order[i].symbol !in s.tx
    ensures Run(s, CompletionsEvents(order), rules) == Some(FinalState(s, order, rules))
    decreases |order|
  {
    CompletionRun(s, order[0], rules);
    var s1 := AfterCompletion(s, order[0], rules);
    RunAppend(s, CompletionEvents(order[0]), CompletionsEvents(order[1..]), rules);
    if |order| == 1 {
      assert order[1..] == [];
      assert CompletionsEvents(order[1..]) == [];
      assert Run(s1, [], rules) == Some(s1);
      assert FoldTx(s.tx, order) == WithTxOf(s.tx, order[0]);
    } else {
      assert s1 == s.(tx := WithTxOf(s.tx, order[0]), unfinished := s.unfinished - 1);
      forall i | 0 <= i < |order[1..]|
        ensures order[1..][i].symbol !in s1.tx
      {
        assert order[1..][i] == order[i + 1];
      }
      CompletionsRun(s1, order[1..], rules);
      assert order[1..][|order[1..]| - 1] == order[|order| - 1];
    }
  }

  /** What `get_stock_portfolio` delivers when the stocks query returns `docs` and the
    * transaction sub-queries complete in any order. With the corrected builder, `onSuccess`
    * fires exactly once, with every stock in document order and a transaction allocator for
    * exactly the stocks that have transactions. As written it fires only when the last
    * sub-query to complete succeeded, and never for an empty portfolio: both times the
    * builder is left with `unfinished_stocks` at 0, alive, and never delivers. */
  lemma {:induction false} FirestorePortfolioFlow(docs: seq<StockDoc>, order: seq<StockDoc>, rules: Rules)
    requires multiset(order) == multiset(docs) && SymbolsDistinct(order)
    ensures Run(CreatePortfolioBuilder(), PortfolioEvents(docs, order), rules).Some?
    ensures var r := Run(CreatePortfolioBuilder(), PortfolioEvents(docs, order), rules).value;
      var delivers := rules == Corrected || (order != [] && order[|order| - 1].txQuery.TxQueryOk?);
      && r.unfinished == 0
      && (r.consumed <==> delivers)
      && r.delivered == (if delivers then [Delivery(Some(AllocState(StocksOf(docs), |docs|, 0)), TxMap(order))] else [])
  {
    assert |order| == |multiset(order)| == |multiset(docs)| == |docs|;
    var n := |docs|;
    var s0 := if rules == AsWritten then CreatePortfolioBuilder().PrepareStockAlloc(n)
              else CreatePortfolioBuilder().PrepareStockAllocCompleting(n);
    assert Run(CreatePortfolioBuilder(), [PrepareStocks(n)], rules) == Some(s0);
    RunAppend(CreatePortfolioBuilder(), [PrepareStocks(n)], AddStockEvents(docs), rules);
    RunAppend(CreatePortfolioBuilder(), [PrepareStocks(n)] + AddStockEvents(docs), CompletionsEvents(order), rules);
    if n == 0 {
      assert docs == [] && order == [];
      assert AddStockEvents(docs) == [] && CompletionsEvents(order) == [];
    } else {
      assert s0 == PortfolioState(Some(AllocState([], n, 0)), map[], n, [], false);
      AddStocksRun(s0, docs, rules);
      var s1 := s0.(stockAlloc := Some(AllocState([] + StocksOf(docs), n, 0)));
      assert [] + StocksOf(docs) == StocksOf(docs);
      CompletionsRun(s1, order, rules);
    }
  }

  /** The transaction map delivered has an entry for exactly the stocks that have
    * transactions, each holding that stock's transactions in query order, fully counted. */
  lemma {:induction false} FoldTxContents(tx: map<string, AllocState<StockTx>>, order: seq<StockDoc>)
    requires SymbolsDistinct(order)
    requires forall i :: 0 <= i < |order| ==> order[i].symbol !in tx
    ensures forall k :: k in FoldTx(tx, order) <==>
      k in tx || exists i :: 0 <= i < |order| && order[i].symbol == k && HasTxs(order[i])
    ensures forall k :: k in tx ==> FoldTx(tx, order)[k] == tx[k]
    ensures forall i :: 0 <= i < |order| && HasTxs(order[i]) ==>
      FoldTx(tx, order)[order[i].symbol] ==
        AllocState(TxsOf(order[i].txQuery.txs), |order[i].txQuery.txs|, |order[i].txQuery.txs|)
  {
    FoldTxKeys(tx, order);
    FoldTxKept(tx, order);
    FoldTxEntries(tx, order);
  }

  /** The step of the folds below: the rest of `order` sees none of its symbols in the map
    * after the first document. */
  lemma {:induction false} FoldTxTail(tx: map<string, AllocState<StockTx>>, order: seq<StockDoc>)
    requires order != [] && SymbolsDistinct(order)
    requires forall i :: 0 <= i < |order| ==> order[i].symbol !in tx
    ensures SymbolsDistinct(order[1..])
    ensures forall i :: 0 <= i < |order| - 1 ==> order[1..][i].symbol !in WithTxOf(tx, order[0])
    ensures FoldTx(tx, order) == FoldTx(WithTxOf(tx, order[0]), order[1..])
  {
    var rest := order[1..];
    forall i | 0 <= i < |rest|
      ensures rest[i].symbol !in WithTxOf(tx, order[0])
    {
      assert rest[i] == order[i + 1];
    }
    forall i, j | 0 <= i < j < |rest|
      ensures rest[i].symbol != rest[j].symbol
    {
      assert rest[i] == order[i + 1] && rest[j] == order[j + 1];
    }
  }

  lemma {:induction false} FoldTxKeys(tx: map<string, AllocState<StockTx>>, order: seq<StockDoc>)
    requires SymbolsDistinct(order)
    requires forall i :: 0 <= i < |order| ==> order[i].symbol !in tx
    ensures forall k :: k in FoldTx(tx, order) <==>
      k in tx || exists i :: 0 <= i < |order| && order[i].symbol == k && HasTxs(order[i])
    decreases |order|
  {
    if order != [] {
      var tx1 := WithTxOf(tx, order[0]);
      var rest := order[1..];
      FoldTxTail(tx, order);
      FoldTxKeys(tx1, rest);
      forall k
        ensures k in FoldTx(tx, order) <==>
          k in tx || exists i :: 0 <= i < |order| && order[i].symbol == k && HasTxs(order[i])
      {
        if exists i :: 0 <= i < |order| && order[i].symbol == k && HasTxs(order[i]) {
          var i :| 0 <= i < |order| && order[i].symbol == k && HasTxs(order[i]);
          if i > 0 {
            assert rest[i - 1] == order[i];
          }
        }
        if exists i :: 0 <= i < |rest| && rest[i].symbol == k && HasTxs(rest[i]) {
          var i :| 0 <= i < |rest| && rest[i].symbol == k && HasTxs(rest[i]);
          assert order[i + 1] == rest[i];
        }
      }
    }
  }

  lemma {:induction false} FoldTxKept(tx: map<string, AllocState<StockTx>>, order: seq<StockDoc>)
    requires SymbolsDistinct(order)
    requires forall i :: 0 <= i < |order| ==> order[i].symbol !in tx
    ensures forall k :: k in tx ==> k in FoldTx(tx, order) && FoldTx(tx, order)[k] == tx[k]
    decreases |order|
  {
    if order != [] {
      FoldTxTail(tx, order);
      FoldTxKept(WithTxOf(tx, order[0]), order[1..]);
    }
  }

  lemma {:induction false} FoldTxEntries(tx: map<string, AllocState<StockTx>>, order: seq<StockDoc>)
    requires SymbolsDistinct(order)
    requires forall i :: 0 <= i < |order| ==> order[i].symbol !in tx
    ensures forall i :: 0 <= i < |order| && HasTxs(order[i]) ==>
      order[i].symbol in FoldTx(tx, order) &&
      FoldTx(tx, order)[order[i].symbol] ==
        AllocState(TxsOf(order[i].txQuery.txs), |order[i].txQuery.txs|, |order[i].txQuery.txs|)
    decreases |order|
  {
    if order != [] {
      var tx1 := WithTxOf(tx, order[0]);
      var rest := order[1..];
      FoldTxTail(tx, order);
      FoldTxEntries(tx1, rest);
      FoldTxKept(tx1, rest);
      forall i | 0 <= i < |order| && HasTxs(order[i])
        ensures order[i].symbol in FoldTx(tx, order) && FoldTx(tx, order)[order[i].symbol] ==
          AllocState(TxsOf(order[i].txQuery.txs), |order[i].txQuery.txs|, |order[i].txQuery.txs|)
      {
        if i > 0 {
          assert rest[i - 1] == order[i];
        }
      }
    }
  }

  /** The delivered map in full: keys are the symbols of the stocks with transactions, and
    * each entry holds that stock's transactions. */
  lemma {:induction false} TxMapContents(order: seq<StockDoc>)
    requires SymbolsDistinct(order)
    ensures forall k :: k in TxMap(order) <==> exists i :: 0 <= i < |order| && order[i].symbol == k && HasTxs(order[i])
    ensures forall i :: 0 <= i < |order| && HasTxs(order[i]) ==>
      TxMap(order)[order[i].symbol] ==
        AllocState(TxsOf(order[i].txQuery.txs), |order[i].txQuery.txs|, |order[i].txQuery.txs|)
  {
    FoldTxContents(map[], order);
  }

  /** As written: one stock whose transaction query fails leaves the builder alive with
    * `unfinished_stocks` at 0 and `onSuccess` never called. */
  lemma {:induction false} AsWrittenFailedTxQueryNeverDelivers()
    ensures var docs := [StockDoc("A", "USD", TxQueryFailed)];
      var r := Run(CreatePortfolioBuilder(), PortfolioEvents(docs, docs), AsWritten);
      r.Some? && r.value.delivered == [] && !r.value.consumed && r.value.unfinished == 0
  {
    var docs := [StockDoc("A", "USD", TxQueryFailed)];
    FirestorePortfolioFlow(docs, docs, AsWritten);
  }

  /** As written: a portfolio query that finds no stocks leaves the builder alive and never
    * calls `onSuccess`; the corrected builder delivers the empty portfolio. */
  lemma {:induction false} AsWrittenEmptyPortfolioNeverDelivers()
    ensures var r := Run(CreatePortfolioBuilder(), PortfolioEvents([], []), AsWritten);
      r.Some? && r.value.delivered == [] && !r.value.consumed
    ensures var r := Run(CreatePortfolioBuilder(), PortfolioEvents([], []), Corrected);
      r.Some? && r.value.delivered == [Delivery(Some(AllocState([], 0, 0)), map[])]
  {
    FirestorePortfolioFlow([], [], AsWritten);
    FirestorePortfolioFlow([], [], Corrected);
  }

  /** A failed stocks query calls `failed()` (and throws): the builder is gone and nothing
    * is delivered. */
  lemma {:induction false} StocksQueryFailure(rules: Rules)
    ensures var r := Run(CreatePortfolioBuilder(), [FailedEv], rules);
      r.Some? && r.value.consumed && r.value.delivered == []
  {
  }
}
