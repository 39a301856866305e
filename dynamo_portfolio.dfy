/** `get_stock_portfolio(builder, broker, symbol)` of cloud-src/dynamodb.cc: the stocks query
  * whose `onItem` adds each stock and runs that stock's transaction query inside the
  * callback. The query state is the sequence of calls made on the `StockPortfolioBuilder`,
  * whose effect is the builder model of storage.hxx. */
module DynamoPortfolio {
  import opened Wrappers
  import opened Alloc
  import opened Stocks
  import opened PortfolioBuilder
  import opened FirestorePortfolio
  import opened DynamoQuery
  import opened DynamoRequests

  /** The attributes the transaction handler reads from a transaction record. */
  datatype TxItem = TxItem(date: int, kind: string, price: real, fee: real, shares: real, broker: string)

  /** A stock record with the responses of its own transaction query. */
  datatype StockItem = StockItem(name: string, ccy: string, txPages: seq<Page<TxItem>>)

  /** The `addTx` arguments of a record: a "SPLIT" carries no fee and no shares, whatever the
    * record holds; any other type carries both as stored. */
  function TxFieldsOf(t: TxItem): (f: TxFields)
    ensures f.broker == t.broker && f.kind == t.kind && f.price == t.price && f.date == t.date
    ensures t.kind == "SPLIT" ==> f.shares == 0.0 && f.fee == 0.0
    ensures t.kind != "SPLIT" ==> f.shares == t.shares && f.fee == t.fee
  {
    var isSplit := t.kind == "SPLIT";
    TxFields(t.broker, t.kind, t.price, if isSplit then 0.0 else t.shares, if isSplit then 0.0 else t.fee, t.date)
  }

  function FieldsOf(txs: seq<TxItem>): (r: seq<TxFields>)
    ensures |r| == |txs|
  {
    if txs == [] then [] else [TxFieldsOf(txs[0])] + FieldsOf(txs[1..])
  }

  /** A result count as the builder's `int` argument; counts are never negative. */
  function CountArg(n: int): nat
  {
    if n < 0 then 0 else n
  }

  /** One transaction record: `incr_counter(name)`, then `addTx(...)`. */
  function TxCalls(name: string, log: seq<PortfolioEvent>, t: TxItem): seq<PortfolioEvent>
  {
    log + [IncrEv(name), AddTxEv(name, TxFieldsOf(t))]
  }

  /** The transaction handler; it always continues. */
  function TxOnItem(name: string): OnItem<seq<PortfolioEvent>, TxItem>
  {
    (log: seq<PortfolioEvent>, isLast: bool, t: TxItem) => Returned(TxCalls(name, log, t), true)
  }

  /** `prepare_tx_alloc(name, tx_count)`. */
  function TxOnCount(name: string): OnItemCount<seq<PortfolioEvent>>
  {
    (log: seq<PortfolioEvent>, n: int) => Ok(log + [PrepareTx(name, CountArg(n))])
  }

  /** One stock record: `add_stock(name, ccy)`, then the stock's transaction query; what
    * that query throws leaves the stock query too. */
  function StockCalls(log: seq<PortfolioEvent>, st: StockItem): ItemResult<seq<PortfolioEvent>>
  {
    var r := QueryFold(st.txPages, log + [AddStockEv(st.name, st.ccy)], TxOnItem(st.name), TxOnCount(st.name));
    if r.error.Some? then Threw(r.state, r.error.value) else Returned(r.state, true)
  }

  /** The stock handler. */
  function StockOnItem(): OnItem<seq<PortfolioEvent>, StockItem>
  {
    (log: seq<PortfolioEvent>, isLast: bool, st: StockItem) => StockCalls(log, st)
  }

  /** `prepare_stock_alloc(count)`. */
  function StockOnCount(): OnItemCount<seq<PortfolioEvent>>
  {
    (log: seq<PortfolioEvent>, n: int) => Ok(log + [PrepareStocks(CountArg(n))])
  }

  /** The stock's transaction query is answered by one final response. */
  predicate SingleTx(st: StockItem)
  {
    |st.txPages| == 1 && st.txPages[0].Page? && !st.txPages[0].more
  }

  /** Every stock's transaction query is answered by one final response. */
  predicate SingleTxPages(items: seq<StockItem>)
  {
    forall k :: 0 <= k < |items| ==> SingleTx(items[k])
  }

  /** The stock as the builder model sees it: its symbol, currency and the transactions of
    * its first response (its only one, where `SingleTx` holds). */
  function DocOf(st: StockItem): StockDoc
  {
    var txs := if st.txPages != [] && st.txPages[0].Page? then st.txPages[0].items else [];
    StockDoc(st.name, st.ccy, TxQueryOk(FieldsOf(txs)))
  }

  function DocsOf(items: seq<StockItem>): (r: seq<StockDoc>)
    ensures |r| == |items|
  {
    if items == [] then [] else [DocOf(items[0])] + DocsOf(items[1..])
  }

  lemma {:induction false} DocsOfAt(items: seq<StockItem>, k: nat)
    requires k < |items|
    ensures DocsOf(items)[k] == DocOf(items[k])
  {
    if k > 0 {
      DocsOfAt(items[1..], k - 1);
    }
  }

  /** The calls for stocks handled one after the other: each `add_stock` followed by that
    * stock's transaction calls. */
  function InterleavedEvents(docs: seq<StockDoc>): seq<PortfolioEvent>
  {
    if docs == [] then [] else [AddStockEv(docs[0].symbol, docs[0].ccy)] + CompletionEvents(docs[0]) + InterleavedEvents(docs[1..])
  }

  /** What the transaction handler appends for one record. */
  function TxGain(name: string): TxItem -> seq<PortfolioEvent>
  {
    (t: TxItem) => [IncrEv(name), AddTxEv(name, TxFieldsOf(t))]
  }

  lemma {:induction false} TxGather(name: string, txs: seq<TxItem>)
    ensures Gather(TxGain(name), txs) == TxEvents(name, FieldsOf(txs))
  {
    if txs != [] {
      TxGather(name, txs[1..]);
    }
  }

  /** One stock answered by one final transaction response adds the stock, then prepares
    * and fills its transaction allocator. */
  lemma StockCallsSingle(st: StockItem, log: seq<PortfolioEvent>)
    requires SingleTx(st)
    ensures StockCalls(log, st) == Returned(log + [AddStockEv(st.name, st.ccy)] + CompletionEvents(DocOf(st)), true)
  {
    var txs := st.txPages[0].items;
    var log0 := log + [AddStockEv(st.name, st.ccy)];
    var log1 := log0 + [PrepareTx(st.name, |txs|)];
    assert TxOnCount(st.name)(log0, |txs|) == Ok(log1);
    PageFoldAppends(txs, 0, true, log1, TxOnItem(st.name), TxGain(st.name));
    TxGather(st.name, txs);
    assert txs[0..] == txs;
    assert st.txPages == [Page(txs, false)];
    QueryFoldSingle(txs, log0, TxOnItem(st.name), TxOnCount(st.name), log1);
    assert log1 + TxEvents(st.name, FieldsOf(txs)) == log0 + CompletionEvents(DocOf(st));
  }

  /** What the stock handler appends for one stock answered by one final transaction
    * response. */
  function StockGain(): StockItem -> seq<PortfolioEvent>
  {
    (st: StockItem) => [AddStockEv(st.name, st.ccy)] + CompletionEvents(DocOf(st))
  }

  lemma {:induction false} StockGather(items: seq<StockItem>)
    ensures Gather(StockGain(), items) == InterleavedEvents(DocsOf(items))
  {
    if items != [] {
      StockGather(items[1..]);
      assert Gather(StockGain(), items) == StockGain()(items[0]) + Gather(StockGain(), items[1..]);
    }
  }

  lemma StockHandlerAppends(items: seq<StockItem>)
    requires SingleTxPages(items)
    ensures forall t: seq<PortfolioEvent>, b: bool, k :: 0 <= k < |items| ==>
      StockOnItem()(t, b, items[k]) == Returned(t + StockGain()(items[k]), true)
  {
    forall t: seq<PortfolioEvent>, b: bool, k | 0 <= k < |items|
      ensures StockOnItem()(t, b, items[k]) == Returned(t + StockGain()(items[k]), true)
    {
      assert SingleTx(items[k]);
      StockCallsSingle(items[k], t);
      assert StockOnItem()(t, b, items[k]) == StockCalls(t, items[k]);
      var st := items[k];
      assert StockGain()(st) == [AddStockEv(st.name, st.ccy)] + CompletionEvents(DocOf(st));
      assert t + [AddStockEv(st.name, st.ccy)] + CompletionEvents(DocOf(st)) == t + StockGain()(st);
    }
  }

  /** With one final stock response whose stocks are each answered by one final transaction
    * response: `prepare_stock_alloc(count)`, then per stock `add_stock`,
    * `prepare_tx_alloc(name, tx_count)` and an `incr_counter`/`addTx` pair per transaction;
    * nothing throws. */
  lemma PortfolioCalls(items: seq<StockItem>)
    requires SingleTxPages(items)
    ensures QueryFold([Page(items, false)], [], StockOnItem(), StockOnCount()).state
            == [PrepareStocks(|items|)] + InterleavedEvents(DocsOf(items))
    ensures QueryFold([Page(items, false)], [], StockOnItem(), StockOnCount()).error == None
  {
    var log0: seq<PortfolioEvent> := [PrepareStocks(|items|)];
    assert CountArg(|items|) == |items|;
    assert [] + log0 == log0;
    assert StockOnCount()([], |items|) == Ok(log0);
    StockHandlerAppends(items);
    PageFoldAppends(items, 0, true, log0, StockOnItem(), StockGain());
    StockGather(items);
    assert items[0..] == items;
    QueryFoldSingle(items, [], StockOnItem(), StockOnCount(), log0);
  }

  /** One new stock with room: `add_stock` followed by its transaction calls. */
  lemma HeadRun(s: PortfolioState, d: StockDoc, rules: Rules)
    requires !s.consumed && s.unfinished >= 1 && d.symbol !in s.tx
    requires s.stockAlloc.Some? && s.stockAlloc.value.HasRoom()
    ensures Run(s, [AddStockEv(d.symbol, d.ccy)] + CompletionEvents(d), rules) == Some(AfterCompletion(s.AddStock(d.symbol, d.ccy), d, rules))
  {
    var e := AddStockEv(d.symbol, d.ccy);
    var s1 := s.AddStock(d.symbol, d.ccy);
    RunOne(s, e, rules);
    assert Run(s, [e], rules) == Some(s1);
    CompletionRun(s1, d, rules);
    RunAppend(s, [e], CompletionEvents(d), rules);
  }

  /** Stocks handled one after the other, each new and with room in the stock allocator,
    * end as `FinalState` of the builder with those stocks placed. */
  lemma {:induction false} InterleavedRun(s: PortfolioState, docs: seq<StockDoc>, rules: Rules)
    requires !s.consumed && docs != [] && s.unfinished == |docs|
    requires s.stockAlloc.Some? && |s.stockAlloc.value.items| + |docs| <= s.stockAlloc.value.capacity
    requires SymbolsDistinct(docs)
    requires forall i :: 0 <= i < |docs| ==> docs[i].symbol !in s.tx
    ensures Run(s, InterleavedEvents(docs), rules) == Some(FinalState(StocksPlaced(s, StocksOf(docs)), docs, rules))
    decreases |docs|
  {
    var d := docs[0];
    var s2 := AfterCompletion(s.AddStock(d.symbol, d.ccy), d, rules);
    InterleavedCons(s, docs, rules);
    if |docs| == 1 {
      InterleavedLast(s, docs, rules);
    } else {
      InterleavedStep(s, docs, rules);
      InterleavedRun(s2, docs[1..], rules);
    }
  }

  /** The first stock's calls, then those of the rest. */
  lemma {:induction false} InterleavedCons(s: PortfolioState, docs: seq<StockDoc>, rules: Rules)
    requires !s.consumed && docs != [] && s.unfinished >= 1 && docs[0].symbol !in s.tx
    requires s.stockAlloc.Some? && s.stockAlloc.value.HasRoom()
    ensures Run(s, InterleavedEvents(docs), rules) ==
      Run(AfterCompletion(s.AddStock(docs[0].symbol, docs[0].ccy), docs[0], rules), InterleavedEvents(docs[1..]), rules)
  {
    var d := docs[0];
    HeadRun(s, d, rules);
    assert InterleavedEvents(docs) == [AddStockEv(d.symbol, d.ccy)] + CompletionEvents(d) + InterleavedEvents(docs[1..]);
    RunAppend(s, [AddStockEv(d.symbol, d.ccy)] + CompletionEvents(d), InterleavedEvents(docs[1..]), rules);
  }

  /** The only stock ends the run. */
  lemma {:induction false} InterleavedLast(s: PortfolioState, docs: seq<StockDoc>, rules: Rules)
    requires !s.consumed && |docs| == 1 && s.unfinished == 1
    requires s.stockAlloc.Some? && s.stockAlloc.value.HasRoom()
    ensures InterleavedEvents(docs[1..]) == []
    ensures AfterCompletion(s.AddStock(docs[0].symbol, docs[0].ccy), docs[0], rules)
         == FinalState(StocksPlaced(s, StocksOf(docs)), docs, rules)
  {
    var d := docs[0];
    assert docs[1..] == [];
    assert StocksOf(docs) == [NewStock(d.symbol, d.ccy, [])];
    assert s.AddStock(d.symbol, d.ccy) == StocksPlaced(s, StocksOf(docs));
    assert FoldTx(s.tx, docs) == WithTxOf(s.tx, d);
  }

  /** A stock before the last leaves the builder pending, ready for the rest, and the rest
    * of the run ends where the whole run would. */
  lemma {:induction false} InterleavedStep(s: PortfolioState, docs: seq<StockDoc>, rules: Rules)
    requires !s.consumed && |docs| > 1 && s.unfinished == |docs|
    requires s.stockAlloc.Some? && s.stockAlloc.value.HasRoom()
    requires SymbolsDistinct(docs)
    requires forall i :: 0 <= i < |docs| ==> docs[i].symbol !in s.tx
    ensures var s2 := AfterCompletion(s.AddStock(docs[0].symbol, docs[0].ccy), docs[0], rules);
      && s2 == s.AddStock(docs[0].symbol, docs[0].ccy).(tx := WithTxOf(s.tx, docs[0]), unfinished := s.unfinished - 1)
      && SymbolsDistinct(docs[1..])
      && (forall i :: 0 <= i < |docs| - 1 ==> docs[1..][i].symbol !in s2.tx)
      && FinalState(StocksPlaced(s2, StocksOf(docs[1..])), docs[1..], rules)
         == FinalState(StocksPlaced(s, StocksOf(docs)), docs, rules)
  {
    var d := docs[0];
    var rest := docs[1..];
    FoldTxTail(s.tx, docs);
    var s2 := s.AddStock(d.symbol, d.ccy).(tx := WithTxOf(s.tx, d), unfinished := s.unfinished - 1);
    assert StocksOf(docs) == [NewStock(d.symbol, d.ccy, [])] + StocksOf(rest);
    assert s.stockAlloc.value.items + StocksOf(docs)
        == s.stockAlloc.value.items + [NewStock(d.symbol, d.ccy, [])] + StocksOf(rest);
    assert rest[|rest| - 1] == docs[|docs| - 1];
    assert StocksPlaced(s2, StocksOf(rest)).(tx := FoldTx(s2.tx, rest), unfinished := 0)
        == StocksPlaced(s, StocksOf(docs)).(tx := FoldTx(s.tx, docs), unfinished := 0);
  }

  /** `prepare_stock_alloc(n)` followed by `n` distinct stocks handled one after the other
    * delivers exactly once, with every stock in order and a transaction allocator for
    * exactly the stocks that have transactions; as written, never for `n == 0`. */
  lemma InterleavedFlow(docs: seq<StockDoc>, rules: Rules)
    requires SymbolsDistinct(docs)
    requires forall i :: 0 <= i < |docs| ==> docs[i].txQuery.TxQueryOk?
    ensures var delivers := rules == Corrected || docs != [];
      var r := Run(CreatePortfolioBuilder(), [PrepareStocks(|docs|)] + InterleavedEvents(docs), rules);
      && r.Some?
      && (r.value.consumed <==> delivers)
      && r.value.delivered == (if delivers then [Delivery(Some(AllocState(StocksOf(docs), |docs|, 0)), TxMap(docs))] else [])
  {
    var n := |docs|;
    var s0 := if rules == AsWritten then CreatePortfolioBuilder().PrepareStockAlloc(n)
              else CreatePortfolioBuilder().PrepareStockAllocCompleting(n);
    RunOne(CreatePortfolioBuilder(), PrepareStocks(n), rules);
    RunAppend(CreatePortfolioBuilder(), [PrepareStocks(n)], InterleavedEvents(docs), rules);
    if n == 0 {
      assert InterleavedEvents(docs) == [];
      assert TxMap(docs) == map[];
    } else {
      assert s0 == PortfolioState(Some(AllocState([], n, 0)), map[], n, [], false);
      InterleavedRun(s0, docs, rules);
      assert [] + StocksOf(docs) == StocksOf(docs);
      assert StocksPlaced(s0, StocksOf(docs)).stockAlloc == Some(AllocState(StocksOf(docs), n, 0));
      assert FoldTx(s0.tx, docs) == TxMap(docs);
      assert docs[|docs| - 1].txQuery.TxQueryOk?;
    }
  }

  /** What `get_stock_portfolio` delivers when every query is answered by one final
    * response: a transaction query cannot fail without throwing out of the whole query, so
    * the builder delivers exactly once, with every stock in response order and a
    * transaction allocator for exactly the stocks that have transactions; except that as
    * written an empty stock response never delivers. */
  lemma DynamoPortfolioFlow(items: seq<StockItem>, rules: Rules)
    requires SingleTxPages(items) && SymbolsDistinct(DocsOf(items))
    ensures var log := QueryFold([Page(items, false)], [], StockOnItem(), StockOnCount()).state;
      var docs := DocsOf(items);
      var delivers := rules == Corrected || items != [];
      && Run(CreatePortfolioBuilder(), log, rules).Some?
      && Run(CreatePortfolioBuilder(), log, rules).value.delivered ==
         (if delivers then [Delivery(Some(AllocState(StocksOf(docs), |docs|, 0)), TxMap(docs))] else [])
  {
    PortfolioCalls(items);
    var docs := DocsOf(items);
    forall i | 0 <= i < |docs|
      ensures docs[i].txQuery.TxQueryOk?
    {
      DocsOfAt(items, i);
    }
    InterleavedFlow(docs, rules);
  }

  /** The transaction requests a run of builder calls implies: the stock handler sends one
    * right after each `add_stock(name, ccy)`, for that name and the caller's broker. */
  function TxRequestsOf(calls: seq<PortfolioEvent>, broker: Option<string>): seq<Request>
    decreases |calls|
  {
    if calls == [] then []
    else (if calls[0].AddStockEv? then [TxRequest(calls[0].symbol, broker)] else []) + TxRequestsOf(calls[1..], broker)
  }

  lemma {:induction false} TxRequestsOfAppend(a: seq<PortfolioEvent>, c: seq<PortfolioEvent>, broker: Option<string>)
    ensures TxRequestsOf(a + c, broker) == TxRequestsOf(a, broker) + TxRequestsOf(c, broker)
    decreases |a|
  {
    if a == [] {
      assert a + c == c;
    } else {
      assert (a + c)[0] == a[0] && (a + c)[1..] == a[1..] + c;
      TxRequestsOfAppend(a[1..], c, broker);
    }
  }

  /** A stock's transaction calls send no further transaction request. */
  lemma {:induction false} TxEventsSendNoRequest(symbol: string, txs: seq<TxFields>, broker: Option<string>)
    ensures TxRequestsOf(TxEvents(symbol, txs), broker) == []
    decreases |txs|
  {
    if txs != [] {
      var e := [IncrEv(symbol), AddTxEv(symbol, txs[0])];
      TxRequestsOfAppend(e, TxEvents(symbol, txs[1..]), broker);
      assert e[1..] == [AddTxEv(symbol, txs[0])] && e[1..][1..] == [];
      TxEventsSendNoRequest(symbol, txs[1..], broker);
    }
  }

  /** Over the interleaved calls, the `k`-th transaction request is for the `k`-th stock,
    * filtered to `broker` iff one is given. */
  lemma {:induction false} TxRequestPerStock(docs: seq<StockDoc>, broker: Option<string>)
    requires forall i :: 0 <= i < |docs| ==> docs[i].txQuery.TxQueryOk?
    ensures TxRequestsOf(InterleavedEvents(docs), broker) ==
      seq(|docs|, k requires 0 <= k < |docs| => TxRequest(docs[k].symbol, broker))
    decreases |docs|
  {
    if docs != [] {
      var d := docs[0];
      var head := [AddStockEv(d.symbol, d.ccy)];
      var done := [PrepareTx(d.symbol, |d.txQuery.txs|)] + TxEvents(d.symbol, d.txQuery.txs);
      assert CompletionEvents(d) == done;
      TxRequestsOfAppend(head + done, InterleavedEvents(docs[1..]), broker);
      TxRequestsOfAppend(head, done, broker);
      TxRequestsOfAppend([PrepareTx(d.symbol, |d.txQuery.txs|)], TxEvents(d.symbol, d.txQuery.txs), broker);
      TxEventsSendNoRequest(d.symbol, d.txQuery.txs, broker);
      assert head[1..] == [];
      assert TxRequestsOf(head, broker) == [TxRequest(d.symbol, broker)];
      assert TxRequestsOf(done, broker) == [];
      TxRequestPerStock(docs[1..], broker);
    }
  }

  /** `get_stock_portfolio(builder, broker, symbol)` over the stock responses `stockPages`:
    * the stocks request, the transaction request sent after each `add_stock`, the calls
    * made on the builder and what the query throws. With one final stock response whose
    * stocks each get one final transaction response, the calls are exactly those
    * `PortfolioCalls` describes and one transaction request goes out per stock, in order,
    * filtered to `broker` iff one is given. */
  method GetStockPortfolio(broker: Option<string>, symbol: Option<string>, stockPages: seq<Page<StockItem>>)
    returns (request: Request, txRequests: seq<Request>, calls: seq<PortfolioEvent>, error: Option<string>)
    requires WellEnded(stockPages)
    ensures request == StocksRequest(symbol)
    ensures txRequests == TxRequestsOf(calls, broker)
    ensures |stockPages| == 1 && stockPages[0].Page? && SingleTxPages(stockPages[0].items) ==>
      var items := stockPages[0].items;
      && calls == [PrepareStocks(|items|)] + InterleavedEvents(DocsOf(items))
      && txRequests == seq(|items|, k requires 0 <= k < |items| => TxRequest(items[k].name, broker))
      && error == None
  {
    request := StocksRequest(symbol);
    calls, error := DbQuery(stockPages, [], StockOnItem(), StockOnCount());
    txRequests := TxRequestsOf(calls, broker);
    if |stockPages| == 1 && stockPages[0].Page? && SingleTxPages(stockPages[0].items) {
      assert stockPages == [Page(stockPages[0].items, false)];
      SingleResponseRequests(stockPages[0].items, broker);
    }
  }

  /** With one final stock response and one final transaction response per stock, the
    * query's calls send one transaction request per stock, in order. */
  lemma SingleResponseRequests(items: seq<StockItem>, broker: Option<string>)
    requires SingleTxPages(items)
    ensures var r := QueryFold([Page(items, false)], [], StockOnItem(), StockOnCount());
      && r.state == [PrepareStocks(|items|)] + InterleavedEvents(DocsOf(items))
      && r.error == None
      && TxRequestsOf(r.state, broker) == seq(|items|, k requires 0 <= k < |items| => TxRequest(items[k].name, broker))
  {
    PortfolioCalls(items);
    var docs := DocsOf(items);
    forall i | 0 <= i < |docs|
      ensures docs[i].txQuery.TxQueryOk? && docs[i].symbol == items[i].name
    {
      DocsOfAt(items, i);
    }
    TxRequestsOfAppend([PrepareStocks(|items|)], InterleavedEvents(docs), broker);
    TxRequestPerStock(docs, broker);
  }
}
