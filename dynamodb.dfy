/** The queries of the DynamoDB data-access class that hand items on as they arrive:
  * `get_broker_by_name` (cloud-src/dynamodb.cc and cloud_src/dynamodb.cc), the
  * `get_items_by_sub_key` / `get_all_broker_items` forwarders, the per-response collectors
  * of `get_non_fund_symbols` and `get_brokers`, and the chained `get_latest_quotes`. The
  * callbacks' effects are recorded in the query state. */
module DynamoDao {
  import opened Wrappers
  import opened Seqs
  import opened Alloc
  import opened Core
  import opened Builders
  import opened DynamoQuery
  import opened DynamoRequests
  import opened DynamoCountAware
  import Storage

  const NO_SUCH_BROKER: string := "no such broker"

  /** The items of the page the query stops on: the first response after which nothing more
    * is requested, when it is not a failure. */
  function FinalItems<I>(pages: seq<Page<I>>): seq<I>
    decreases |pages|
  {
    if pages == [] then []
    else
      match pages[0]
      case PageFailed(_) => []
      case Page(items, more) => if more then FinalItems(pages[1..]) else items
  }

  /** The error a query over callbacks that never throw ends with: the message of the first
    * failed response, if the query reaches one. */
  function FailureOf<I>(pages: seq<Page<I>>): Option<string>
    decreases |pages|
  {
    if pages == [] then None
    else
      match pages[0]
      case PageFailed(m) => Some(m)
      case Page(_, more) => if more then FailureOf(pages[1..]) else None
  }

  lemma {:induction false} FailureOfTerminal<I>(pages: seq<Page<I>>)
    requires WellEnded(pages)
    ensures var t := FirstTerminal(pages);
      FailureOf(pages) == if pages[t].PageFailed? then Some(pages[t].message) else None
    decreases |pages|
  {
    if !pages[0].Terminal() {
      FailureOfTerminal(pages[1..]);
    }
  }

  // ---------------------------------------------------------------------------------------
  // get_broker_by_name

  /** `onBrokerData(item); return false;`: the state is what `onBrokerData` received. */
  function BrokerOnItem<I>(): OnItem<seq<I>, I>
  {
    (s: seq<I>, isLast: bool, x: I) => Returned(s + [x], false)
  }

  /** `if (count == 0) throw std::runtime_error("no such broker")`. */
  function BrokerOnCount<I>(): OnItemCount<seq<I>>
  {
    (s: seq<I>, n: int) => if n == 0 then Err(NO_SUCH_BROKER) else Ok(s)
  }

  /** The first item of every response the broker query goes through, up to an empty one. */
  function FirstItems<I>(pages: seq<Page<I>>): seq<I>
    decreases |pages|
  {
    if pages == [] then []
    else
      match pages[0]
      case PageFailed(_) => []
      case Page(items, more) =>
        if items == [] then [] else [items[0]] + (if more then FirstItems(pages[1..]) else [])
  }

  /** What the broker query throws: a failed response's message, or "no such broker" for an
    * empty response. */
  function BrokerError<I>(pages: seq<Page<I>>): Option<string>
    decreases |pages|
  {
    if pages == [] then None
    else
      match pages[0]
      case PageFailed(m) => Some(m)
      case Page(items, more) =>
        if items == [] then Some(NO_SUCH_BROKER) else if more then BrokerError(pages[1..]) else None
  }

  /** Over the paged query of cloud-src/dynamodb.cc, `onBrokerData` receives the first item
    * of each response (a `false` answer ends only that response) and an empty response
    * throws "no such broker". */
  lemma {:induction false} BrokerByNamePaged<I>(pages: seq<Page<I>>, s: seq<I>)
    ensures QueryFold(pages, s, BrokerOnItem(), BrokerOnCount()).state == s + FirstItems(pages)
    ensures QueryFold(pages, s, BrokerOnItem(), BrokerOnCount()).error == BrokerError(pages)
    decreases |pages|
  {
    if pages == [] {
      assert s + [] == s;
    } else if pages[0].Page? {
      var items, more := pages[0].items, pages[0].more;
      if items == [] {
        assert s + [] == s;
      } else if more {
        BrokerPage(items, more, s);
        QueryFoldMorePage(pages, s, BrokerOnItem(), BrokerOnCount(), s, s + [items[0]]);
        BrokerByNamePaged(pages[1..], s + [items[0]]);
        ConcatAssoc(s, [items[0]], FirstItems(pages[1..]));
      } else {
        BrokerPage(items, more, s);
        QueryFoldLastPage(pages, s, BrokerOnItem(), BrokerOnCount(), s);
        assert [items[0]] + [] == [items[0]];
      }
    } else {
      assert s + [] == s;
    }
  }

  /** A non-empty response: `onBrokerData` takes its first item and ends the response. */
  lemma {:induction false} BrokerPage<I>(items: seq<I>, more: bool, s: seq<I>)
    requires items != []
    ensures PageFold(items, 0, !more, s, BrokerOnItem()).state == s + [items[0]]
    ensures PageFold(items, 0, !more, s, BrokerOnItem()).error == None
  {
  }

  /** `get_broker_by_name(name, onBrokerData)` of cloud-src/dynamodb.cc over the responses
    * `pages`: the request, the items `onBrokerData` received and what the query throws. */
  method GetBrokerByName<I>(name: string, pages: seq<Page<I>>) returns (request: Request, received: seq<I>, error: Option<string>)
    requires WellEnded(pages)
    ensures request == BrokerRequest(name)
    ensures received == FirstItems(pages) && error == BrokerError(pages)
  {
    request := BrokerRequest(name);
    received, error := DbQuery(pages, [], BrokerOnItem(), BrokerOnCount());
    BrokerByNamePaged(pages, []);
    assert [] + FirstItems(pages) == FirstItems(pages);
  }

  /** `get_broker_by_name` of cloud_src/dynamodb.cc, one request: a failed request throws its
    * message, an empty result throws "no such broker", and otherwise `onBrokerData` receives
    * exactly the first item. */
  method GetBrokerByNameOnce<I>(name: string, response: Result<seq<I>>) returns (request: Request, received: seq<I>, error: Option<string>)
    ensures request == BrokerRequest(name)
    ensures response.Err? ==> received == [] && error == Some(response.message)
    ensures response == Ok([]) ==> received == [] && error == Some(NO_SUCH_BROKER)
    ensures response.Ok? && response.value != [] ==> received == [response.value[0]] && error == None
  {
    request := BrokerRequest(name);
    received, error := SinglePageDbQuery(response, [], BrokerOnItem(), BrokerOnCount());
    if response.Ok? {
      BrokerByNamePaged([Page(response.value, false)], []);
      assert [Page(response.value, false)][1..] == [];
    }
  }

  // ---------------------------------------------------------------------------------------
  // get_items_by_sub_key / get_all_broker_items

  /** One forwarded callback: `totalNum(count)`, or `onItem(is_last, item)`. */
  datatype Forwarded<I> = Total(n: int) | Item(isLast: bool, item: I)

  /** Calls `onItem(is_last, item)` and continues. */
  function ForwardOnItem<I>(): OnItem<seq<Forwarded<I>>, I>
  {
    (log: seq<Forwarded<I>>, isLast: bool, x: I) => Returned(log + [Item(isLast, x)], true)
  }

  /** Calls `totalNum(count)`. */
  function ForwardOnCount<I>(): OnItemCount<seq<Forwarded<I>>>
  {
    (log: seq<Forwarded<I>>, n: int) => Ok(log + [Total(n)])
  }

  /** The items of one response from `j` on, each with its `is_last` flag. */
  function Flagged<I>(items: seq<I>, j: nat, final: bool): (r: seq<Forwarded<I>>)
    requires j <= |items|
    ensures |r| == |items| - j
    decreases |items| - j
  {
    if j == |items| then [] else [Item(final && j + 1 == |items|, items[j])] + Flagged(items, j + 1, final)
  }

  lemma {:induction false} FlaggedItems<I>(items: seq<I>, j: nat, final: bool)
    requires j <= |items|
    ensures forall k :: 0 <= k < |items| - j ==> Flagged(items, j, final)[k] == Item(final && j + k == |items| - 1, items[j + k])
    decreases |items| - j
  {
    if j < |items| {
      FlaggedItems(items, j + 1, final);
    }
  }

  /** What the forwarder passes on over the responses: per response, its count and then each
    * item with its flag. */
  function ForwardLog<I>(pages: seq<Page<I>>): seq<Forwarded<I>>
    decreases |pages|
  {
    if pages == [] then []
    else
      match pages[0]
      case PageFailed(_) => []
      case Page(items, more) => [Total(|items|)] + Flagged(items, 0, !more) + (if more then ForwardLog(pages[1..]) else [])
  }

  lemma {:induction false} ForwardPage<I>(items: seq<I>, j: nat, final: bool, log: seq<Forwarded<I>>)
    requires j <= |items|
    ensures PageFold(items, j, final, log, ForwardOnItem()).state == log + Flagged(items, j, final)
    ensures PageFold(items, j, final, log, ForwardOnItem()).error == None
    decreases |items| - j
  {
    if j == |items| {
      assert log + [] == log;
    } else {
      var x := Item(final && j + 1 == |items|, items[j]);
      ForwardPage(items, j + 1, final, log + [x]);
      assert log + [x] + Flagged(items, j + 1, final) == log + ([x] + Flagged(items, j + 1, final));
    }
  }

  /** The forwarder never stops early: every item of every fetched response reaches `onItem`
    * with its flag, after that response's count, and the query throws exactly on a failed
    * response. */
  lemma {:induction false} ForwardQuery<I>(pages: seq<Page<I>>, log: seq<Forwarded<I>>)
    ensures QueryFold(pages, log, ForwardOnItem(), ForwardOnCount()).state == log + ForwardLog(pages)
    ensures QueryFold(pages, log, ForwardOnItem(), ForwardOnCount()).error == FailureOf(pages)
    decreases |pages|, 1
  {
    if pages == [] || pages[0].PageFailed? {
      assert log + [] == log;
    } else {
      ForwardQueryPage(pages, log);
    }
  }

  /** `ForwardQuery` for a first response with items: its count, its flagged items, then the
    * following responses when its last-evaluated key is non-empty. */
  lemma {:induction false} ForwardQueryPage<I>(pages: seq<Page<I>>, log: seq<Forwarded<I>>)
    requires pages != [] && pages[0].Page?
    ensures QueryFold(pages, log, ForwardOnItem(), ForwardOnCount()).state == log + ForwardLog(pages)
    ensures QueryFold(pages, log, ForwardOnItem(), ForwardOnCount()).error == FailureOf(pages)
    decreases |pages|, 0
  {
    var items, more := pages[0].items, pages[0].more;
    var log1 := log + [Total(|items|)];
    ForwardPage(items, 0, !more, log1);
    var log2 := log1 + Flagged(items, 0, !more);
    if more {
      QueryFoldMorePage(pages, log, ForwardOnItem(), ForwardOnCount(), log1, log2);
      ForwardQuery(pages[1..], log2);
      ConcatAssoc4(log, [Total(|items|)], Flagged(items, 0, !more), ForwardLog(pages[1..]));
    } else {
      QueryFoldLastPage(pages, log, ForwardOnItem(), ForwardOnCount(), log1);
      ConcatAssoc4(log, [Total(|items|)], Flagged(items, 0, !more), []);
    }
  }

  /** `get_items_by_sub_key(sub, filter, totalNum, onItem)` of cloud-src/dynamodb.cc over the
    * responses `pages`. */
  method GetItemsBySubKey<I>(sub: string, pages: seq<Page<I>>) returns (request: Request, log: seq<Forwarded<I>>, error: Option<string>)
    requires WellEnded(pages)
    ensures request == BySub(sub, None)
    ensures log == ForwardLog(pages) && error == FailureOf(pages)
  {
    request := BySub(sub, None);
    log, error := DbQuery(pages, [], ForwardOnItem(), ForwardOnCount());
    ForwardQuery(pages, []);
    assert [] + ForwardLog(pages) == ForwardLog(pages);
  }

  /** `get_all_broker_items(totalNum, onBrokerItem)` of cloud_src/dynamodb.cc, one request:
    * a failed request passes nothing on; otherwise the count first, then every item in
    * order, `is_last` set exactly on the last one. */
  method GetAllBrokerItemsOnce<I>(response: Result<seq<I>>) returns (request: Request, log: seq<Forwarded<I>>, error: Option<string>)
    ensures request == AllBrokersRequest()
    ensures response.Err? ==> log == [] && error == Some(response.message)
    ensures response.Ok? ==>
      && error == None
      && |log| == |response.value| + 1 && log[0] == Total(|response.value|)
      && forall k :: 0 <= k < |response.value| ==> log[k + 1] == Item(k == |response.value| - 1, response.value[k])
  {
    request := AllBrokersRequest();
    log, error := SinglePageDbQuery(response, [], ForwardOnItem(), ForwardOnCount());
    if response.Ok? {
      var pages := [Page(response.value, false)];
      ForwardQuery(pages, []);
      assert pages[1..] == [];
      assert log == [Total(|response.value|)] + Flagged(response.value, 0, true) + [];
      FlaggedItems(response.value, 0, true);
    }
  }

  // ---------------------------------------------------------------------------------------
  // get_non_fund_symbols and get_brokers: a new builder per response

  /** The collector's state: what the builder of the current response holds, and what was
    * handed to the result callback so far. */
  datatype Collecting<T> = Collecting(current: seq<T>, handed: seq<seq<T>>)

  /** `onItemCount`: a new builder (`new StringsBuilder(num)`, `new AllBrokerBuilder(n)`). */
  function CollectOnCount<T>(): OnItemCount<Collecting<T>>
  {
    (c: Collecting<T>, n: int) => Ok(c.(current := []))
  }

  /** `onItem`: add the item's value; on `is_last` hand the builder's contents over. */
  function CollectOnItem<T, I>(f: I -> T): OnItem<Collecting<T>, I>
  {
    (c: Collecting<T>, isLast: bool, x: I) =>
      var cur := c.current + [f(x)];
      Returned(Collecting(cur, if isLast then c.handed + [cur] else c.handed), true)
  }

  function MapSeq<T, I>(f: I -> T, xs: seq<I>): (r: seq<T>)
    ensures |r| == |xs|
  {
    if xs == [] then [] else [f(xs[0])] + MapSeq(f, xs[1..])
  }

  lemma {:induction false} MapSeqAt<T, I>(f: I -> T, xs: seq<I>)
    ensures forall k :: 0 <= k < |xs| ==> MapSeq(f, xs)[k] == f(xs[k])
    decreases |xs|
  {
    if xs != [] {
      MapSeqAt(f, xs[1..]);
    }
  }

  lemma {:induction false} CollectPage<T, I>(f: I -> T, items: seq<I>, j: nat, final: bool, c: Collecting<T>)
    requires j <= |items|
    ensures var r := PageFold(items, j, final, c, CollectOnItem(f)).state;
      && r.current == c.current + MapSeq(f, items[j..])
      && r.handed == if final && j < |items| then c.handed + [r.current] else c.handed
    ensures PageFold(items, j, final, c, CollectOnItem(f)).error == None
    decreases |items| - j
  {
    if j == |items| {
      assert items[j..] == [] && c.current + [] == c.current;
    } else {
      var cur := c.current + [f(items[j])];
      var isLast := final && j + 1 == |items|;
      var c1 := Collecting(cur, if isLast then c.handed + [cur] else c.handed);
      CollectPage(f, items, j + 1, final, c1);
      assert items[j..] == [items[j]] + items[j + 1..];
      assert MapSeq(f, items[j..]) == [f(items[j])] + MapSeq(f, items[j + 1..]);
      assert cur + MapSeq(f, items[j + 1..]) == c.current + MapSeq(f, items[j..]);
    }
  }

  /** A builder per response, handed over at `is_last`: the result callback runs once, with
    * the values of the last response's items only, when that response is non-empty, and
    * never when it is empty. */
  lemma {:induction false} CollectQuery<T, I>(f: I -> T, pages: seq<Page<I>>, c: Collecting<T>)
    ensures QueryFold(pages, c, CollectOnItem(f), CollectOnCount()).state.handed ==
      c.handed + (if FinalItems(pages) != [] then [MapSeq(f, FinalItems(pages))] else [])
    ensures QueryFold(pages, c, CollectOnItem(f), CollectOnCount()).error == FailureOf(pages)
    decreases |pages|
  {
    if pages == [] || pages[0].PageFailed? {
      assert c.handed + [] == c.handed;
    } else {
      var items, more := pages[0].items, pages[0].more;
      var c1 := c.(current := []);
      CollectPage(f, items, 0, !more, c1);
      assert items[0..] == items && [] + MapSeq(f, items) == MapSeq(f, items);
      if more {
        var c2 := PageFold(items, 0, !more, c1, CollectOnItem(f)).state;
        CollectQuery(f, pages[1..], c2);
      } else if items == [] {
        assert c.handed + [] == c.handed;
      }
    }
  }

  /** A stock record as `get_non_fund_symbols` reads it. */
  datatype SymbolItem = SymbolItem(name: string)

  /** `sb->add(item.at("name").GetS())`: `Strings::add` stores a copy of the name. */
  function SymbolOf(x: SymbolItem): string
  {
    CStringValue(x.name)
  }

  /** `get_non_fund_symbols(onResult)` over the responses `pages`: the stock request, the
    * string lists `onResult` received and what the query throws. */
  method GetNonFundSymbols(pages: seq<Page<SymbolItem>>) returns (request: Request, results: seq<seq<string>>, error: Option<string>)
    requires WellEnded(pages)
    ensures request == StockSymbolsRequest()
    ensures results == if FinalItems(pages) != [] then [MapSeq(SymbolOf, FinalItems(pages))] else []
    ensures error == FailureOf(pages)
  {
    request := StockSymbolsRequest();
    var c;
    c, error := DbQuery(pages, Collecting([], []), CollectOnItem(SymbolOf), CollectOnCount());
    CollectQuery(SymbolOf, pages, Collecting([], []));
    results := c.handed;
  }

  /** `get_brokers(onAllBrokersBuilder)` over the responses `pages`: the broker request, the
    * broker records of each `AllBrokerBuilder` handed over, and what the query throws. */
  method GetBrokers<I>(pages: seq<Page<I>>) returns (request: Request, results: seq<seq<I>>, error: Option<string>)
    requires WellEnded(pages)
    ensures request == AllBrokersRequest()
    ensures results == if FinalItems(pages) != [] then [FinalItems(pages)] else []
    ensures error == FailureOf(pages)
  {
    request := AllBrokersRequest();
    var id := (x: I) => x;
    var c;
    c, error := DbQuery(pages, Collecting([], []), CollectOnItem(id), CollectOnCount());
    CollectQuery(id, pages, Collecting([], []));
    results := c.handed;
    MapSeqAt(id, FinalItems(pages));
    assert MapSeq(id, FinalItems(pages)) == FinalItems(pages);
  }

  /** An empty final response: `get_non_fund_symbols` never calls `onResult` and `get_brokers`
    * never hands its builder over, even when earlier responses held items. */
  lemma EmptyFinalNeverHandsOver<T, I>(f: I -> T, items: seq<I>)
    requires items != []
    ensures QueryFold([Page(items, true), Page([], false)], Collecting([], []), CollectOnItem(f), CollectOnCount()).state.handed == []
  {
    var pages := [Page(items, true), Page([], false)];
    CollectQuery(f, pages, Collecting([], []));
    assert pages[1..] == [Page([], false)];
  }

  // ---------------------------------------------------------------------------------------
  // get_latest_quotes(builder): the stock quotes, then the currency quotes

  /** `builder->add_quote(name, dt, price)`; a placement past the buffer or on a builder that
    * has deleted itself is undefined behaviour, `None`. */
  function AddQuoteTo(s: Option<BuilderState<Quote>>, x: QuoteItem): (r: Option<BuilderState<Quote>>)
    ensures r.Some? ==> s.Some? && !s.value.consumed && s.value.alloc.HasRoom() && r.value == s.value.Add(QuoteOf(x))
  {
    if s.None? || s.value.consumed || !s.value.alloc.HasRoom() then None else Some(s.value.Add(QuoteOf(x)))
  }

  /** The builder after `add_quote` for each record in turn. */
  function AddAll(s: Option<BuilderState<Quote>>, xs: seq<QuoteItem>): Option<BuilderState<Quote>>
    decreases |xs|
  {
    if xs == [] then s else AddAll(AddQuoteTo(s, xs[0]), xs[1..])
  }

  /** `succeed()` on a live builder. */
  function SucceedOn(s: Option<BuilderState<Quote>>): Option<BuilderState<Quote>>
  {
    if s.None? || s.value.consumed then None else Some(s.value.Succeed())
  }

  /** The currency query's `onItem`: add the quote, and on `is_last` call `b2->succeed()`. */
  function FxOnItem(): OnItem<Option<BuilderState<Quote>>, QuoteItem>
  {
    (s: Option<BuilderState<Quote>>, isLast: bool, x: QuoteItem) =>
      var s1 := AddQuoteTo(s, x);
      Returned(if isLast then SucceedOn(s1) else s1, true)
  }

  /** The stock query's `onItem`: add the quote, and on `is_last` run the currency query over
    * `fxPages` inside the callback; what that query throws leaves this one, with the stock
    * quote and the currency quotes already placed left in the builder. */
  function StockQuotesOnItem(fxPages: seq<Page<QuoteItem>>): OnItem<Option<BuilderState<Quote>>, QuoteItem>
  {
    (s: Option<BuilderState<Quote>>, isLast: bool, x: QuoteItem) =>
      var s1 := AddQuoteTo(s, x);
      if !isLast then Returned(s1, true)
      else
        var r := QueryFold(fxPages, s1, FxOnItem(), NoCount());
        if r.error.Some? then Threw(r.state, r.error.value) else Returned(r.state, true)
  }

  lemma {:induction false} AddAllAppend(s: Option<BuilderState<Quote>>, a: seq<QuoteItem>, c: seq<QuoteItem>)
    ensures AddAll(s, a + c) == AddAll(AddAll(s, a), c)
    decreases |a|
  {
    if a == [] {
      assert a + c == c;
    } else {
      assert (a + c)[0] == a[0] && (a + c)[1..] == a[1..] + c;
      AddAllAppend(AddQuoteTo(s, a[0]), a[1..], c);
    }
  }

  /** Records that fit place their quotes after the builder's own, in order. */
  lemma {:induction false} AddAllFits(b: BuilderState<Quote>, xs: seq<QuoteItem>)
    requires !b.consumed && |b.alloc.items| + |xs| <= b.alloc.capacity
    ensures AddAll(Some(b), xs) == Some(b.(alloc := b.alloc.(items := b.alloc.items + QuotesOf(xs))))
    decreases |xs|
  {
    if xs == [] {
      assert b.alloc.items + [] == b.alloc.items;
      assert b.(alloc := b.alloc.(items := b.alloc.items)) == b;
    } else {
      var q := QuoteOf(xs[0]);
      var b1 := b.Add(q);
      assert AddQuoteTo(Some(b), xs[0]) == Some(b1);
      assert AddAll(Some(b), xs) == AddAll(Some(b1), xs[1..]);
      AddAllFits(b1, xs[1..]);
      assert b1.alloc.items == b.alloc.items + [q];
      assert QuotesOf(xs) == [q] + QuotesOf(xs[1..]);
      assert b1.alloc.items + QuotesOf(xs[1..]) == b.alloc.items + QuotesOf(xs);
      assert b1.alloc.capacity == b.alloc.capacity && b1.alloc.counter == b.alloc.counter;
      assert b1.delivered == b.delivered && b1.consumed == b.consumed;
    }
  }

  lemma {:induction false} FxPage(items: seq<QuoteItem>, j: nat, final: bool, s: Option<BuilderState<Quote>>)
    requires j <= |items|
    ensures var p := PageFold(items, j, final, s, FxOnItem());
      && p.error == None
      && p.state == if final && j < |items| then SucceedOn(AddAll(s, items[j..])) else AddAll(s, items[j..])
    decreases |items| - j
  {
    if j == |items| {
      assert items[j..] == [];
    } else {
      assert items[j..][0] == items[j] && items[j..][1..] == items[j + 1..];
      var s1 := AddQuoteTo(s, items[j]);
      if final && j + 1 == |items| {
        assert items[j + 1..] == [];
      } else {
        FxPage(items, j + 1, final, s1);
      }
    }
  }

  /** The currency query places every fetched quote and succeeds exactly when its last
    * response is non-empty; it throws only on a failed response. */
  lemma {:induction false} FxQuery(pages: seq<Page<QuoteItem>>, s: Option<BuilderState<Quote>>)
    ensures var r := QueryFold(pages, s, FxOnItem(), NoCount());
      && r.error == FailureOf(pages)
      && r.state == if FinalItems(pages) != [] then SucceedOn(AddAll(s, Fetched(pages))) else AddAll(s, Fetched(pages))
    decreases |pages|
  {
    if pages != [] && pages[0].Page? {
      var items, more := pages[0].items, pages[0].more;
      FxPage(items, 0, !more, s);
      assert items[0..] == items;
      if more {
        FxQuery(pages[1..], AddAll(s, items));
        AddAllAppend(s, items, Fetched(pages[1..]));
      } else {
        assert Fetched(pages) == items + [] == items;
      }
    }
  }

  lemma {:induction false} StockPage(fxPages: seq<Page<QuoteItem>>, items: seq<QuoteItem>, j: nat, final: bool, s: Option<BuilderState<Quote>>)
    requires j <= |items|
    ensures var p := PageFold(items, j, final, s, StockQuotesOnItem(fxPages));
      var fx := QueryFold(fxPages, AddAll(s, items[j..]), FxOnItem(), NoCount());
      if final && j < |items| then p.error == fx.error && p.state == fx.state
      else p.error == None && p.state == AddAll(s, items[j..])
    decreases |items| - j
  {
    if j == |items| {
      assert items[j..] == [];
    } else {
      assert items[j..][0] == items[j] && items[j..][1..] == items[j + 1..];
      var s1 := AddQuoteTo(s, items[j]);
      if final && j + 1 == |items| {
        assert items[j + 1..] == [];
      } else {
        StockPage(fxPages, items, j + 1, final, s1);
      }
    }
  }

  /** The stock query places every fetched stock quote; when its last response is non-empty
    * the currency query then runs on the result, and its end state and exception are the
    * query's; otherwise it never runs. */
  lemma {:induction false} StockQuery(fxPages: seq<Page<QuoteItem>>, pages: seq<Page<QuoteItem>>, s: Option<BuilderState<Quote>>)
    ensures var r := QueryFold(pages, s, StockQuotesOnItem(fxPages), NoCount());
      var s' := AddAll(s, Fetched(pages));
      var fx := QueryFold(fxPages, s', FxOnItem(), NoCount());
      if FinalItems(pages) != [] then r.error == fx.error && r.state == fx.state
      else r.error == FailureOf(pages) && r.state == s'
    decreases |pages|
  {
    if pages != [] && pages[0].Page? {
      var items, more := pages[0].items, pages[0].more;
      StockPage(fxPages, items, 0, !more, s);
      assert items[0..] == items;
      if more {
        StockQuery(fxPages, pages[1..], AddAll(s, items));
        AddAllAppend(s, items, Fetched(pages[1..]));
      } else {
        assert Fetched(pages) == items + [] == items;
      }
    }
  }

  /** Once a placement has run past the buffer nothing brings the builder back. */
  lemma {:induction false} AddAllFromNone(xs: seq<QuoteItem>)
    ensures AddAll(None, xs) == None
    decreases |xs|
  {
    if xs != [] {
      AddAllFromNone(xs[1..]);
    }
  }

  /** More records than the buffer has cells left: a placement runs past the buffer. */
  lemma {:induction false} AddAllOverflows(b: BuilderState<Quote>, xs: seq<QuoteItem>)
    requires b.alloc.Valid() && |b.alloc.items| + |xs| > b.alloc.capacity
    ensures AddAll(Some(b), xs) == None
    decreases |xs|
  {
    if b.consumed || !b.alloc.HasRoom() {
      AddAllFromNone(xs[1..]);
    } else {
      AddAllOverflows(b.Add(QuoteOf(xs[0])), xs[1..]);
    }
  }

  /** `add_quote` for each record on a live builder: the quotes follow the builder's own
    * when they fit, and a run past the buffer otherwise. */
  lemma AddAllOutcome(b: BuilderState<Quote>, xs: seq<QuoteItem>)
    requires !b.consumed && b.alloc.Valid()
    ensures AddAll(Some(b), xs) ==
      if |b.alloc.items| + |xs| <= b.alloc.capacity then Some(b.(alloc := b.alloc.(items := b.alloc.items + QuotesOf(xs))))
      else None
  {
    if |b.alloc.items| + |xs| <= b.alloc.capacity {
      AddAllFits(b, xs);
    } else {
      AddAllOverflows(b, xs);
    }
  }

  /** A query that ends in a failed response has no final items to signal `is_last` on. */
  lemma {:induction false} FailedHasNoFinalItems<I>(pages: seq<Page<I>>)
    requires FailureOf(pages).Some?
    ensures FinalItems(pages) == []
    decreases |pages|
  {
    if pages[0].Page? {
      FailedHasNoFinalItems(pages[1..]);
    }
  }

  /** `get_latest_quotes(builder)` over the stock responses `stockPages` and the currency
    * responses `fxPages`, both queries with a last price: the builder gets every fetched
    * stock quote and, when the last stock response is non-empty, every fetched currency
    * quote after them; it succeeds exactly when both last responses are non-empty. An empty
    * last stock response skips the currency query and leaves the builder waiting. A failed
    * currency response throws out of the stock callback and leaves the builder alive, holding
    * every stock quote and the currency quotes of the responses before the failure. Records
    * beyond the preallocated cells are placed past the buffer (`None`). */
  method GetLatestQuotes(b: BuilderState<Quote>, stockPages: seq<Page<QuoteItem>>, fxPages: seq<Page<QuoteItem>>)
    returns (stockRequest: Request, fxRequest: Request, state: Option<BuilderState<Quote>>, error: Option<string>)
    requires WellEnded(stockPages) && WellEnded(fxPages)
    requires !b.consumed && b.alloc.Valid()
    ensures stockRequest == LatestQuotesRequest(SUB_STOCK) && fxRequest == LatestQuotesRequest(SUB_FX)
    ensures var stocks := b.alloc.items + QuotesOf(Fetched(stockPages));
      var all := stocks + QuotesOf(Fetched(fxPages));
      if FinalItems(stockPages) == [] then
        && error == FailureOf(stockPages)
        && (|stocks| <= b.alloc.capacity ==> state == Some(b.(alloc := b.alloc.(items := stocks))))
        && (|stocks| > b.alloc.capacity ==> state == None)
      else
        && error == FailureOf(fxPages)
        && (|all| > b.alloc.capacity ==> state == None)
        && (|all| <= b.alloc.capacity && FinalItems(fxPages) == [] ==>
              state == Some(b.(alloc := b.alloc.(items := all))))
        && (|all| <= b.alloc.capacity && FinalItems(fxPages) != [] ==>
              state == Some(b.(alloc := b.alloc.(items := all)).Succeed()))
        && (error.Some? && |all| <= b.alloc.capacity ==>
              state == Some(b.(alloc := b.alloc.(items := all))) && !state.value.consumed)
  {
    stockRequest, fxRequest := LatestQuotesRequest(SUB_STOCK), LatestQuotesRequest(SUB_FX);
    state, error := DbQuery(stockPages, Some(b), StockQuotesOnItem(fxPages), NoCount());
    StockQuery(fxPages, stockPages, Some(b));
    AddAllOutcome(b, Fetched(stockPages));
    if |b.alloc.items| + |Fetched(stockPages)| <= b.alloc.capacity {
      var b1 := b.(alloc := b.alloc.(items := b.alloc.items + QuotesOf(Fetched(stockPages))));
      FxQuery(fxPages, Some(b1));
      AddAllOutcome(b1, Fetched(fxPages));
    } else {
      FxQuery(fxPages, None);
      AddAllFromNone(Fetched(fxPages));
    }
    if FailureOf(fxPages).Some? {
      FailedHasNoFinalItems(fxPages);
    }
  }

  /** `get_quotes` without symbols preallocates 10 cells and hands the builder to the chained
    * query, which places every record it fetches: eleven fetched stock quotes already run
    * past the buffer. */
  lemma AllQuotesOverflowPreallocation(num: int, stockPages: seq<Page<QuoteItem>>)
    requires |Fetched(stockPages)| > Storage.QuotesPreallocation(num, false)
    ensures AddAll(Some(CreateBuilder(Storage.QuotesPreallocation(num, false))), Fetched(stockPages)) == None
  {
    AddAllOverflows(CreateBuilder(Storage.QuotesPreallocation(num, false)), Fetched(stockPages));
  }
}
