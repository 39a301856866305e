/** `StockPortfolioBuilder` of storage.hxx: a counting state machine that collects the
  * stocks of a portfolio and, per stock, its transactions, and hands everything to
  * `onSuccess` once every stock is finished. */
module PortfolioBuilder {
  import opened Wrappers
  import opened Alloc
  import opened Core
  import opened Stocks

  /** `(std::numeric_limits<int>::max)()`. */
  const INT_MAX: int := 0x7fff_ffff

  /** What `onSuccess(stock_alloc, tx)` receives: the stock allocator (null before
    * `prepare_stock_alloc`) and the transaction allocators by symbol. */
  datatype Delivery = Delivery(stocks: Option<AllocState<Stock>>, tx: map<string, AllocState<StockTx>>)

  /** Whose behaviour a transition follows: the code as written in storage.hxx, or the
    * corrected behaviour described under Findings in the README. */
  datatype Rules = AsWritten | Corrected

  /** The abstract value of a `StockPortfolioBuilder`: its allocators, `unfinished_stocks`,
    * the deliveries made to `onSuccess` and whether it has run `delete this`. */
  datatype PortfolioState = PortfolioState(
    stockAlloc: Option<AllocState<Stock>>,
    tx: map<string, AllocState<StockTx>>,
    unfinished: int,
    delivered: seq<Delivery>,
    consumed: bool)
  {
    /** `add_stock(symbol, ccy)`: places `Stock(symbol, ccy)` in the next stock cell. */
    function AddStock(symbol: string, ccy: string): PortfolioState
      requires !consumed && stockAlloc.Some? && stockAlloc.value.HasRoom()
    {
      this.(stockAlloc := Some(stockAlloc.value.Next(NewStock(symbol, ccy, []))))
    }

    /** `prepare_stock_alloc(n)`. */
    function PrepareStockAlloc(n: nat): PortfolioState
      requires !consumed
    {
      this.(unfinished := n, stockAlloc := Some(NewAlloc(n)))
    }

    /** `prepare_stock_alloc(n)` as evidently intended: an empty portfolio is complete at once. */
    function PrepareStockAllocCompleting(n: nat): PortfolioState
      requires !consumed
    {
      var s := PrepareStockAlloc(n);
      if n == 0 then s.Deliver() else s
    }

    /** `onSuccess(stock_alloc, tx)` followed by `delete this`. */
    function Deliver(): PortfolioState
      requires !consumed
    {
      this.(delivered := delivered + [Delivery(stockAlloc, tx)], consumed := true)
    }

    /** `check_completion(alloc)`, with `alloc` named by its symbol (`None` is nullptr). */
    function CheckCompletion(alloc: Option<string>): PortfolioState
      requires !consumed && (alloc.Some? ==> alloc.value in tx)
    {
      if alloc.None? || tx[alloc.value].HasEnoughCounter() then
        var s := this.(unfinished := unfinished - 1);
        if s.unfinished == 0 then s.Deliver() else s
      else this
    }

    /** `prepare_tx_alloc(symbol, num)`. */
    function PrepareTxAlloc(symbol: string, num: nat): PortfolioState
      requires !consumed
    {
      if num == 0 then CheckCompletion(None) else this.(tx := tx[symbol := NewAlloc(num)])
    }

    /** `rm_stock(symbol)`. */
    function RmStock(symbol: string): PortfolioState
      requires !consumed
    {
      this.(tx := tx - {symbol}, unfinished := unfinished - 1)
    }

    /** `rm_stock(symbol)` as evidently intended: removing the last pending stock completes
      * the portfolio. */
    function RmStockCompleting(symbol: string): PortfolioState
      requires !consumed
    {
      var s := RmStock(symbol);
      if s.unfinished == 0 then s.Deliver() else s
    }

    /** `addTx(broker, symbol, type, price, shares, fee, date)`: places the transaction in
      * the symbol's allocator and checks completion, or throws when the symbol has none. */
    function AddTx(broker: string, symbol: string, kind: string, price: real, shares: real,
                   fee: real, date: int): Result<PortfolioState>
      requires !consumed && (symbol in tx ==> tx[symbol].HasRoom())
    {
      if symbol in tx then
        var placed := tx[symbol].Next(NewStockTx(broker, shares, price, fee, kind, date));
        Ok(this.(tx := tx[symbol := placed]).CheckCompletion(Some(symbol)))
      else Err("Cannot find tx for stock " + symbol)
    }

    /** `incr_counter(symbol)`. */
    function IncrCounter(symbol: string): PortfolioState
      requires !consumed
    {
      if symbol in tx then this.(tx := tx[symbol := tx[symbol].IncCounter()]) else this
    }

    /** `failed()`. */
    function Failed(): PortfolioState
      requires !consumed
    {
      this.(consumed := true)
    }
  }

  /** `StockPortfolioBuilder::create(callback)`: no stock allocator, no transaction
    * allocators, `unfinished_stocks` at `INT_MAX`. */
  function CreatePortfolioBuilder(): (s: PortfolioState)
    ensures s.stockAlloc.None? && s.tx == map[] && s.unfinished == INT_MAX
    ensures s.delivered == [] && !s.consumed
  {
    PortfolioState(None, map[], INT_MAX, [], false)
  }

  /** `check_completion` decrements `unfinished_stocks` exactly when its allocator is null
    * or has enough counter; it calls `onSuccess` (once, then deletes the builder) exactly
    * when that decrement reaches 0, and otherwise leaves the deliveries alone. The
    * allocators are never changed. */
  lemma CheckCompletionEffect(s: PortfolioState, alloc: Option<string>)
    requires !s.consumed && (alloc.Some? ==> alloc.value in s.tx)
    ensures var r := s.CheckCompletion(alloc);
      var done := alloc.None? || s.tx[alloc.value].counter >= s.tx[alloc.value].capacity;
      && r.tx == s.tx && r.stockAlloc == s.stockAlloc
      && r.unfinished == (if done then s.unfinished - 1 else s.unfinished)
      && (r.consumed <==> done && s.unfinished == 1)
      && r.delivered == (if done && s.unfinished == 1 then s.delivered + [Delivery(s.stockAlloc, s.tx)]
                         else s.delivered)
  {
  }

  /** `prepare_tx_alloc(sym, 0)` counts the stock as finished at once; `prepare_tx_alloc(sym, k)`
    * with `k > 0` registers a fresh allocator of capacity `k` for `sym`, replacing any
    * earlier one, and changes nothing else. */
  lemma PrepareTxAllocEffect(s: PortfolioState, symbol: string, num: nat)
    requires !s.consumed
    ensures num == 0 ==> s.PrepareTxAlloc(symbol, num) == s.CheckCompletion(None)
    ensures num == 0 ==> s.PrepareTxAlloc(symbol, num).unfinished == s.unfinished - 1
    ensures num > 0 ==> s.PrepareTxAlloc(symbol, num) == s.(tx := s.tx[symbol := NewAlloc(num)])
    ensures num > 0 ==> !s.PrepareTxAlloc(symbol, num).tx[symbol].HasEnoughCounter()
  {
  }

  /** `addTx` for a symbol without an allocator throws "Cannot find tx for stock <symbol>"
    * and its only effect is that exception; for a registered symbol it appends the
    * transaction to that symbol's allocator and no other, then checks completion. */
  lemma AddTxEffect(s: PortfolioState, broker: string, symbol: string, kind: string,
                    price: real, shares: real, fee: real, date: int)
    requires !s.consumed && (symbol in s.tx ==> s.tx[symbol].HasRoom())
    ensures symbol !in s.tx <==> s.AddTx(broker, symbol, kind, price, shares, fee, date).Err?
    ensures symbol !in s.tx ==>
      s.AddTx(broker, symbol, kind, price, shares, fee, date) == Err("Cannot find tx for stock " + symbol)
    ensures symbol in s.tx ==>
      var r := s.AddTx(broker, symbol, kind, price, shares, fee, date).value;
      && r.tx.Keys == s.tx.Keys
      && r.tx[symbol].items == s.tx[symbol].items + [NewStockTx(broker, shares, price, fee, kind, date)]
      && r.tx[symbol].counter == s.tx[symbol].counter
      && (forall k :: k in s.tx && k != symbol ==> r.tx[k] == s.tx[k])
  {
  }

  /** `incr_counter` on an unknown symbol changes nothing; on a known one it bumps that
    * symbol's counter only. `rm_stock` removes the symbol's allocator if present and always
    * decrements `unfinished_stocks`. */
  lemma CounterAndRemovalEffect(s: PortfolioState, symbol: string)
    requires !s.consumed
    ensures symbol !in s.tx ==> s.IncrCounter(symbol) == s
    ensures symbol in s.tx ==>
      && s.IncrCounter(symbol).tx[symbol].counter == s.tx[symbol].counter + 1
      && s.IncrCounter(symbol).tx[symbol].items == s.tx[symbol].items
      && s.IncrCounter(symbol).tx.Keys == s.tx.Keys
      && s.IncrCounter(symbol).unfinished == s.unfinished
    ensures symbol !in s.RmStock(symbol).tx && s.RmStock(symbol).unfinished == s.unfinished - 1
    ensures forall k :: k in s.tx && k != symbol ==> k in s.RmStock(symbol).tx && s.RmStock(symbol).tx[k] == s.tx[k]
    ensures s.RmStock(symbol).delivered == s.delivered
  {
  }

  /** One call a query handler makes on the builder. */
  datatype PortfolioEvent =
    | PrepareStocks(n: nat)
    | AddStockEv(symbol: string, ccy: string)
    | PrepareTx(symbol: string, num: nat)
    | RmStockEv(symbol: string)
    | IncrEv(symbol: string)
    | AddTxEv(symbol: string, tx: TxFields)
    | FailedEv

  /** The arguments of one `addTx` call besides the symbol. */
  datatype TxFields = TxFields(broker: string, kind: string, price: real, shares: real, fee: real, date: int)

  /** One event. `None` when the call is undefined behaviour (the builder has deleted itself,
    * or a placement overflows its buffer) or `addTx` throws. */
  function Step(s: PortfolioState, e: PortfolioEvent, rules: Rules): Option<PortfolioState>
  {
    if s.consumed then None
    else
      match e
      case PrepareStocks(n) =>
        Some(if rules == AsWritten then s.PrepareStockAlloc(n) else s.PrepareStockAllocCompleting(n))
      case AddStockEv(symbol, ccy) =>
        if s.stockAlloc.Some? && s.stockAlloc.value.HasRoom() then Some(s.AddStock(symbol, ccy)) else None
      case PrepareTx(symbol, num) => Some(s.PrepareTxAlloc(symbol, num))
      case RmStockEv(symbol) =>
        Some(if rules == AsWritten then s.RmStock(symbol) else s.RmStockCompleting(symbol))
      case IncrEv(symbol) => Some(s.IncrCounter(symbol))
      case AddTxEv(symbol, t) =>
        if symbol in s.tx && !s.tx[symbol].HasRoom() then None
        else
          (match s.AddTx(t.broker, symbol, t.kind, t.price, t.shares, t.fee, t.date)
           case Ok(r) => Some(r)
           case Err(_) => None)
      case FailedEv => Some(s.Failed())
  }

  /** The builder after the events `es`, in order. */
  function Run(s: PortfolioState, es: seq<PortfolioEvent>, rules: Rules): Option<PortfolioState>
    decreases |es|
  {
    if es == [] then Some(s)
    else
      match Step(s, es[0], rules)
      case None => None
      case Some(t) => Run(t, es[1..], rules)
  }

  /** Running two traces one after the other is running their concatenation. */
  lemma {:induction false} RunAppend(s: PortfolioState, a: seq<PortfolioEvent>, b: seq<PortfolioEvent>, rules: Rules)
    ensures Run(s, a + b, rules) == (if Run(s, a, rules).Some? then Run(Run(s, a, rules).value, b, rules) else None)
    decreases |a|
  {
    if a != [] {
      assert (a + b)[0] == a[0] && (a + b)[1..] == a[1..] + b;
      match Step(s, a[0], rules)
      case None =>
        assert Run(s, a + b, rules) == None;
      case Some(t) =>
        assert Run(s, a + b, rules) == Run(t, a[1..] + b, rules);
        RunAppend(t, a[1..], b, rules);
    } else {
      assert a + b == b;
    }
  }

  /** `k` stocks in a row announced without transactions: `prepare_tx_alloc(symbol, 0)`. */
  function EmptyStocks(symbol: string, k: nat): seq<PortfolioEvent>
    decreases k
  {
    if k == 0 then [] else [PrepareTx(symbol, 0)] + EmptyStocks(symbol, k - 1)
  }

  /** Each stock finished without transactions counts `unfinished_stocks` down by one, and
    * the one that reaches 0 delivers. */
  lemma {:induction false} EmptyStocksCountDown(s: PortfolioState, symbol: string, k: nat, rules: Rules)
    requires !s.consumed && 0 < s.unfinished && k <= s.unfinished
    ensures Run(s, EmptyStocks(symbol, k), rules) ==
      Some(if k == s.unfinished then s.(unfinished := 0).Deliver() else s.(unfinished := s.unfinished - k))
    decreases k
  {
    if k > 0 {
      var es := EmptyStocks(symbol, k);
      assert es[0] == PrepareTx(symbol, 0) && es[1..] == EmptyStocks(symbol, k - 1);
      var t := s.CheckCompletion(None);
      assert Step(s, es[0], rules) == Some(t);
      if s.unfinished == 1 {
        assert Run(s, es, rules) == Run(t, [], rules);
      } else {
        EmptyStocksCountDown(t, symbol, k - 1, rules);
      }
    }
  }

  /** After `prepare_stock_alloc(n)` with `n > 0`, under either rules, `k` stocks finished
    * without transactions leave `n - k` pending; `onSuccess` fires on the `n`-th and not
    * before, with the fresh `n`-cell stock allocator and the transaction allocators as they
    * were. */
  lemma PreparedStocksDeliverOnLast(s: PortfolioState, n: nat, symbol: string, k: nat, rules: Rules)
    requires !s.consumed && 0 < n && k <= n
    ensures var r := Run(s, [PrepareStocks(n)] + EmptyStocks(symbol, k), rules);
      && r.Some?
      && r.value.unfinished == n - k
      && r.value.stockAlloc == Some(NewAlloc(n)) && r.value.tx == s.tx
      && (r.value.consumed <==> k == n)
      && r.value.delivered == (if k == n then s.delivered + [Delivery(Some(NewAlloc(n)), s.tx)] else s.delivered)
  {
    var t := s.PrepareStockAlloc(n);
    assert Run(s, [PrepareStocks(n)], rules) == Some(t) by {
      assert Step(s, PrepareStocks(n), rules) == Some(t);
      assert [PrepareStocks(n)][1..] == [];
    }
    RunAppend(s, [PrepareStocks(n)], EmptyStocks(symbol, k), rules);
    EmptyStocksCountDown(t, symbol, k, rules);
  }

  /** `onSuccess` fires at most once over any sequence of calls, under either rules: once
    * it has fired the builder is gone, and any later call is undefined behaviour. */
  lemma {:induction false} DeliversAtMostOnce(s: PortfolioState, es: seq<PortfolioEvent>, rules: Rules)
    requires !s.consumed && s.delivered == []
    requires Run(s, es, rules).Some?
    ensures |Run(s, es, rules).value.delivered| <= 1
    ensures |Run(s, es, rules).value.delivered| == 1 ==> Run(s, es, rules).value.consumed
    decreases |es|
  {
    if es != [] {
      var t := Step(s, es[0], rules).value;
      if !t.consumed {
        DeliversAtMostOnce(t, es[1..], rules);
      }
    }
  }

  /** As written, once `unfinished_stocks` has dropped to 0 or below without a delivery, no
    * later call other than a new `prepare_stock_alloc` can ever reach `onSuccess`: all
    * decrements move away from 0. */
  lemma {:induction false} StuckBelowOne(s: PortfolioState, es: seq<PortfolioEvent>)
    requires !s.consumed && s.delivered == [] && s.unfinished <= 0
    requires forall i :: 0 <= i < |es| ==> !es[i].PrepareStocks?
    requires Run(s, es, AsWritten).Some?
    ensures Run(s, es, AsWritten).value.delivered == []
    ensures Run(s, es, AsWritten).value.unfinished <= 0
    decreases |es|
  {
    if es != [] {
      var t := Step(s, es[0], AsWritten).value;
      assert t.delivered == [] && t.unfinished <= 0;
      if !t.consumed {
        StuckBelowOne(t, es[1..]);
      }
    }
  }

  /** `StockPortfolioBuilder`, whose fields mirror the source's; `delivered` and `consumed`
    * record what `onSuccess` and `delete this` did. */
  class StockPortfolioBuilderObj {
    var stockAlloc: Option<AllocState<Stock>>
    var tx: map<string, AllocState<StockTx>>
    var unfinished: int
    var delivered: seq<Delivery>
    var consumed: bool

    function State(): PortfolioState
      reads this
    {
      PortfolioState(stockAlloc, tx, unfinished, delivered, consumed)
    }

    /** `StockPortfolioBuilder::create(callback)`. */
    constructor ()
      ensures State() == CreatePortfolioBuilder()
    {
      stockAlloc := None;
      tx := map[];
      unfinished := INT_MAX;
      delivered := [];
      consumed := false;
    }

    /** `add_stock(symbol, ccy)`. */
    method AddStock(symbol: string, ccy: string)
      requires !consumed && stockAlloc.Some? && stockAlloc.value.HasRoom()
      modifies this
      ensures State() == old(State()).AddStock(symbol, ccy)
    {
      stockAlloc := Some(stockAlloc.value.Next(NewStock(symbol, ccy, [])));
    }

    /** `prepare_stock_alloc(n)`, corrected to deliver an empty portfolio. */
    method PrepareStockAlloc(n: nat)
      requires !consumed
      modifies this
      ensures State() == old(State()).PrepareStockAllocCompleting(n)
    {
      unfinished := n;
      stockAlloc := Some(NewAlloc(n));
      if n == 0 {
        Deliver();
      }
    }

    /** `onSuccess(stock_alloc, tx); delete this;`. */
    method Deliver()
      requires !consumed
      modifies this
      ensures State() == old(State()).Deliver()
    {
      delivered := delivered + [Delivery(stockAlloc, tx)];
      consumed := true;
    }

    /** `check_completion(alloc)`. */
    method CheckCompletion(alloc: Option<string>)
      requires !consumed && (alloc.Some? ==> alloc.value in tx)
      modifies this
      ensures State() == old(State()).CheckCompletion(alloc)
    {
      if alloc.None? || tx[alloc.value].HasEnoughCounter() {
        unfinished := unfinished - 1;
        if unfinished == 0 {
          Deliver();
        }
      }
    }

    /** `prepare_tx_alloc(symbol, num)`. */
    method PrepareTxAlloc(symbol: string, num: nat)
      requires !consumed
      modifies this
      ensures State() == old(State()).PrepareTxAlloc(symbol, num)
    {
      if num == 0 {
        CheckCompletion(None);
      } else {
        tx := tx[symbol := NewAlloc(num)];
      }
    }

    /** `rm_stock(symbol)`, corrected to check completion. */
    method RmStock(symbol: string)
      requires !consumed
      modifies this
      ensures State() == old(State()).RmStockCompleting(symbol)
    {
      tx := tx - {symbol};
      unfinished := unfinished - 1;
      if unfinished == 0 {
        Deliver();
      }
    }

    /** `addTx(broker, symbol, type, price, shares, fee, date)`. */
    method AddTx(broker: string, symbol: string, kind: string, price: real, shares: real,
                 fee: real, date: int) returns (r: Result<()>)
      requires !consumed && (symbol in tx ==> tx[symbol].HasRoom())
      modifies this
      ensures old(State()).AddTx(broker, symbol, kind, price, shares, fee, date).Ok? ==>
        r == Ok(()) && State() == old(State()).AddTx(broker, symbol, kind, price, shares, fee, date).value
      ensures old(State()).AddTx(broker, symbol, kind, price, shares, fee, date).Err? ==>
        r == Err("Cannot find tx for stock " + symbol) && State() == old(State())
    {
      if symbol in tx {
        tx := tx[symbol := tx[symbol].Next(NewStockTx(broker, shares, price, fee, kind, date))];
        CheckCompletion(Some(symbol));
        r := Ok(());
      } else {
        r := Err("Cannot find tx for stock " + symbol);
      }
    }

    /** `incr_counter(symbol)`. */
    method IncrCounter(symbol: string)
      requires !consumed
      modifies this
      ensures State() == old(State()).IncrCounter(symbol)
    {
      if symbol in tx {
        tx := tx[symbol := tx[symbol].IncCounter()];
      }
    }

    /** `failed()`. */
    method Failed()
      requires !consumed
      modifies this
      ensures State() == old(State()).Failed()
    {
      consumed := true;
    }
  }

  /** `create_stock_with_tx(stock_alloc, tx)` entry for the stock in cell `i`: the list of the
    * allocator registered for its symbol, or an empty list with a null head. */
  function TxListFor(symbol: Option<string>, tx: map<string, AllocState<StockTx>>): (l: StockTxList)
    ensures l.WellFormed()
    ensures symbol.Some? && symbol.value in tx ==> Range(l.firstTx, l.num) == tx[symbol.value].items
    ensures !(symbol.Some? && symbol.value in tx) ==> l == DefaultTxList()
  {
    if symbol.Some? && symbol.value in tx then StockTxList(|tx[symbol.value].items|, Buf(tx[symbol.value].items))
    else StockTxList(0, Null)
  }

  /** `create_stock_with_tx(stock_alloc, tx)`: one entry per allocated stock, in stock
    * order, each pointing at its stock and owning the transactions registered for that
    * stock's symbol (none, with a null head, when the symbol has no allocator). */
  method CreateStockWithTx(stocks: AllocState<Stock>, tx: map<string, AllocState<StockTx>>)
    returns (head: array<StockWithTx>)
    requires forall i :: 0 <= i < |stocks.items| ==> stocks.items[i].symbol.Some?
    ensures fresh(head) && head.Length == stocks.AllocatedNum()
    ensures forall i :: 0 <= i < head.Length ==> head[i] == StockWithTx(i, TxListFor(stocks.items[i].symbol, tx))
    ensures forall i :: 0 <= i < head.Length ==> head[i].instrument == i
    ensures forall i :: 0 <= i < head.Length ==> head[i].txList.WellFormed()
    ensures forall i :: 0 <= i < head.Length && stocks.items[i].symbol.value in tx ==>
      head[i].txList.WellFormed() &&
      Range(head[i].txList.firstTx, head[i].txList.num) == tx[stocks.items[i].symbol.value].items
    ensures forall i :: 0 <= i < head.Length && stocks.items[i].symbol.value !in tx ==>
      head[i].txList == DefaultTxList()
  {
    var stockNum := stocks.AllocatedNum();
    head := new StockWithTx[stockNum](_ => StockWithTx(0, DefaultTxList()));
    var b := 0;
    while b != stockNum
      invariant 0 <= b <= stockNum
      invariant forall i :: 0 <= i < b ==> head[i] == StockWithTx(i, TxListFor(stocks.items[i].symbol, tx))
      decreases stockNum - b
    {
      var symbol := stocks.items[b].symbol.value;
      var txNum: int;
      var first: Ptr<StockTx>;
      if symbol !in tx {
        txNum := 0;
        first := Null;
      } else {
        txNum := tx[symbol].AllocatedNum();
        first := Buf(tx[symbol].items);
      }
      head[b] := StockWithTx(b, StockTxList(txNum, first));
      b := b + 1;
    }
  }
}
