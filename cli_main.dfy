/** The command line's menu logic: the group argument of the overview commands, the side
  * check of `stock add`, the stock position table with its FX conversion and zero-share
  * skip, the load-once quote cache, and the overview table that skips zero entries. Dates
  * and numbers stay raw; `None` stands for a NaN the source would show. */
module CliMain {
  import opened Wrappers
  import opened Core
  import opened Stocks
  import CliStock
  import Text

  // ---------------------------------------------------------------- groups

  /** `GROUP_BY_ASSET`, `GROUP_BY_BROKER`, `GROUP_BY_CCY`. */
  datatype Group = ByAsset | ByBroker | ByCcy

  /** The `GROUP` value passed to `get_overview`. */
  function GroupCode(g: Group): (c: Byte)
    ensures c <= 2
  {
    match g
    case ByAsset => 0
    case ByBroker => 1
    case ByCcy => 2
  }

  /** `groupName[g]`. */
  function GroupName(g: Group): string
  {
    match g
    case ByAsset => "Asset"
    case ByBroker => "Broker"
    case ByCcy => "Currency"
  }

  /** `to_lvl_group(lvl)`: decided by the first character, `lvl[0]`, which for an empty
    * string is the terminating NUL and so selects the default. */
  function ToLvlGroup(lvl: string): (g: Group)
    ensures g == ByAsset <==> |lvl| > 0 && (lvl[0] == 'a' || lvl[0] == 'A')
    ensures g == ByBroker <==> |lvl| > 0 && (lvl[0] == 'b' || lvl[0] == 'B')
    ensures g == ByCcy <==> |lvl| == 0 || (lvl[0] != 'a' && lvl[0] != 'A' && lvl[0] != 'b' && lvl[0] != 'B')
  {
    if |lvl| == 0 then ByCcy
    else match lvl[0]
      case 'a' => ByAsset
      case 'A' => ByAsset
      case 'b' => ByBroker
      case 'B' => ByBroker
      case _ => ByCcy
  }

  /** The one-letter arguments the `cs` help text offers select the group whose name starts
    * with that letter, and the first letter of every group name selects that group. */
  lemma ToLvlGroupNames(g: Group)
    ensures ToLvlGroup(GroupName(g)) == g
    ensures ToLvlGroup("a") == ByAsset && ToLvlGroup("b") == ByBroker && ToLvlGroup("c") == ByCcy
  {
  }

  // ---------------------------------------------------------------- stock add

  /** The transaction `stock add` hands to `add_stock_tx`; the date is the parsed
    * `yyyy-mm-dd` argument as a Unix time. */
  datatype TxRequest = TxRequest(broker: string, symbol: string, shares: real, price: real, fee: real,
                                 side: string, date: int)

  /** What `stock add` does: report the unknown side and stop, or add the transaction. */
  datatype AddOutcome = UnknownSide(message: string) | Adding(request: TxRequest)

  predicate KnownSide(side: string)
  {
    side == "BUY" || side == "SELL" || side == "SPLIT"
  }

  /** The `stock add` command: the side is upper-cased, and anything but BUY, SELL and SPLIT
    * is refused with a message naming the upper-cased side. */
  function AddCommand(broker: string, symbol: string, shares: real, price: real, fee: real,
                      side: string, date: int): (o: AddOutcome)
    ensures o.Adding? <==> KnownSide(Text.ToUpper(side))
    ensures o.Adding? ==> o.request == TxRequest(broker, symbol, shares, price, fee, Text.ToUpper(side), date)
    ensures o.UnknownSide? ==> o.message == "Unknown side " + Text.ToUpper(side) + "\n"
  {
    var upper := Text.ToUpper(side);
    if !KnownSide(upper) then UnknownSide("Unknown side " + upper + "\n")
    else Adding(TxRequest(broker, symbol, shares, price, fee, upper, date))
  }

  /** A side `stock add` lets through is stored as itself: the transaction built from the
    * request prints the same side name back. */
  lemma AddedSideRoundTrip(broker: string, symbol: string, shares: real, price: real, fee: real,
                           side: string, date: int)
    requires AddCommand(broker, symbol, shares, price, fee, side, date).Adding?
    ensures var r := AddCommand(broker, symbol, shares, price, fee, side, date).request;
      SideName(ParseSide(r.side)) == r.side && KnownSide(r.side)
  {
    SideNameRoundTrip(Text.ToUpper(side));
  }

  /** Lower-case and mixed-case sides are accepted, anything else is not. */
  lemma AddCommandCases()
    ensures AddCommand("b", "s", 1.0, 1.0, 0.0, "buy", 0).Adding?
    ensures AddCommand("b", "s", 1.0, 1.0, 0.0, "Sell", 0).Adding?
    ensures AddCommand("b", "s", 1.0, 1.0, 0.0, "sel", 0).UnknownSide?
  {
    assert Text.ToUpper("buy") == "BUY";
    assert Text.ToUpper("Sell") == "SELL";
    assert Text.ToUpper("sel") == "SEL";
  }

  // ---------------------------------------------------------------- quotes

  const JPY: string := "JPY"

  /** The quote symbol the FX rate of a currency is looked up under; none for JPY, whose rate
    * is 1.0. `strncmp` over `sizeof(jpy)` characters includes the terminator, so only the
    * currency "JPY" itself matches. */
  function FxSymbol(ccy: string): (s: Option<string>)
    ensures s.None? <==> ccy == JPY
    ensures s.Some? ==> s.value == ccy + "JPY=X"
  {
    if ccy == JPY then None else Some(ccy + JPY + "=X")
  }

  /** `get_rate(symbol)`: the rate and date of the cached quote, or NaN and 0. */
  function GetRate(rates: map<string, Quote>, symbol: string): (r: (Option<real>, int))
    ensures symbol in rates ==> r == (Some(rates[symbol].rate), rates[symbol].date)
    ensures symbol !in rates ==> r == (None, 0)
  {
    if symbol in rates then (Some(rates[symbol].rate), rates[symbol].date) else (None, 0)
  }

  /** `to_jpy(fx_rate, value)`: NaN when either is NaN. */
  function ToJpy(fx: Option<real>, value: Option<real>): (r: Option<real>)
    ensures r.Some? <==> fx.Some? && value.Some?
    ensures r.Some? ==> r.value == fx.value * value.value
  {
    if fx.Some? && value.Some? then Some(fx.value * value.value) else None
  }

  /** The quote cache of the menu: `all_quotes`, and how often a load was started and the
    * callback run. */
  datatype CacheState<Q> = CacheState(quotes: Option<Q>, loads: nat, notified: nat)
  {
    /** `get_quotes(onQuotesLoaded)` when the load, if one starts, delivers `fetched`. */
    function Get(fetched: Q): CacheState<Q>
    {
      if quotes.None? then CacheState(Some(fetched), loads + 1, notified + 1)
      else CacheState(quotes, loads, notified + 1)
    }

    /** `get_quotes` once per element of `fetches`. */
    function GetAll(fetches: seq<Q>): CacheState<Q>
    {
      if fetches == [] then this else GetAll(fetches[..|fetches| - 1]).Get(fetches[|fetches| - 1])
    }
  }

  /** The cache before the first `get_quotes`. */
  function EmptyCache<Q>(): CacheState<Q>
  {
    CacheState(None, 0, 0)
  }

  /** Starting empty, any number of `get_quotes` calls load once, keep the first load's
    * quotes and run every callback. */
  lemma {:induction false} LoadsOnce<Q>(fetches: seq<Q>)
    requires |fetches| > 0
    ensures EmptyCache<Q>().GetAll(fetches) == CacheState(Some(fetches[0]), 1, |fetches|)
  {
    var init := fetches[..|fetches| - 1];
    if |init| > 0 {
      assert init[0] == fetches[0];
      LoadsOnce(init);
    } else {
      assert fetches == [fetches[0]];
    }
  }

  /** The global `all_quotes` and the effects of `get_quotes`. */
  class QuoteCache {
    var allQuotes: Option<Quotes>
    ghost var loads: nat
    ghost var notified: nat

    ghost function State(): CacheState<Quotes>
      reads this
    {
      CacheState(allQuotes, loads, notified)
    }

    /** Before the first `get_quotes`, `all_quotes` is null. */
    constructor()
      ensures State() == EmptyCache()
    {
      allQuotes := None;
      loads := 0;
      notified := 0;
    }

    /** `get_quotes(onQuotesLoaded)`: with no cached quotes it loads them (`fetched`, to
    * `get_all_quotes`), stores them and runs the callback; otherwise it runs the callback
    * directly. `loaded` tells whether a load was started. */
    method GetQuotes(fetched: Quotes) returns (loaded: bool)
      modifies this
      ensures loaded <==> old(allQuotes).None?
      ensures State() == old(State()).Get(fetched)
    {
      loaded := allQuotes.None?;
      if loaded {
        allQuotes := Some(fetched);
        loads := loads + 1;
      }
      notified := notified + 1;
    }
  }

  // ---------------------------------------------------------------- stock positions

  /** `stock_balance`, what `StockTxList::calc()` returns. */
  datatype StockBalance = StockBalance(shares: real, fee: real, liquidated: real, vwap: real)

  /** One instrument the position table visits: its symbol, currency and balance. */
  datatype Holding = Holding(symbol: string, currency: string, balance: StockBalance)

  /** A row of the position table. */
  datatype PositionRow = PositionRow(symbol: string, currency: string, vwap: real, price: Option<real>,
                                     shares: real, marketValue: Option<real>, marketValueJpy: Option<real>,
                                     profit: Option<real>, profitJpy: Option<real>, liquidated: real,
                                     liquidatedJpy: Option<real>, fee: real, date: int)

  /** `price * balance.shares`. */
  function MarketValue(price: real, b: StockBalance): real
  {
    price * b.shares
  }

  /** `(price - balance.vwap) * balance.shares`. */
  function Profit(price: real, b: StockBalance): real
  {
    (price - b.vwap) * b.shares
  }

  /** The FX rate of a holding: 1.0 for JPY, otherwise the rate quoted for `ccy + "JPY=X"`. */
  function FxRate(rates: map<string, Quote>, ccy: string): (r: Option<real>)
    ensures ccy == JPY ==> r == Some(1.0)
    ensures ccy != JPY ==> r == GetRate(rates, ccy + "JPY=X").0
  {
    var s := FxSymbol(ccy);
    if s.None? then Some(1.0) else GetRate(rates, s.value).0
  }

  /** The row of a holding with shares: market value and profit are known only when both the
    * price and the FX rate are, and their JPY cells are then converted at the FX rate. */
  function RowOf(rates: map<string, Quote>, h: Holding): (r: PositionRow)
    ensures r.symbol == h.symbol && r.currency == h.currency && r.shares == h.balance.shares
    ensures r.price == GetRate(rates, h.symbol).0 && r.date == GetRate(rates, h.symbol).1
    ensures r.marketValue.Some? <==> r.price.Some? && FxRate(rates, h.currency).Some?
    ensures r.marketValue.Some? ==> r.marketValue.value == MarketValue(r.price.value, h.balance)
    ensures r.marketValueJpy == ToJpy(FxRate(rates, h.currency), r.marketValue)
    ensures r.profit.Some? <==> r.marketValue.Some?
    ensures r.profit.Some? ==> r.profit.value == Profit(r.price.value, h.balance)
    ensures r.profitJpy == ToJpy(FxRate(rates, h.currency), r.profit)
    ensures h.currency == JPY ==> r.marketValueJpy == r.marketValue && r.profitJpy == r.profit
    ensures r.liquidatedJpy == ToJpy(FxRate(rates, h.currency), Some(h.balance.liquidated))
  {
    var fx := FxRate(rates, h.currency);
    var (price, date) := GetRate(rates, h.symbol);
    var known := price.Some? && fx.Some?;
    var marketValue := if known then Some(MarketValue(price.value, h.balance)) else None;
    var profit := if known then Some(Profit(price.value, h.balance)) else None;
    PositionRow(h.symbol, h.currency, h.balance.vwap, price, h.balance.shares, marketValue,
                ToJpy(fx, marketValue), profit, ToJpy(fx, profit), h.balance.liquidated,
                ToJpy(fx, Some(h.balance.liquidated)), h.balance.fee, date)
  }

  /** The rows, the two JPY sums and the FX date `print_stock_list` has gathered. */
  datatype PositionState = PositionState(rows: seq<PositionRow>, marketValueSumJpy: real,
                                         profitSumJpy: real, fxDate: int)

  /** One iteration of the loop of `print_stock_list`. */
  function PositionStep(st: PositionState, rates: map<string, Quote>, h: Holding): PositionState
  {
    if h.balance.shares == 0.0 then st
    else
      var r := RowOf(rates, h);
      var fxDate := if h.currency == JPY then st.fxDate else GetRate(rates, h.currency + "JPY=X").1;
      PositionState(st.rows + [r],
                    st.marketValueSumJpy + (if r.marketValueJpy.Some? then r.marketValueJpy.value else 0.0),
                    st.profitSumJpy + (if r.profitJpy.Some? then r.profitJpy.value else 0.0),
                    fxDate)
  }

  /** The loop of `print_stock_list` over all holdings, from empty sums and FX date 0. */
  function Positions(rates: map<string, Quote>, hs: seq<Holding>): PositionState
  {
    if hs == [] then PositionState([], 0.0, 0.0, 0)
    else PositionStep(Positions(rates, hs[..|hs| - 1]), rates, hs[|hs| - 1])
  }

  /** The holdings with shares. */
  function WithShares(hs: seq<Holding>): (r: seq<Holding>)
    ensures forall i :: 0 <= i < |r| ==> r[i].balance.shares != 0.0
  {
    if hs == [] then []
    else WithShares(hs[..|hs| - 1]) + if hs[|hs| - 1].balance.shares == 0.0 then [] else [hs[|hs| - 1]]
  }

  function RowsOf(rates: map<string, Quote>, hs: seq<Holding>): (rows: seq<PositionRow>)
    ensures |rows| == |hs|
    ensures forall i :: 0 <= i < |hs| ==> rows[i] == RowOf(rates, hs[i])
  {
    seq(|hs|, i requires 0 <= i < |hs| => RowOf(rates, hs[i]))
  }

  /** The sum of the known cells of a column. */
  function KnownSum(cells: seq<Option<real>>): real
  {
    if cells == [] then 0.0
    else KnownSum(cells[..|cells| - 1]) + (if cells[|cells| - 1].Some? then cells[|cells| - 1].value else 0.0)
  }

  function MarketValueJpyColumn(rows: seq<PositionRow>): (c: seq<Option<real>>)
    ensures |c| == |rows| && forall i :: 0 <= i < |rows| ==> c[i] == rows[i].marketValueJpy
  {
    seq(|rows|, i requires 0 <= i < |rows| => rows[i].marketValueJpy)
  }

  function ProfitJpyColumn(rows: seq<PositionRow>): (c: seq<Option<real>>)
    ensures |c| == |rows| && forall i :: 0 <= i < |rows| ==> c[i] == rows[i].profitJpy
  {
    seq(|rows|, i requires 0 <= i < |rows| => rows[i].profitJpy)
  }

  lemma KnownSumSnoc(cells: seq<Option<real>>, c: Option<real>)
    ensures KnownSum(cells + [c]) == KnownSum(cells) + (if c.Some? then c.value else 0.0)
  {
    assert (cells + [c])[..|cells|] == cells;
  }

  lemma ColumnsSnoc(rows: seq<PositionRow>, r: PositionRow)
    ensures MarketValueJpyColumn(rows + [r]) == MarketValueJpyColumn(rows) + [r.marketValueJpy]
    ensures ProfitJpyColumn(rows + [r]) == ProfitJpyColumn(rows) + [r.profitJpy]
  {
  }

  /** The position table holds one row per holding with shares, in order. */
  lemma {:induction false} PositionsRows(rates: map<string, Quote>, hs: seq<Holding>)
    ensures Positions(rates, hs).rows == RowsOf(rates, WithShares(hs))
  {
    if hs != [] {
      var init := hs[..|hs| - 1];
      var h := hs[|hs| - 1];
      PositionsRows(rates, init);
      if h.balance.shares != 0.0 {
        assert RowsOf(rates, WithShares(hs)) == RowsOf(rates, WithShares(init)) + [RowOf(rates, h)];
      } else {
        assert WithShares(hs) == WithShares(init);
      }
    }
  }

  /** The SUM row totals exactly the JPY market values and JPY profits the rows show as
    * numbers. */
  lemma {:induction false} PositionsSums(rates: map<string, Quote>, hs: seq<Holding>)
    ensures Positions(rates, hs).marketValueSumJpy == KnownSum(MarketValueJpyColumn(Positions(rates, hs).rows))
    ensures Positions(rates, hs).profitSumJpy == KnownSum(ProfitJpyColumn(Positions(rates, hs).rows))
  {
    if hs != [] {
      var init := hs[..|hs| - 1];
      var h := hs[|hs| - 1];
      PositionsSums(rates, init);
      var st := Positions(rates, init);
      if h.balance.shares != 0.0 {
        var r := RowOf(rates, h);
        assert Positions(rates, hs).rows == st.rows + [r];
        ColumnsSnoc(st.rows, r);
        KnownSumSnoc(MarketValueJpyColumn(st.rows), r.marketValueJpy);
        KnownSumSnoc(ProfitJpyColumn(st.rows), r.profitJpy);
      }
    }
  }

  /** The holdings `print_stock_list` visits, entry after entry: each entry's stock symbol
    * and currency and the balance of its transaction list. */
  function HoldingsOf(stocks: seq<Stock>, swts: seq<StockWithTx>, balanceOf: StockTxList -> StockBalance): (hs: seq<Holding>)
    requires CliStock.EntriesShape(stocks, swts)
    requires forall i :: 0 <= i < |stocks| ==> stocks[i].symbol.Some? && stocks[i].currency.Some?
    ensures |hs| == |swts|
  {
    if swts == [] then []
    else
      var stx := swts[|swts| - 1];
      var stock := stocks[stx.instrument];
      HoldingsOf(stocks, swts[..|swts| - 1], balanceOf) + [Holding(stock.symbol.value, stock.currency.value, balanceOf(stx.txList))]
  }

  lemma HoldingsSnoc(stocks: seq<Stock>, swts: seq<StockWithTx>, i: nat, balanceOf: StockTxList -> StockBalance)
    requires CliStock.EntriesShape(stocks, swts) && i < |swts|
    requires forall k :: 0 <= k < |stocks| ==> stocks[k].symbol.Some? && stocks[k].currency.Some?
    ensures var stock := stocks[swts[i].instrument];
      HoldingsOf(stocks, swts[..i + 1], balanceOf) ==
      HoldingsOf(stocks, swts[..i], balanceOf) + [Holding(stock.symbol.value, stock.currency.value, balanceOf(swts[i].txList))]
  {
    assert swts[..i + 1][..i] == swts[..i];
  }

  /** One iteration of the loop of `print_stock_list` for a holding: nothing for zero
    * shares; otherwise the FX rate (1.0 for JPY, else the `ccy + "JPY=X"` quote, whose date
    * becomes the FX date), the row, and the JPY sums when price and FX rate are known. */
  method VisitHolding(rates: map<string, Quote>, h: Holding, st: PositionState) returns (st': PositionState)
    ensures st' == PositionStep(st, rates, h)
  {
    if h.balance.shares == 0.0 {
      return st;
    }
    var fx: Option<real> := Some(1.0);
    var fxDate := st.fxDate;
    if h.currency != JPY {
      assert h.currency + JPY + "=X" == h.currency + "JPY=X";
      var rate := GetRate(rates, h.currency + JPY + "=X");
      fx, fxDate := rate.0, rate.1;
    }
    assert fx == FxRate(rates, h.currency);
    var price := GetRate(rates, h.symbol).0;
    var r := RowOf(rates, h);
    var marketValueJpy, profitJpy := 0.0, 0.0;
    if price.Some? && fx.Some? {
      var marketValue := MarketValue(price.value, h.balance);
      var profit := Profit(price.value, h.balance);
      assert r.price == price && r.marketValue == Some(marketValue) && r.profit == Some(profit);
      marketValueJpy, profitJpy := ToJpy(fx, Some(marketValue)).value, ToJpy(fx, Some(profit)).value;
    } else {
      assert r.marketValueJpy.None? && r.profitJpy.None?;
    }
    st' := PositionState(st.rows + [r], st.marketValueSumJpy + marketValueJpy, st.profitSumJpy + profitJpy, fxDate);
  }

  /** `print_stock_list(out, p)` up to the SUM row: the loop over the portfolio's entries.
    * `balanceOf` is `StockTxList::calc()`, whose body is not part of this model; a null symbol or
    * currency would be dereferenced, so every stock has both. */
  method PrintStockList(p: StockPortfolio, balanceOf: StockTxList -> StockBalance, rates: map<string, Quote>)
    returns (st: PositionState)
    requires CliStock.PortfolioShape(p)
    requires forall i :: 0 <= i < p.num ==> p.firstStock.cells[i].symbol.Some? && p.firstStock.cells[i].currency.Some?
    ensures st == Positions(rates, HoldingsOf(Alloc.Range(p.firstStock, p.num), Alloc.Range(p.firstStockWithTx, p.num), balanceOf))
  {
    var stocks := Alloc.Walk(p.firstStock, p.num);
    var swts := Alloc.Walk(p.firstStockWithTx, p.num);
    assert stocks == Alloc.Range(p.firstStock, p.num);
    assert swts == Alloc.Range(p.firstStockWithTx, p.num);
    st := PositionState([], 0.0, 0.0, 0);
    var i := 0;
    while i < |swts|
      invariant 0 <= i <= |swts|
      invariant st == Positions(rates, HoldingsOf(stocks, swts[..i], balanceOf))
    {
      assert swts[..i + 1][..i] == swts[..i];
      var stx := swts[i];
      var stock := stocks[stx.instrument];
      var h := Holding(stock.symbol.value, stock.currency.value, balanceOf(stx.txList));
      HoldingsSnoc(stocks, swts, i, balanceOf);
      st := VisitHolding(rates, h, st);
      i := i + 1;
    }
    assert swts[..i] == swts;
  }

  // ---------------------------------------------------------------- overview

  const MAIN_CCY: string := "JPY"

  /** `overview_item`. */
  datatype OverviewItem = OverviewItem(name: string, currency: string, value: real, valueInMainCcy: real,
                                       profit: real, profitInMainCcy: real)

  /** `overview_item_container`: a level-2 group and its items. */
  datatype ItemContainer = ItemContainer(name: string, itemName: string, valueSum: real, profitSum: real,
                                         items: seq<OverviewItem>)

  /** `overview_item_container_container`: a level-1 group and its level-2 groups. */
  datatype ContainerContainer = ContainerContainer(name: string, itemName: string, valueSum: real,
                                                   profitSum: real, containers: seq<ItemContainer>)

  /** `overview`. */
  datatype Overview = Overview(itemName: string, valueSum: real, profitSum: real, groups: seq<ContainerContainer>)

  /** A table cell: text, or a number to be formatted. */
  datatype Cell = Str(s: string) | Num(x: real)

  type Row = seq<Cell>

  function HeaderRow(lvl1: Group, lvl2: Group, lvl3: Group): Row
  {
    [Str(GroupName(lvl1)), Str(GroupName(lvl2)), Str(GroupName(lvl3)), Str("Market Value"),
     Str("Market Value (" + MAIN_CCY + ")"), Str("Profit"), Str("Profit (" + MAIN_CCY + ")")]
  }

  function Level1Row(l1: ContainerContainer): Row
  {
    [Str(l1.name), Str(""), Str(""), Str(""), Num(l1.valueSum), Str(""), Num(l1.profitSum)]
  }

  function Level2Row(l2: ItemContainer): Row
  {
    [Str(""), Str(l2.name), Str(""), Str(""), Num(l2.valueSum), Str(""), Num(l2.profitSum)]
  }

  function Level3Row(l3: OverviewItem): Row
  {
    [Str(""), Str(""), Str(l3.name), Num(l3.value), Num(l3.valueInMainCcy), Num(l3.profit), Num(l3.profitInMainCcy)]
  }

  function SumRow(o: Overview): Row
  {
    [Str("SUM"), Str(""), Str(""), Str(""), Num(o.valueSum), Str(""), Num(o.profitSum)]
  }

  /** The rows of a level-2 group's items; items worth nothing in the main currency are
    * skipped. */
  function ItemRows(items: seq<OverviewItem>): seq<Row>
  {
    if items == [] then []
    else
      var l3 := items[|items| - 1];
      ItemRows(items[..|items| - 1]) + if l3.valueInMainCcy == 0.0 then [] else [Level3Row(l3)]
  }

  /** The rows of a level-1 group's level-2 groups; a group worth nothing is skipped together
    * with its items. */
  function ContainerRows(cs: seq<ItemContainer>): seq<Row>
  {
    if cs == [] then []
    else
      var l2 := cs[|cs| - 1];
      ContainerRows(cs[..|cs| - 1]) + if l2.valueSum == 0.0 then [] else [Level2Row(l2)] + ItemRows(l2.items)
  }

  /** The rows of the level-1 groups, each always shown. */
  function GroupRows(gs: seq<ContainerContainer>): seq<Row>
  {
    if gs == [] then [] else GroupRows(gs[..|gs| - 1]) + [Level1Row(gs[|gs| - 1])] + ContainerRows(gs[|gs| - 1].containers)
  }

  /** The overview with every zero level-2 group and zero item removed. */
  function PruneItems(items: seq<OverviewItem>): (r: seq<OverviewItem>)
    ensures forall i :: 0 <= i < |r| ==> r[i].valueInMainCcy != 0.0
  {
    if items == [] then []
    else PruneItems(items[..|items| - 1]) + if items[|items| - 1].valueInMainCcy == 0.0 then [] else [items[|items| - 1]]
  }

  function PruneContainers(cs: seq<ItemContainer>): (r: seq<ItemContainer>)
    ensures forall i :: 0 <= i < |r| ==> r[i].valueSum != 0.0
  {
    if cs == [] then []
    else
      var l2 := cs[|cs| - 1];
      PruneContainers(cs[..|cs| - 1]) + if l2.valueSum == 0.0 then [] else [l2.(items := PruneItems(l2.items))]
  }

  function PruneGroups(gs: seq<ContainerContainer>): (r: seq<ContainerContainer>)
    ensures |r| == |gs|
  {
    if gs == [] then []
    else
      var l1 := gs[|gs| - 1];
      PruneGroups(gs[..|gs| - 1]) + [l1.(containers := PruneContainers(l1.containers))]
  }

  /** Every row of every group and item, nothing skipped. */
  function AllItemRows(items: seq<OverviewItem>): seq<Row>
  {
    if items == [] then [] else AllItemRows(items[..|items| - 1]) + [Level3Row(items[|items| - 1])]
  }

  function AllContainerRows(cs: seq<ItemContainer>): seq<Row>
  {
    if cs == [] then []
    else AllContainerRows(cs[..|cs| - 1]) + [Level2Row(cs[|cs| - 1])] + AllItemRows(cs[|cs| - 1].items)
  }

  function AllGroupRows(gs: seq<ContainerContainer>): seq<Row>
  {
    if gs == [] then [] else AllGroupRows(gs[..|gs| - 1]) + [Level1Row(gs[|gs| - 1])] + AllContainerRows(gs[|gs| - 1].containers)
  }

  lemma {:induction false} ItemRowsPrune(items: seq<OverviewItem>)
    ensures ItemRows(items) == AllItemRows(PruneItems(items))
  {
    if items != [] {
      ItemRowsPrune(items[..|items| - 1]);
      var p := PruneItems(items[..|items| - 1]);
      var l3 := items[|items| - 1];
      if l3.valueInMainCcy != 0.0 {
        assert (p + [l3])[..|p|] == p;
      } else {
        assert p + [] == p;
      }
    }
  }

  lemma {:induction false} ContainerRowsPrune(cs: seq<ItemContainer>)
    ensures ContainerRows(cs) == AllContainerRows(PruneContainers(cs))
  {
    if cs != [] {
      ContainerRowsPrune(cs[..|cs| - 1]);
      var p := PruneContainers(cs[..|cs| - 1]);
      var l2 := cs[|cs| - 1];
      if l2.valueSum != 0.0 {
        var l2' := l2.(items := PruneItems(l2.items));
        ItemRowsPrune(l2.items);
        assert (p + [l2'])[..|p|] == p;
        assert Level2Row(l2') == Level2Row(l2);
      } else {
        assert p + [] == p;
      }
    }
  }

  /** The overview table shows what printing every entry of the pruned overview shows: a
    * zero level-2 group disappears with all its items, and a zero item disappears alone,
    * while level-1 groups always appear. */
  lemma {:induction false} GroupRowsPrune(gs: seq<ContainerContainer>)
    ensures GroupRows(gs) == AllGroupRows(PruneGroups(gs))
  {
    if gs != [] {
      GroupRowsPrune(gs[..|gs| - 1]);
      var p := PruneGroups(gs[..|gs| - 1]);
      var l1 := gs[|gs| - 1];
      var l1' := l1.(containers := PruneContainers(l1.containers));
      ContainerRowsPrune(l1.containers);
      assert (p + [l1'])[..|p|] == p;
      assert Level1Row(l1') == Level1Row(l1);
    }
  }

  /** The innermost loop of `list_overview`: the items of one level-2 group. */
  method EmitItems(items: seq<OverviewItem>) returns (rows: seq<Row>)
    ensures rows == ItemRows(items)
  {
    rows := [];
    var k := 0;
    while k < |items|
      invariant 0 <= k <= |items|
      invariant rows == ItemRows(items[..k])
    {
      assert items[..k + 1][..k] == items[..k];
      if items[k].valueInMainCcy != 0.0 {
        rows := rows + [Level3Row(items[k])];
      }
      k := k + 1;
    }
    assert items[..k] == items;
  }

  /** The middle loop: the level-2 groups of one level-1 group. */
  method EmitContainers(cs: seq<ItemContainer>) returns (rows: seq<Row>)
    ensures rows == ContainerRows(cs)
  {
    rows := [];
    var j := 0;
    while j < |cs|
      invariant 0 <= j <= |cs|
      invariant rows == ContainerRows(cs[..j])
    {
      assert cs[..j + 1][..j] == cs[..j];
      if cs[j].valueSum != 0.0 {
        var itemRows := EmitItems(cs[j].items);
        rows := rows + [Level2Row(cs[j])] + itemRows;
      }
      j := j + 1;
    }
    assert cs[..j] == cs;
  }

  /** `list_overview(lvl1, lvl2, lvl3, out)` given the overview `get_overview` returned: the
    * header, the groups, and the SUM row. */
  method ListOverview(lvl1: Group, lvl2: Group, lvl3: Group, o: Overview) returns (rows: seq<Row>)
    ensures rows == [HeaderRow(lvl1, lvl2, lvl3)] + AllGroupRows(PruneGroups(o.groups)) + [SumRow(o)]
  {
    rows := [HeaderRow(lvl1, lvl2, lvl3)];
    var i := 0;
    while i < |o.groups|
      invariant 0 <= i <= |o.groups|
      invariant rows == [HeaderRow(lvl1, lvl2, lvl3)] + GroupRows(o.groups[..i])
    {
      assert o.groups[..i + 1][..i] == o.groups[..i];
      var containerRows := EmitContainers(o.groups[i].containers);
      rows := rows + [Level1Row(o.groups[i])] + containerRows;
      i := i + 1;
    }
    assert o.groups[..i] == o.groups;
    GroupRowsPrune(o.groups);
    rows := rows + [SumRow(o)];
  }
}
