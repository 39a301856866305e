/** Stock, StockTx, StockTxList, StockWithTx and StockPortfolio of stock.hxx / stock.cc.
  * These classes add no fields to their C records, so each is one datatype; objects live
  * in buffer cells, which is where the move assignments act. */
module Stocks {
  import opened Wrappers
  import opened Alloc
  import opened Core

  /** `SIDE`, an `unsigned char`. */
  newtype Byte = x: int | 0 <= x < 256

  const BUY: Byte := 0
  const SELL: Byte := 1
  const SPLIT: Byte := 2

  /** `StockTx::Side()`: the name printed for a side code. */
  function SideName(side: Byte): (s: string)
    ensures s == "BUY" <==> side == BUY
    ensures s == "SELL" <==> side == SELL
    ensures s == "SPLIT" <==> side != BUY && side != SELL
  {
    if side == BUY then "BUY" else if side == SELL then "SELL" else "SPLIT"
  }

  /** The side parsing of the `StockTx` constructor. */
  function ParseSide(sd: string): (side: Byte)
    ensures side == BUY <==> sd == "BUY"
    ensures side == SELL <==> sd == "SELL"
    ensures side == SPLIT <==> sd != "BUY" && sd != "SELL"
  {
    if sd == "BUY" then BUY else if sd == "SELL" then SELL else SPLIT
  }

  /** Each of the three side names survives parsing and printing. */
  lemma SideNameRoundTrip(s: string)
    requires s == "BUY" || s == "SELL" || s == "SPLIT"
    ensures SideName(ParseSide(s)) == s
  {
  }

  /** Each of the three codes survives printing and parsing; any other code prints as
    * "SPLIT" and parses back as SPLIT. */
  lemma SideCodeRoundTrip(side: Byte)
    ensures side <= SPLIT ==> ParseSide(SideName(side)) == side
    ensures side > SPLIT ==> ParseSide(SideName(side)) == SPLIT
  {
  }

  /** `stock` / `Stock`; `assetClassRatios` is the `asset_class_ratio` the constructor moves in. */
  datatype Stock = Stock(symbol: Option<string>, currency: Option<string>, assetClassRatios: seq<real>)

  /** `Stock()`: null symbol and null currency. */
  function DefaultStock(): (s: Stock)
    ensures s.symbol.None? && s.currency.None?
  {
    Stock(None, None, [])
  }

  /** `Stock(n, ccy, ratios)`: copies of both strings and the ratios as given. */
  function NewStock(n: string, ccy: string, ratios: seq<real>): (s: Stock)
    ensures s.symbol.Some? && s.currency.Some? && s.assetClassRatios == ratios
    ensures '\0' !in n + ccy ==> s.symbol == Some(n) && s.currency == Some(ccy)
  {
    Stock(Some(CStringValue(n)), Some(CStringValue(ccy)), ratios)
  }

  /** `*this = std::move(o)` with `*this` in `dst[i]` and `o` in `src[j]`. The target's old
    * strings are freed (`freed`), it takes the source's symbol, currency and ratios, and
    * the source's symbol and currency become null. Moving a cell onto itself leaves it
    * with null strings. */
  method MoveAssignStock(dst: array<Stock>, i: nat, src: array<Stock>, j: nat)
    returns (freed: seq<Option<string>>)
    requires i < dst.Length && j < src.Length
    modifies dst, src
    ensures freed == [old(dst[i]).symbol, old(dst[i]).currency]
    ensures dst == src && i == j ==> dst[i] == Stock(None, None, old(dst[i]).assetClassRatios)
    ensures !(dst == src && i == j) ==>
      dst[i] == old(src[j]) && src[j] == Stock(None, None, old(src[j]).assetClassRatios)
    ensures forall k :: 0 <= k < dst.Length && k != i && !(dst == src && k == j) ==> dst[k] == old(dst[k])
    ensures forall k :: 0 <= k < src.Length && k != j && !(dst == src && k == i) ==> src[k] == old(src[k])
  {
    freed := [dst[i].symbol, dst[i].currency];
    dst[i] := dst[i].(symbol := src[j].symbol);
    dst[i] := dst[i].(currency := src[j].currency);
    src[j] := src[j].(symbol := None);
    src[j] := src[j].(currency := None);
    dst[i] := dst[i].(assetClassRatios := src[j].assetClassRatios);
  }

  /** `stock_tx` / `StockTx`. */
  datatype StockTx = StockTx(broker: string, fee: real, shares: real, price: real, side: Byte, date: int)

  /** `StockTx(b, s, p, f, sd, dt)`: a copy of the broker, the numbers unchanged and the
    * parsed side. */
  function NewStockTx(b: string, s: real, p: real, f: real, sd: string, dt: int): (tx: StockTx)
    ensures tx.shares == s && tx.price == p && tx.fee == f && tx.date == dt
    ensures '\0' !in b ==> tx.broker == b
    ensures SideName(tx.side) == (if sd == "BUY" || sd == "SELL" then sd else "SPLIT")
  {
    StockTx(CStringValue(b), f, s, p, ParseSide(sd), dt)
  }

  /** `stock_tx_list` / `StockTxList`. */
  datatype StockTxList = StockTxList(num: int, firstTx: Ptr<StockTx>)
  {
    /** `head(default_member_tag)`, `size(default_member_tag)`. */
    function Head(): Ptr<StockTx> { firstTx }
    function Size(): int { num }
    predicate WellFormed() { Spans(firstTx, num) }
  }

  /** `StockTxList()`: no transactions and a null head. */
  function DefaultTxList(): (l: StockTxList)
    ensures l.Size() == 0 && l.Head().Null? && l.WellFormed()
  {
    StockTxList(0, Null)
  }

  /** `begin()..end()` of a list: exactly `size()` transactions from `first_tx`. */
  method ListTxs(l: StockTxList) returns (txs: seq<StockTx>)
    requires l.WellFormed()
    ensures |txs| == l.Size()
    ensures forall k :: 0 <= k < l.num ==> txs[k] == l.firstTx.cells[k]
  {
    txs := Walk(l.Head(), l.Size());
  }

  /** `*this = std::move(o)` with `*this` in `dst[i]` and `o` in `src[j]`: `free()` destroys
    * the target's transactions (`destroyed`), the target takes the source's count and
    * head, and the source is left empty with a null head. */
  method MoveAssignTxList(dst: array<StockTxList>, i: nat, src: array<StockTxList>, j: nat)
    returns (destroyed: seq<StockTx>)
    requires i < dst.Length && j < src.Length
    requires dst[i].firstTx.Buf? ==> dst[i].num <= |dst[i].firstTx.cells|
    modifies dst, src
    ensures destroyed == if old(dst[i]).firstTx.Buf? && old(dst[i]).num > 0
                         then old(dst[i]).firstTx.cells[..old(dst[i]).num] else []
    ensures dst == src && i == j ==> dst[i] == DefaultTxList()
    ensures !(dst == src && i == j) ==> dst[i] == old(src[j]) && src[j] == DefaultTxList()
    ensures forall k :: 0 <= k < dst.Length && k != i && !(dst == src && k == j) ==> dst[k] == old(dst[k])
    ensures forall k :: 0 <= k < src.Length && k != j && !(dst == src && k == i) ==> src[k] == old(src[k])
  {
    destroyed := FreePlacementAllocated(dst[i].firstTx, dst[i].num);
    dst[i] := dst[i].(num := src[j].num);
    dst[i] := dst[i].(firstTx := src[j].firstTx);
    src[j] := src[j].(num := 0);
    src[j] := src[j].(firstTx := Null);
  }

  /** `stock_with_tx` / `StockWithTx(i, t)`: `instrument` is the index of the instrument in the
    * portfolio's stock buffer, which owns it; `txList` is the list this entry owns. */
  datatype StockWithTx = StockWithTx(instrument: nat, txList: StockTxList)

  /** `stock_portfolio` / `StockPortfolio(n, first_s, first)`. */
  datatype StockPortfolio = StockPortfolio(num: int, firstStock: Ptr<Stock>, firstStockWithTx: Ptr<StockWithTx>)
}
