/** The command line's broker listing: `list` turns every broker into `add_row` calls after
  * one header row, and the two writers consume those calls, the table blanking a repeated
  * broker name and the CSV writer skipping rows without a currency or with a zero balance.
  * Number formatting is left to the printer, so rows keep the raw balance. */
module CliBroker {
  import opened Wrappers
  import opened Alloc
  import opened Core

  const HEADERS: seq<string> := ["Broker", "Currency", "Balance"]

  /** One `add_row(name, ccy, value)` call; `None` is the null currency. */
  datatype RowCall = Call(name: string, ccy: Option<string>, value: real)

  predicate BrokersShape(bs: seq<Broker>)
  {
    forall i :: 0 <= i < |bs| ==> Spans(bs[i].Head(), bs[i].Size())
  }

  /** The calls `list` makes for one broker: one row with a null currency when it has no
    * cash balance, otherwise one row per balance, in balance order. */
  function BrokerRows(b: Broker): (r: seq<RowCall>)
    requires Spans(b.Head(), b.Size())
    ensures b.num == 0 ==> r == [Call(b.name, None, 0.0)]
    ensures b.num != 0 ==> |r| == b.num && forall k :: 0 <= k < b.num ==>
      r[k] == Call(b.name, Some(b.firstCashBalance.cells[k].ccy), b.firstCashBalance.cells[k].balance)
  {
    if b.num == 0 then [Call(b.name, None, 0.0)]
    else
      var cells := Range(b.Head(), b.Size());
      seq(b.num, k requires 0 <= k < b.num => Call(b.name, Some(cells[k].ccy), cells[k].balance))
  }

  /** The rows of every broker, broker after broker. */
  function ListRows(bs: seq<Broker>): seq<RowCall>
    requires BrokersShape(bs)
  {
    if bs == [] then [] else ListRows(bs[..|bs| - 1]) + BrokerRows(bs[|bs| - 1])
  }

  /** The number of rows a broker yields. */
  function RowCount(b: Broker): nat
  {
    if b.num <= 0 then 1 else b.num
  }

  /** The number of rows the brokers yield. */
  function RowsBefore(bs: seq<Broker>): nat
  {
    if bs == [] then 0 else RowsBefore(bs[..|bs| - 1]) + RowCount(bs[|bs| - 1])
  }

  lemma {:induction false} ListRowsLength(bs: seq<Broker>)
    requires BrokersShape(bs)
    ensures |ListRows(bs)| == RowsBefore(bs)
  {
    if bs != [] {
      ListRowsLength(bs[..|bs| - 1]);
    }
  }

  /** The rows of broker `i` occupy positions `RowsBefore(bs[..i])` onwards, in order. */
  lemma {:induction false} ListRowsAt(bs: seq<Broker>, i: nat, k: nat)
    requires BrokersShape(bs)
    requires i < |bs| && k < RowCount(bs[i])
    ensures RowsBefore(bs[..i]) + k < |ListRows(bs)|
    ensures ListRows(bs)[RowsBefore(bs[..i]) + k] == BrokerRows(bs[i])[k]
  {
    var init := bs[..|bs| - 1];
    var front, last := ListRows(init), BrokerRows(bs[|bs| - 1]);
    ListRowsLength(init);
    assert ListRows(bs) == front + last;
    if i == |bs| - 1 {
      assert bs[..i] == init;
      BrokerRowsLength(bs[i]);
      assert (front + last)[|front| + k] == last[k];
    } else {
      assert init[..i] == bs[..i];
      ListRowsAt(init, i, k);
      assert (front + last)[RowsBefore(bs[..i]) + k] == front[RowsBefore(bs[..i]) + k];
    }
  }

  lemma {:induction false} BrokerRowsLength(b: Broker)
    requires Spans(b.Head(), b.Size())
    ensures |BrokerRows(b)| == RowCount(b)
  {
  }

  /** `list(l)`'s callback up to the final output call: the header columns and every `add_row` call, made by
    * the loop over the brokers and, inside it, the loop over one broker's balances. */
  method List(all: AllBrokers) returns (headers: seq<string>, calls: seq<RowCall>)
    requires Spans(all.firstBroker, all.num) && BrokersShape(Range(all.firstBroker, all.num))
    ensures headers == HEADERS
    ensures calls == ListRows(Range(all.firstBroker, all.num))
  {
    headers := HEADERS;
    var bs := Walk(all.firstBroker, all.num);
    assert bs == Range(all.firstBroker, all.num);
    calls := [];
    var i := 0;
    while i < |bs|
      invariant 0 <= i <= |bs|
      invariant calls == ListRows(bs[..i])
    {
      var broker := bs[i];
      assert bs[..i + 1][..i] == bs[..i];
      if broker.Size() == 0 {
        calls := calls + [Call(broker.name, None, 0.0)];
      } else {
        calls := AddBalanceRows(calls, broker);
      }
      i := i + 1;
    }
    assert bs[..i] == bs;
  }

  /** The inner loop of `list`: one `add_row` per cash balance of a broker that has some. */
  method AddBalanceRows(calls0: seq<RowCall>, broker: Broker) returns (calls: seq<RowCall>)
    requires Spans(broker.Head(), broker.Size()) && broker.Size() != 0
    ensures calls == calls0 + BrokerRows(broker)
  {
    var balances := BrokerCashBalances(broker);
    calls := calls0;
    var k := 0;
    while k < |balances|
      invariant 0 <= k <= |balances|
      invariant calls == calls0 + BrokerRows(broker)[..k]
    {
      assert BrokerRows(broker)[..k + 1] == BrokerRows(broker)[..k] + [BrokerRows(broker)[k]];
      calls := calls + [Call(broker.name, Some(balances[k].ccy), balances[k].balance)];
      k := k + 1;
    }
    assert BrokerRows(broker)[..k] == BrokerRows(broker);
  }

  /** A row of the tabulate table: the header, or name, currency and balance cells; an empty
    * balance cell is `None`. */
  datatype TableRow = HeaderRow(cols: seq<string>) | Row(name: string, ccy: string, balance: Option<real>)

  /** The table rows and `last_name` of a `BrokerTable`. */
  datatype TableState = TableState(table: seq<TableRow>, lastName: string)
  {
    /** `BrokerTable::add_row`. */
    function Add(c: RowCall): TableState
    {
      if c.ccy.None? then TableState(table + [Row(c.name, "", None)], lastName)
      else TableState(table + [Row(if lastName == c.name then "" else c.name, c.ccy.value, Some(c.value))], c.name)
    }

    /** `add_row` for each call in turn. */
    function Run(calls: seq<RowCall>): TableState
    {
      if calls == [] then this else Run(calls[..|calls| - 1]).Add(calls[|calls| - 1])
    }
  }

  /** The name of the last call in `calls` with a currency, or the initial empty name. */
  function PrevName(calls: seq<RowCall>): string
  {
    if calls == [] then ""
    else if calls[|calls| - 1].ccy.Some? then calls[|calls| - 1].name
    else PrevName(calls[..|calls| - 1])
  }

  /** The table row of call `c` when `prev` is the name of the previous row with a currency:
    * a null currency shows the name and two empty cells, otherwise the name is blank when it
    * repeats `prev`. */
  function RowFor(c: RowCall, prev: string): (r: TableRow)
    ensures c.ccy.None? ==> r == Row(c.name, "", None)
    ensures c.ccy.Some? ==> r.Row? && r.ccy == c.ccy.value && r.balance == Some(c.value)
    ensures c.ccy.Some? ==> (r.name == "" <==> c.name == "" || c.name == prev)
    ensures c.ccy.Some? && c.name != prev ==> r.name == c.name
  {
    if c.ccy.None? then Row(c.name, "", None) else Row(if prev == c.name then "" else c.name, c.ccy.value, Some(c.value))
  }

  /** The rows a fresh table holds after the calls: row `j` is `RowFor(calls[j], ...)` with the
    * name of the last earlier row that had a currency. */
  function TableRows(calls: seq<RowCall>): (rows: seq<TableRow>)
    ensures |rows| == |calls|
    ensures forall j :: 0 <= j < |calls| ==> rows[j] == RowFor(calls[j], PrevName(calls[..j]))
  {
    seq(|calls|, j requires 0 <= j < |calls| => RowFor(calls[j], PrevName(calls[..j])))
  }

  /** Feeding calls to a table whose `last_name` is still empty appends exactly
    * `TableRows(calls)` and leaves `last_name` at the last name shown with a currency. */
  lemma {:induction false} RunRows(table: seq<TableRow>, calls: seq<RowCall>)
    ensures TableState(table, "").Run(calls) == TableState(table + TableRows(calls), PrevName(calls))
  {
    if calls != [] {
      var init := calls[..|calls| - 1];
      RunRows(table, init);
      TableRowsSnoc(calls);
      assert table + TableRows(calls) == table + TableRows(init) + [RowFor(calls[|calls| - 1], PrevName(init))];
    }
  }

  /** The rows of one more call are the earlier rows and its own. */
  lemma {:induction false} TableRowsSnoc(calls: seq<RowCall>)
    requires calls != []
    ensures TableRows(calls) == TableRows(calls[..|calls| - 1]) + [RowFor(calls[|calls| - 1], PrevName(calls[..|calls| - 1]))]
  {
    var init := calls[..|calls| - 1];
    var a := TableRows(calls);
    var b := TableRows(init) + [RowFor(calls[|calls| - 1], PrevName(init))];
    forall j | 0 <= j < |calls|
      ensures a[j] == b[j]
    {
      if j < |init| {
        assert calls[..j] == init[..j];
      } else {
        assert calls[..j] == init;
      }
    }
    assert a == b;
  }

  /** `BrokerTable`: the table it fills and the name of the last row it printed with a
    * currency. */
  class BrokerTable {
    var table: seq<TableRow>
    var lastName: string

    function State(): TableState
      reads this
    {
      TableState(table, lastName)
    }

    /** `BrokerTable(o)`: an empty table and an empty `last_name`. */
    constructor()
      ensures table == [] && lastName == ""
    {
      table := [];
      lastName := "";
    }

    /** `add_headers(cols)`: the header row. */
    method AddHeaders(cols: seq<string>)
      modifies this
      ensures table == old(table) + [HeaderRow(cols)] && lastName == old(lastName)
    {
      table := table + [HeaderRow(cols)];
    }

    /** `add_row(name, ccy, value)`. */
    method AddRow(name: string, ccy: Option<string>, value: real)
      modifies this
      ensures State() == old(State()).Add(Call(name, ccy, value))
    {
      if ccy.None? {
        table := table + [Row(name, "", None)];
      } else {
        table := table + [Row(if lastName == name then "" else name, ccy.value, Some(value))];
        lastName := name;
      }
    }
  }

  /** `list_broker(out)` up to the final output call: the header row, then `TableRows` of the calls of
    * `list`. */
  method ListBrokerTable(all: AllBrokers) returns (rows: seq<TableRow>)
    requires Spans(all.firstBroker, all.num) && BrokersShape(Range(all.firstBroker, all.num))
    ensures rows == [HeaderRow(HEADERS)] + TableRows(ListRows(Range(all.firstBroker, all.num)))
  {
    var t := new BrokerTable();
    var headers, calls := List(all);
    t.AddHeaders(headers);
    var j := 0;
    while j < |calls|
      invariant 0 <= j <= |calls|
      invariant t.State() == TableState([HeaderRow(HEADERS)], "").Run(calls[..j])
    {
      assert calls[..j + 1][..j] == calls[..j];
      t.AddRow(calls[j].name, calls[j].ccy, calls[j].value);
      j := j + 1;
    }
    assert calls[..j] == calls;
    RunRows([HeaderRow(HEADERS)], calls);
    rows := t.table;
  }

  /** A line `BrokerCsv::add_row` writes: name, currency and the balance in fixed notation. */
  datatype CsvLine = CsvLine(name: string, ccy: string, value: real)

  /** `BrokerCsv::add_row`: nothing for a null currency or a zero balance. */
  function CsvRow(c: RowCall): (l: Option<CsvLine>)
    ensures l.Some? <==> c.ccy.Some? && c.value != 0.0
    ensures l.Some? ==> l.value == CsvLine(c.name, c.ccy.value, c.value)
  {
    if c.ccy.None? || c.value == 0.0 then None else Some(CsvLine(c.name, c.ccy.value, c.value))
  }

  /** The data lines `BrokerCsv` writes for the calls, in order. */
  function CsvLines(calls: seq<RowCall>): seq<CsvLine>
  {
    if calls == [] then []
    else
      var l := CsvRow(calls[|calls| - 1]);
      CsvLines(calls[..|calls| - 1]) + if l.Some? then [l.value] else []
  }

  /** A CSV line is written exactly for a call with that name, currency and a non-zero
    * balance. */
  lemma {:induction false} CsvLinesMembers(calls: seq<RowCall>, n: string, ccy: string, v: real)
    ensures CsvLine(n, ccy, v) in CsvLines(calls) <==> v != 0.0 && Call(n, Some(ccy), v) in calls
  {
    if calls != [] {
      var init := calls[..|calls| - 1];
      CsvLinesMembers(init, n, ccy, v);
      assert calls == init + [calls[|calls| - 1]];
    }
  }

  /** The header line of `BrokerCsv::add_headers`: every column followed by a comma. */
  function CsvHeader(cols: seq<string>): string
  {
    if cols == [] then "" else CsvHeader(cols[..|cols| - 1]) + cols[|cols| - 1] + ","
  }

  /** A broker without cash balances gets a row with its name and no currency in the table,
    * and no line at all in the CSV. */
  lemma EmptyBrokerRows(b: Broker, prev: string)
    requires Spans(b.Head(), b.Size()) && b.num == 0
    ensures TableRows(BrokerRows(b)) == [Row(b.name, "", None)]
    ensures CsvLines(BrokerRows(b)) == []
  {
    var r := BrokerRows(b);
    assert r[..0] == [];
    assert CsvLines(r) == CsvLines(r[..0]) + [];
  }
}
