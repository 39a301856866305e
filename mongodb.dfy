/** The MongoDB data-access class `MongoDbDao` of cloud-src/mongodb.cc: how it reads values
  * out of BSON documents, the instrument filter, the broker filter on transactions, the
  * asset-class ratio table, the loop over the instrument cursor and the update documents
  * of `add_tx` and `update_cash`. The driver's documents are values; what the server
  * returns for a query is an input sequence of documents. */
module MongoDao {
  import opened Wrappers
  import PB = PortfolioBuilder

  const DB_NAME: string := "urph-fin"
  const BROKER_COLLECTION: string := "broker"
  const INSTRUMENT_COLLECTION: string := "instrument"

  /** `ASSET_CLASS_RATIO_NAMES`: the slot of each asset class in `asset_class_ratio`. */
  const ASSET_CLASS_RATIO_NAMES: seq<string> := ["stock", "bond", "metal", "cash"]

  /** The stock-allocator size `get_stock_portfolio` starts with before the count is known. */
  const STOCK_ALLOC_GUESS: nat := 10

  /** The driver's exceptions: reading an absent element, or reading an element as a type
    * it does not hold. The texts stand for the driver's own messages. */
  const UNSET_ELEMENT: string := "unset document::element"
  const WRONG_TYPE: string := "expected element type"

  /** A BSON value, as far as the code looks at it. */
  datatype Bson =
    | BInt32(i: int)
    | BInt64(i: int)
    | BDouble(d: real)
    | BString(s: string)
    | BDoc(fields: seq<(string, Bson)>)
    | BArray(elems: seq<Bson>)
    | BOther

  /** A document: its fields in stored order. */
  type Doc = seq<(string, Bson)>

  /** `doc[key]`: the first field named `key`; `None` is the invalid element the driver
    * returns for an absent key. */
  function Find(doc: Doc, key: string): Option<Bson>
  {
    if doc == [] then None
    else if doc[0].0 == key then Some(doc[0].1)
    else Find(doc[1..], key)
  }

  /** `doc[key]` is valid exactly when some field is named `key`, and it is the value of
    * the first such field. */
  lemma {:induction false} FindSpec(doc: Doc, key: string)
    ensures Find(doc, key).Some? <==> exists i :: 0 <= i < |doc| && doc[i].0 == key
    ensures Find(doc, key).Some? ==> exists i :: 0 <= i < |doc| && doc[i] == (key, Find(doc, key).value) &&
                                                 forall j :: 0 <= j < i ==> doc[j].0 != key
  {
    if doc != [] && doc[0].0 != key {
      FindSpec(doc[1..], key);
      if Find(doc, key).Some? {
        var i :| 0 <= i < |doc[1..]| && doc[1..][i] == (key, Find(doc, key).value) &&
                 forall j :: 0 <= j < i ==> doc[1..][j].0 != key;
        assert doc[i + 1] == (key, Find(doc, key).value);
        assert forall j :: 0 <= j < i + 1 ==> doc[j].0 != key by {
          forall j | 0 <= j < i + 1
            ensures doc[j].0 != key
          {
            if j > 0 {
              assert doc[j] == doc[1..][j - 1];
            }
          }
        }
      } else {
        assert forall i :: 1 <= i < |doc| ==> doc[i] == doc[1..][i - 1];
      }
    }
  }

  /** `(int32_t)d`, `(timestamp)d`: truncation toward zero. */
  function TruncToZero(d: real): (r: int)
    ensures d >= 0.0 ==> 0 <= r && r as real <= d < r as real + 1.0
    ensures d < 0.0 ==> r <= 0 && r as real - 1.0 < d <= r as real
  {
    if d >= 0.0 then d.Floor else -((-d).Floor)
  }

  /** `get_string().value`. */
  function GetString(e: Option<Bson>): (r: Result<string>)
    ensures r.Ok? <==> e.Some? && e.value.BString?
    ensures r.Ok? ==> e == Some(BString(r.value))
  {
    match e
    case None => Err(UNSET_ELEMENT)
    case Some(BString(s)) => Ok(s)
    case Some(_) => Err(WRONG_TYPE)
  }

  /** `get_document().view()`. */
  function GetDocument(e: Option<Bson>): (r: Result<Doc>)
    ensures r.Ok? <==> e.Some? && e.value.BDoc?
    ensures r.Ok? ==> e == Some(BDoc(r.value))
  {
    match e
    case None => Err(UNSET_ELEMENT)
    case Some(BDoc(f)) => Ok(f)
    case Some(_) => Err(WRONG_TYPE)
  }

  /** `safe_get_double(e)`: an int32 is converted, anything else is read as a double; so it
    * reads exactly the int32 and double values, and an int32 exactly. */
  function SafeGetDouble(e: Option<Bson>): (r: Result<real>)
    ensures r.Ok? <==> e.Some? && (e.value.BInt32? || e.value.BDouble?)
    ensures r.Ok? && e.value.BInt32? ==> r.value == e.value.i as real
  {
    match e
    case None => Err(UNSET_ELEMENT)
    case Some(BInt32(i)) => Ok(i as real)
    case Some(BDouble(d)) => Ok(d)
    case Some(_) => Err(WRONG_TYPE)
  }

  /** `safe_get_int32(e)`: an int32 is kept, anything else is read as a double and
    * truncated; so it reads the same values as `safe_get_double`, truncated toward zero. */
  function SafeGetInt32(e: Option<Bson>): (r: Result<int>)
    ensures r.Ok? <==> SafeGetDouble(e).Ok?
    ensures r.Ok? ==> r.value == TruncToZero(SafeGetDouble(e).value)
    ensures r.Ok? && e.value.BInt32? ==> r.value == e.value.i
  {
    match e
    case None => Err(UNSET_ELEMENT)
    case Some(BInt32(i)) => Ok(i)
    case Some(BDouble(d)) => Ok(TruncToZero(d))
    case Some(_) => Err(WRONG_TYPE)
  }

  /** `safe_get_timestamp(e)`: agrees with `safe_get_int32` wherever that one reads, also
    * reads an int64 as is, and is 0 for every other type instead of throwing; only an
    * absent element throws. */
  function SafeGetTimestamp(e: Option<Bson>): (r: Result<int>)
    ensures r.Err? <==> e.None?
    ensures SafeGetInt32(e).Ok? ==> r == SafeGetInt32(e)
    ensures e.Some? && e.value.BInt64? ==> r == Ok(e.value.i)
    ensures e.Some? && !e.value.BInt32? && !e.value.BInt64? && !e.value.BDouble? ==> r == Ok(0)
  {
    match e
    case None => Err(UNSET_ELEMENT)
    case Some(BDouble(d)) => Ok(TruncToZero(d))
    case Some(BInt32(i)) => Ok(i)
    case Some(BInt64(i)) => Ok(i)
    case Some(_) => Ok(0)
  }

  /** `MV_STR(p)`: a null C string becomes the empty string. */
  function MvStr(p: Option<string>): (r: string)
    ensures r == "" <==> p.None? || p.value == ""
    ensures p.Some? ==> r == p.value
  {
    if p.None? then "" else p.value
  }

  /** The instrument filter: `type` in `types`, and `name` equal to `name` when present. */
  datatype InstrumentFilter = InstrumentFilter(types: seq<string>, name: Option<string>)

  /** The filter `get_instrument_tx` builds: funds, or stocks and ETFs; a name condition
    * exactly when the symbol is non-empty. */
  function FilterOf(isFund: bool, symbol: string): (f: InstrumentFilter)
    ensures f.types == if isFund then ["Funds"] else ["Stock", "ETF"]
    ensures f.name.Some? <==> symbol != ""
    ensures f.name.Some? ==> f.name.value == symbol
  {
    InstrumentFilter(if isFund then ["Funds"] else ["Stock", "ETF"], if symbol == "" then None else Some(symbol))
  }

  /** Whether the server returns `doc` for `f`. */
  predicate Matches(f: InstrumentFilter, doc: Doc)
  {
    && (exists k :: 0 <= k < |f.types| && Find(doc, "type") == Some(BString(f.types[k])))
    && (f.name.Some? ==> Find(doc, "name") == Some(BString(f.name.value)))
  }

  /** The documents of `collection` that match `f`, in collection order. */
  function Matching(f: InstrumentFilter, collection: seq<Doc>): (r: seq<Doc>)
    ensures forall d :: d in r <==> d in collection && Matches(f, d)
  {
    if collection == [] then []
    else (if Matches(f, collection[0]) then [collection[0]] else []) + Matching(f, collection[1..])
  }

  /** What the filter of `get_instrument_tx` lets through: exactly the instruments of the
    * requested kind, and of the requested name when one is given; a null symbol and an
    * empty one filter alike. */
  lemma FilterSelects(isFund: bool, symbol: Option<string>, doc: Doc)
    ensures var t := Find(doc, "type");
      Matches(FilterOf(isFund, MvStr(symbol)), doc) <==>
        && (if isFund then t == Some(BString("Funds")) else t == Some(BString("Stock")) || t == Some(BString("ETF")))
        && (MvStr(symbol) != "" ==> Find(doc, "name") == Some(BString(MvStr(symbol))))
    ensures MvStr(None) == MvStr(Some(""))
  {
    var f := FilterOf(isFund, MvStr(symbol));
    var t := Find(doc, "type");
    if !isFund && (t == Some(BString("Stock")) || t == Some(BString("ETF"))) {
      if t == Some(BString("Stock")) {
        assert t == Some(BString(f.types[0]));
      } else {
        assert t == Some(BString(f.types[1]));
      }
    }
    if isFund && t == Some(BString("Funds")) {
      assert t == Some(BString(f.types[0]));
    }
  }

  /** `expected_broker(tx)`: an empty broker accepts every transaction without looking at
    * it; otherwise the transaction's `broker` string must equal it, and a missing or
    * non-string `broker` throws. */
  function ExpectedBroker(broker: string, tx: Doc): (r: Result<bool>)
    ensures broker == "" ==> r == Ok(true)
    ensures broker != "" ==> (r.Ok? <==> GetString(Find(tx, "broker")).Ok?)
    ensures broker != "" && r.Ok? ==> (r.value <==> Find(tx, "broker") == Some(BString(broker)))
  {
    if broker == "" then Ok(true)
    else
      match GetString(Find(tx, "broker"))
      case Ok(b) => Ok(broker == b)
      case Err(e) => Err(e)
  }

  /** `onTx(context, my_symbol, class_ratio, tx)`; `Err` is an exception it throws. */
  type OnTx<!S> = (S, string, seq<real>, Doc) -> Result<S>

  /** One transaction sub-document: read as a document, passed through the broker filter,
    * then handed to `onTx`. */
  function TxStep<S>(broker: string, sym: string, ratio: seq<real>, s: S, o: Bson, onTx: OnTx<S>): Result<S>
  {
    match GetDocument(Some(o))
    case Err(e) => Err(e)
    case Ok(v) =>
      match ExpectedBroker(broker, v)
      case Err(e) => Err(e)
      case Ok(accepted) => if accepted then onTx(s, sym, ratio, v) else Ok(s)
  }

  /** The array loop of `process_tx_obj` from element `j`: the state and the exception that
    * ended it, if any. */
  function TxArrayFold<S>(broker: string, sym: string, ratio: seq<real>, s: S, elems: seq<Bson>, j: nat,
                          onTx: OnTx<S>): (S, Option<string>)
    requires j <= |elems|
    decreases |elems| - j
  {
    if j == |elems| then (s, None)
    else
      match TxStep(broker, sym, ratio, s, elems[j], onTx)
      case Err(e) => (s, Some(e))
      case Ok(s1) => TxArrayFold(broker, sym, ratio, s1, elems, j + 1, onTx)
  }

  /** `process_tx_obj(my_symbol, tx_obj)`: an array passes each element through the broker
    * filter in turn, anything else is one transaction document; an exception is caught and
    * logged, ending the call with the state reached so far. */
  function ProcessTxObjSpec<S>(broker: string, sym: string, ratio: seq<real>, s: S, txObj: Option<Bson>,
                               onTx: OnTx<S>): (S, Option<string>)
  {
    match txObj
    case None => (s, Some(UNSET_ELEMENT))
    case Some(BArray(elems)) => TxArrayFold(broker, sym, ratio, s, elems, 0, onTx)
    case Some(o) =>
      match TxStep(broker, sym, ratio, s, o, onTx)
      case Err(e) => (s, Some(e))
      case Ok(s1) => (s1, None)
  }

  /** `process_tx_obj` as the loop it is: the state it leaves and the exception it caught. */
  method ProcessTxObj<S>(broker: string, sym: string, ratio: seq<real>, s0: S, txObj: Option<Bson>, onTx: OnTx<S>)
    returns (s: S, caught: Option<string>)
    ensures (s, caught) == ProcessTxObjSpec(broker, sym, ratio, s0, txObj, onTx)
  {
    if txObj.Some? && txObj.value.BArray? {
      var elems := txObj.value.elems;
      s, caught := s0, None;
      var j := 0;
      while j < |elems|
        invariant 0 <= j <= |elems|
        invariant TxArrayFold(broker, sym, ratio, s, elems, j, onTx) == TxArrayFold(broker, sym, ratio, s0, elems, 0, onTx)
      {
        var r := TxStep(broker, sym, ratio, s, elems[j], onTx);
        if r.Err? {
          caught := Some(r.message);
          return;
        }
        s := r.value;
        j := j + 1;
      }
    } else {
      var r := ProcessTxObjSpec(broker, sym, ratio, s0, txObj, onTx);
      s, caught := r.0, r.1;
    }
  }

  /** A transaction whose broker the filter can read: a document with a string `broker`,
    * or any document when no broker is asked for. */
  predicate ReadableTx(broker: string, o: Bson)
  {
    o.BDoc? && (broker == "" || GetString(Find(o.fields, "broker")).Ok?)
  }

  /** Whether the broker filter accepts a readable transaction. */
  predicate Accepted(broker: string, o: Bson)
    requires ReadableTx(broker, o)
  {
    broker == "" || Find(o.fields, "broker") == Some(BString(broker))
  }

  /** The readable transactions the filter accepts, in order. */
  function AcceptedDocs(broker: string, elems: seq<Bson>): (r: seq<Doc>)
    requires forall k :: 0 <= k < |elems| ==> ReadableTx(broker, elems[k])
    ensures |r| <= |elems|
  {
    if elems == [] then []
    else (if Accepted(broker, elems[0]) then [elems[0].fields] else []) + AcceptedDocs(broker, elems[1..])
  }

  /** A transaction handler that records each document it is given. */
  function RecordTx(): OnTx<seq<Doc>>
  {
    (log: seq<Doc>, sym: string, ratio: seq<real>, v: Doc) => Ok(log + [v])
  }

  lemma {:induction false} TxArrayFilters(broker: string, sym: string, ratio: seq<real>, log: seq<Doc>,
                                          elems: seq<Bson>, j: nat)
    requires j <= |elems|
    requires forall k :: 0 <= k < |elems| ==> ReadableTx(broker, elems[k])
    ensures TxArrayFold(broker, sym, ratio, log, elems, j, RecordTx()) == (log + AcceptedDocs(broker, elems[j..]), None)
    decreases |elems| - j
  {
    if j == |elems| {
      assert elems[j..] == [] && log + [] == log;
    } else {
      var o := elems[j];
      assert ReadableTx(broker, o);
      var log1 := if Accepted(broker, o) then log + [o.fields] else log;
      assert TxStep(broker, sym, ratio, log, o, RecordTx()) == Ok(log1);
      assert TxArrayFold(broker, sym, ratio, log, elems, j, RecordTx()) == TxArrayFold(broker, sym, ratio, log1, elems, j + 1, RecordTx());
      TxArrayFilters(broker, sym, ratio, log1, elems, j + 1);
      var here: seq<Doc> := if Accepted(broker, o) then [o.fields] else [];
      assert log1 == log + here;
      assert elems[j..][0] == o && elems[j..][1..] == elems[j + 1..];
      assert AcceptedDocs(broker, elems[j..]) == here + AcceptedDocs(broker, elems[j + 1..]);
      assert log1 + AcceptedDocs(broker, elems[j + 1..]) == log + AcceptedDocs(broker, elems[j..]);
    }
  }

  /** `process_tx_obj` hands `onTx` exactly the transactions the broker filter accepts, in
    * order: every element of an array, or the one document. */
  lemma ProcessTxFilters(broker: string, sym: string, ratio: seq<real>, log: seq<Doc>, o: Bson)
    requires o.BArray? ==> forall k :: 0 <= k < |o.elems| ==> ReadableTx(broker, o.elems[k])
    requires !o.BArray? ==> ReadableTx(broker, o)
    ensures o.BArray? ==> ProcessTxObjSpec(broker, sym, ratio, log, Some(o), RecordTx()) == (log + AcceptedDocs(broker, o.elems), None)
    ensures !o.BArray? ==>
      ProcessTxObjSpec(broker, sym, ratio, log, Some(o), RecordTx()) == (if Accepted(broker, o) then log + [o.fields] else log, None)
  {
    if o.BArray? {
      TxArrayFilters(broker, sym, ratio, log, o.elems, 0);
      assert o.elems[0..] == o.elems;
    }
  }

  /** The value `get_ratio` puts in the slot of `name`: 0 for an absent name. */
  function RatioValue(assetClass: Doc, name: string): (r: Result<real>)
    ensures Find(assetClass, name).None? ==> r == Ok(0.0)
    ensures Find(assetClass, name).Some? ==> r == SafeGetDouble(Find(assetClass, name))
  {
    var f := Find(assetClass, name);
    if f.None? then Ok(0.0) else SafeGetDouble(f)
  }

  function RatiosFrom(assetClass: Doc, i: nat): (r: Result<seq<real>>)
    requires i <= 4
    ensures r.Ok? <==> forall k :: i <= k < 4 ==> RatioValue(assetClass, ASSET_CLASS_RATIO_NAMES[k]).Ok?
    ensures r.Ok? ==> |r.value| == 4 - i
    ensures r.Ok? ==> forall k :: i <= k < 4 ==> r.value[k - i] == RatioValue(assetClass, ASSET_CLASS_RATIO_NAMES[k]).value
    decreases 4 - i
  {
    if i == 4 then Ok([])
    else
      match RatioValue(assetClass, ASSET_CLASS_RATIO_NAMES[i])
      case Err(e) => Err(e)
      case Ok(v) =>
        match RatiosFrom(assetClass, i + 1)
        case Err(e) => Err(e)
        case Ok(rest) => Ok([v] + rest)
  }

  /** The ratios `get_ratio` computes: slot `k` gets the value of the `k`-th asset-class
    * name, 0 when it is absent; the whole reads only if every present one is a number. */
  function RatioOf(assetClass: Doc): (r: Result<seq<real>>)
    ensures r.Ok? <==> forall k :: 0 <= k < 4 ==> RatioValue(assetClass, ASSET_CLASS_RATIO_NAMES[k]).Ok?
    ensures r.Ok? ==> |r.value| == 4
    ensures r.Ok? ==> forall k :: 0 <= k < 4 ==> r.value[k] == RatioValue(assetClass, ASSET_CLASS_RATIO_NAMES[k]).value
  {
    RatiosFrom(assetClass, 0)
  }

  /** `get_ratio(doc)` on the `asset_class` document: sets slots 0..3 in order, and stops
    * at the first value `safe_get_double` cannot read, with the slots before it set and
    * the rest unchanged. */
  method GetRatio(assetClass: Doc, ratio: array<real>) returns (error: Option<string>)
    requires ratio.Length == 4
    modifies ratio
    ensures error.None? <==> RatioOf(assetClass).Ok?
    ensures error.None? ==> ratio[..] == RatioOf(assetClass).value
    ensures error.Some? ==>
      exists k :: (0 <= k < 4
        && RatioValue(assetClass, ASSET_CLASS_RATIO_NAMES[k]) == Err(error.value)
        && (forall i :: 0 <= i < k ==> RatioValue(assetClass, ASSET_CLASS_RATIO_NAMES[i]) == Ok(ratio[i]))
        && (forall i :: k <= i < 4 ==> ratio[i] == old(ratio[i])))
  {
    var i := 0;
    while i < 4
      invariant 0 <= i <= 4
      invariant forall k :: 0 <= k < i ==> RatioValue(assetClass, ASSET_CLASS_RATIO_NAMES[k]) == Ok(ratio[k])
      invariant forall k :: i <= k < 4 ==> ratio[k] == old(ratio[k])
    {
      var v := RatioValue(assetClass, ASSET_CLASS_RATIO_NAMES[i]);
      if v.Err? {
        error := Some(v.message);
        assert !RatioOf(assetClass).Ok?;
        return;
      }
      ratio[i] := v.value;
      i := i + 1;
    }
    error := None;
    assert ratio[..] == RatioOf(assetClass).value;
  }

  /** `onInstrument(context, my_symbol, ccy, class_ratio, tx_num)`. */
  type OnInstrument<!S> = (S, string, string, seq<real>, nat) -> Result<S>

  /** What the loop reads from one instrument before its transactions: the ratios of its
    * `asset_class`, its `tx` document (absent or not), its `name` and its `ccy`. */
  datatype Head = Head(ratio: seq<real>, tx: Option<Doc>, name: string, ccy: string)
  {
    /** `tx_num`: the number of entries of `tx`, 0 without one. */
    function TxNum(): nat { if tx.None? then 0 else |tx.value| }
  }

  function HeadOf(doc: Doc): Result<Head>
  {
    match GetDocument(Find(doc, "asset_class"))
    case Err(e) => Err(e)
    case Ok(ac) =>
      match RatioOf(ac)
      case Err(e) => Err(e)
      case Ok(ratio) =>
        var txField := Find(doc, "tx");
        match (if txField.None? then Ok(None) else (match GetDocument(txField) case Ok(t) => Ok(Some(t)) case Err(e) => Err(e)))
        case Err(e) => Err(e)
        case Ok(tx) =>
          match GetString(Find(doc, "name"))
          case Err(e) => Err(e)
          case Ok(name) =>
            match GetString(Find(doc, "ccy"))
            case Err(e) => Err(e)
            case Ok(ccy) => Ok(Head(ratio, tx, name, ccy))
  }

  /** The loop over the entries of a `tx` document from entry `j`: each goes through
    * `process_tx_obj`, whose exceptions are caught. */
  function TxEntriesFold<S>(broker: string, sym: string, ratio: seq<real>, s: S, entries: Doc, j: nat,
                            onTx: OnTx<S>): S
    requires j <= |entries|
    decreases |entries| - j
  {
    if j == |entries| then s
    else TxEntriesFold(broker, sym, ratio, ProcessTxObjSpec(broker, sym, ratio, s, Some(entries[j].1), onTx).0, entries, j + 1, onTx)
  }

  /** Where a job stands: the state its context has reached, and the exception that ended
    * it, if one did. The calls made on the context before an exception stay made. */
  datatype Outcome<S> = Outcome(state: S, error: Option<string>)

  /** One document of the cursor loop: its head, `onInstrument`, and, unless `ignoreTx` or
    * `tx_num == 0`, its transaction entries. An exception outside `process_tx_obj` ends
    * the whole job; a callback that throws is taken to throw before it changes the
    * context. */
  function CursorStep<S>(broker: string, ignoreTx: bool, s: S, doc: Doc, onInstrument: OnInstrument<S>,
                         onTx: OnTx<S>): (r: Outcome<S>)
    ensures r.error.Some? ==> r.state == s
    ensures r.error.None? <==> HeadOf(doc).Ok? && onInstrument(s, HeadOf(doc).value.name, HeadOf(doc).value.ccy,
                                                               HeadOf(doc).value.ratio, HeadOf(doc).value.TxNum()).Ok?
  {
    match HeadOf(doc)
    case Err(e) => Outcome(s, Some(e))
    case Ok(h) =>
      match onInstrument(s, h.name, h.ccy, h.ratio, h.TxNum())
      case Err(e) => Outcome(s, Some(e))
      case Ok(s1) =>
        if ignoreTx || h.TxNum() == 0 then Outcome(s1, None)
        else Outcome(TxEntriesFold(broker, h.name, h.ratio, s1, h.tx.value, 0, onTx), None)
  }

  /** The cursor loop from document `j`: every document in turn, until one throws. */
  function CursorFold<S>(broker: string, ignoreTx: bool, s: S, docs: seq<Doc>, j: nat,
                         onInstrument: OnInstrument<S>, onTx: OnTx<S>): Outcome<S>
    requires j <= |docs|
    decreases |docs| - j
  {
    if j == |docs| then Outcome(s, None)
    else
      var o := CursorStep(broker, ignoreTx, s, docs[j], onInstrument, onTx);
      if o.error.Some? then o else CursorFold(broker, ignoreTx, o.state, docs, j + 1, onInstrument, onTx)
  }

  /** The `find_one` branch for one transaction date: the instrument found, then only its
    * `tx` entry for that date. Reading `tx` comes after `onInstrument`, so an instrument
    * without one throws with `onInstrument`'s calls made. */
  function DateStep<S>(broker: string, txDate: string, s: S, doc: Doc, onInstrument: OnInstrument<S>,
                       onTx: OnTx<S>): Outcome<S>
  {
    match HeadOf(doc)
    case Err(e) => Outcome(s, Some(e))
    case Ok(h) =>
      match onInstrument(s, h.name, h.ccy, h.ratio, h.TxNum())
      case Err(e) => Outcome(s, Some(e))
      case Ok(s1) =>
        match GetDocument(Find(doc, "tx"))
        case Err(e) => Outcome(s1, Some(e))
        case Ok(tx) => Outcome(ProcessTxObjSpec(broker, h.name, h.ratio, s1, Find(tx, txDate), onTx).0, None)
  }

  /** `get_instrument_tx(context, is_fund, symbol, broker, tx_date, ...)` on the instrument
    * collection `collection`: the state the context reaches, and the exception that ended
    * the job before `onFinish`, if one did. */
  function InstrumentTx<S>(collection: seq<Doc>, isFund: bool, symbol: Option<string>, broker: Option<string>,
                           txDate: Option<string>, ignoreTx: bool, s0: S, onInstrument: OnInstrument<S>,
                           onTx: OnTx<S>): Outcome<S>
  {
    var docs := Matching(FilterOf(isFund, MvStr(symbol)), collection);
    if MvStr(txDate) != "" then
      if docs == [] then Outcome(s0, None) else DateStep(MvStr(broker), MvStr(txDate), s0, docs[0], onInstrument, onTx)
    else CursorFold(MvStr(broker), ignoreTx, s0, docs, 0, onInstrument, onTx)
  }

  /** An exception on document `k` ends the loop with exactly the state the documents
    * before it reached: what they did on the context stays done, and nothing after `k`
    * runs. */
  lemma {:induction false} ExceptionKeepsEarlierDocuments<S>(broker: string, ignoreTx: bool, s: S, docs: seq<Doc>,
                                                             j: nat, k: nat, onInstrument: OnInstrument<S>, onTx: OnTx<S>)
    requires j <= k < |docs|
    requires CursorFold(broker, ignoreTx, s, docs[..k], j, onInstrument, onTx).error.None?
    requires CursorStep(broker, ignoreTx, CursorFold(broker, ignoreTx, s, docs[..k], j, onInstrument, onTx).state,
                        docs[k], onInstrument, onTx).error.Some?
    ensures var before := CursorFold(broker, ignoreTx, s, docs[..k], j, onInstrument, onTx).state;
      CursorFold(broker, ignoreTx, s, docs, j, onInstrument, onTx) ==
        Outcome(before, CursorStep(broker, ignoreTx, before, docs[k], onInstrument, onTx).error)
    decreases k - j
  {
    if j < k {
      assert docs[..k][j] == docs[j];
      var o := CursorStep(broker, ignoreTx, s, docs[j], onInstrument, onTx);
      ExceptionKeepsEarlierDocuments(broker, ignoreTx, o.state, docs, j + 1, k, onInstrument, onTx);
    }
  }

  /** The entry loop of one instrument: every entry through `process_tx_obj`. */
  method TxEntries<S>(broker: string, sym: string, ratio: seq<real>, s0: S, entries: Doc, onTx: OnTx<S>)
    returns (s: S)
    ensures s == TxEntriesFold(broker, sym, ratio, s0, entries, 0, onTx)
  {
    s := s0;
    var k := 0;
    while k < |entries|
      invariant 0 <= k <= |entries|
      invariant TxEntriesFold(broker, sym, ratio, s, entries, k, onTx) == TxEntriesFold(broker, sym, ratio, s0, entries, 0, onTx)
    {
      var caught;
      s, caught := ProcessTxObj(broker, sym, ratio, s, Some(entries[k].1), onTx);
      k := k + 1;
    }
  }

  /** One document of the cursor loop, with `class_ratio` shared between documents. */
  method CursorDoc<S>(broker: string, ignoreTx: bool, s0: S, doc: Doc, classRatio: array<real>,
                      onInstrument: OnInstrument<S>, onTx: OnTx<S>)
    returns (s: S, error: Option<string>)
    requires classRatio.Length == 4
    modifies classRatio
    ensures CursorStep(broker, ignoreTx, s0, doc, onInstrument, onTx) == Outcome(s, error)
  {
    s := s0;
    var ac := GetDocument(Find(doc, "asset_class"));
    if ac.Err? {
      error := Some(ac.message);
      return;
    }
    error := GetRatio(ac.value, classRatio);
    if error.Some? {
      return;
    }
    var h := HeadOf(doc);
    if h.Err? {
      error := Some(h.message);
      return;
    }
    assert h.value.ratio == classRatio[..];
    var r := onInstrument(s0, h.value.name, h.value.ccy, classRatio[..], h.value.TxNum());
    if r.Err? {
      error := Some(r.message);
      return;
    }
    s := r.value;
    if !(ignoreTx || h.value.TxNum() == 0) {
      s := TxEntries(broker, h.value.name, classRatio[..], s, h.value.tx.value, onTx);
    }
  }

  /** `get_instrument_tx` as the loops it runs: the filter it sends, the state the context
    * reaches and the exception that ended the job, if one did. */
  method GetInstrumentTx<S>(collection: seq<Doc>, isFund: bool, symbol: Option<string>, broker: Option<string>,
                            txDate: Option<string>, ignoreTx: bool, s0: S, onInstrument: OnInstrument<S>,
                            onTx: OnTx<S>)
    returns (filter: InstrumentFilter, s: S, error: Option<string>)
    ensures filter == FilterOf(isFund, MvStr(symbol))
    ensures InstrumentTx(collection, isFund, symbol, broker, txDate, ignoreTx, s0, onInstrument, onTx) == Outcome(s, error)
  {
    filter := FilterOf(isFund, MvStr(symbol));
    var docs := Matching(filter, collection);
    var b := MvStr(broker);
    s, error := s0, None;
    if MvStr(txDate) != "" {
      if docs != [] {
        var r := DateStep(b, MvStr(txDate), s0, docs[0], onInstrument, onTx);
        s, error := r.state, r.error;
      }
      return;
    }
    s, error := CursorLoop(b, ignoreTx, s0, docs, onInstrument, onTx);
  }

  /** The cursor loop of `get_instrument_tx`: every matching document in turn, until one
    * throws; the state is then the one the earlier documents left. */
  method CursorLoop<S>(b: string, ignoreTx: bool, s0: S, docs: seq<Doc>, onInstrument: OnInstrument<S>,
                       onTx: OnTx<S>)
    returns (s: S, error: Option<string>)
    ensures CursorFold(b, ignoreTx, s0, docs, 0, onInstrument, onTx) == Outcome(s, error)
  {
    s, error := s0, None;
    var classRatio := new real[4](_ => 0.0);
    var j := 0;
    while j < |docs|
      invariant 0 <= j <= |docs| && classRatio.Length == 4 && error.None?
      invariant CursorFold(b, ignoreTx, s, docs, j, onInstrument, onTx) == CursorFold(b, ignoreTx, s0, docs, 0, onInstrument, onTx)
    {
      var s1;
      s1, error := CursorDoc(b, ignoreTx, s, docs[j], classRatio, onInstrument, onTx);
      if error.Some? {
        assert CursorFold(b, ignoreTx, s, docs, j, onInstrument, onTx) == Outcome(s, error);
        return;
      }
      s := s1;
      j := j + 1;
    }
  }

  /** With `ignoreTx` the cursor loop never calls `onTx`: the outcome does not depend on it. */
  lemma {:induction false} IgnoreTxSkipsTransactions<S>(broker: string, s: S, docs: seq<Doc>, j: nat,
                                                        onInstrument: OnInstrument<S>, onTx1: OnTx<S>, onTx2: OnTx<S>)
    requires j <= |docs|
    ensures CursorFold(broker, true, s, docs, j, onInstrument, onTx1) == CursorFold(broker, true, s, docs, j, onInstrument, onTx2)
    decreases |docs| - j
  {
    if j < |docs| {
      var o := CursorStep(broker, true, s, docs[j], onInstrument, onTx1);
      assert o == CursorStep(broker, true, s, docs[j], onInstrument, onTx2);
      if o.error.None? {
        IgnoreTxSkipsTransactions(broker, o.state, docs, j + 1, onInstrument, onTx1, onTx2);
      }
    }
  }

  /** An instrument without transaction entries (no `tx`, or an empty one) is only handed
    * to `onInstrument`, with a count of 0: the step is the one `ignoreTx` takes, whatever
    * the broker and `onTx`. */
  lemma NoEntriesSkipsTransactions<S>(broker: string, ignoreTx: bool, s: S, doc: Doc,
                                      onInstrument: OnInstrument<S>, onTx: OnTx<S>, onTx2: OnTx<S>)
    requires HeadOf(doc).Ok? && HeadOf(doc).value.TxNum() == 0
    ensures CursorStep(broker, ignoreTx, s, doc, onInstrument, onTx) == CursorStep("", true, s, doc, onInstrument, onTx2)
    ensures var h := HeadOf(doc).value;
      var r := onInstrument(s, h.name, h.ccy, h.ratio, 0);
      && (CursorStep(broker, ignoreTx, s, doc, onInstrument, onTx).error.None? <==> r.Ok?)
      && (r.Ok? ==> CursorStep(broker, ignoreTx, s, doc, onInstrument, onTx).state == r.value)
  {
  }

  /** The private `add_tx(b, my_symbol, v)`: the `addTx` arguments read from a transaction
    * document; a "SPLIT" reads neither shares nor fee and passes 0 for both. */
  function ReadTx(v: Doc): (r: Result<PB.TxFields>)
    ensures r.Ok? ==> GetString(Find(v, "type")) == Ok(r.value.kind)
    ensures r.Ok? ==> GetString(Find(v, "broker")) == Ok(r.value.broker)
    ensures r.Ok? ==> SafeGetDouble(Find(v, "price")) == Ok(r.value.price)
    ensures r.Ok? ==> SafeGetTimestamp(Find(v, "date")) == Ok(r.value.date)
    ensures r.Ok? && r.value.kind == "SPLIT" ==> r.value.shares == 0.0 && r.value.fee == 0.0
    ensures r.Ok? && r.value.kind != "SPLIT" ==>
      SafeGetDouble(Find(v, "shares")) == Ok(r.value.shares) && SafeGetDouble(Find(v, "fee")) == Ok(r.value.fee)
  {
    match SafeGetDouble(Find(v, "price"))
    case Err(e) => Err(e)
    case Ok(price) =>
      match SafeGetTimestamp(Find(v, "date"))
      case Err(e) => Err(e)
      case Ok(date) =>
        match GetString(Find(v, "type"))
        case Err(e) => Err(e)
        case Ok(kind) =>
          match GetString(Find(v, "broker"))
          case Err(e) => Err(e)
          case Ok(broker) =>
            if kind == "SPLIT" then Ok(PB.TxFields(broker, kind, price, 0.0, 0.0, date))
            else
              match SafeGetDouble(Find(v, "shares"))
              case Err(e) => Err(e)
              case Ok(shares) =>
                match SafeGetDouble(Find(v, "fee"))
                case Err(e) => Err(e)
                case Ok(fee) => Ok(PB.TxFields(broker, kind, price, shares, fee, date))
  }

  /** A `$set` update of one field path on the document whose `name` is `name`. */
  datatype Update = Update(name: string, path: string, value: Bson)

  /** The transaction sub-document the public `add_tx` stores. */
  function TxDocument(broker: string, symbol: string, shares: real, price: real, fee: real, side: string, date: int): Doc
  {
    [("broker", BString(broker)), ("instrument_id", BString(symbol)), ("date", BInt64(date)),
     ("fee", BDouble(fee)), ("price", BDouble(price)), ("shares", BDouble(shares)), ("type", BString(side))]
  }

  /** `add_tx(broker, symbol, shares, price, fee, side, date, ...)`: on the instrument named
    * `symbol`, sets `"tx." + yyyymmdd` to the transaction; `ymd` is the date of `date`
    * formatted as yyyymmdd. */
  function AddTxUpdate(broker: string, symbol: string, shares: real, price: real, fee: real, side: string,
                       date: int, ymd: string): (u: Update)
    ensures u.name == symbol && u.value == BDoc(TxDocument(broker, symbol, shares, price, fee, side, date))
    ensures SplitPath(u.path) == ("tx", ymd)
  {
    var u := Update(symbol, "tx." + ymd, BDoc(TxDocument(broker, symbol, shares, price, fee, side, date)));
    SplitAtFirstDot("tx", ymd);
    assert "tx." + ymd == "tx" + "." + ymd;
    u
  }

  /** `update_cash(broker, ccy, balance, ...)`: on the broker named `broker`, sets
    * `"cash." + ccy` to the balance. */
  function UpdateCashUpdate(broker: string, ccy: string, balance: real): (u: Update)
    ensures u.name == broker && u.value == BDouble(balance)
    ensures SplitPath(u.path) == ("cash", ccy)
  {
    var u := Update(broker, "cash." + ccy, BDouble(balance));
    SplitAtFirstDot("cash", ccy);
    assert "cash." + ccy == "cash" + "." + ccy;
    u
  }

  /** The field and sub-field a two-level `$set` path names: split at the first dot. */
  function SplitPath(path: string): (string, string)
  {
    if path == [] then ([], [])
    else if path[0] == '.' then ([], path[1..])
    else var r := SplitPath(path[1..]); ([path[0]] + r.0, r.1)
  }

  lemma {:induction false} SplitAtFirstDot(field: string, rest: string)
    requires '.' !in field
    ensures SplitPath(field + "." + rest) == (field, rest)
  {
    if field == [] {
      assert field + "." + rest == ['.'] + rest;
    } else {
      assert '.' !in field[1..];
      SplitAtFirstDot(field[1..], rest);
      assert (field + "." + rest)[1..] == field[1..] + "." + rest;
      assert [field[0]] + field[1..] == field;
    }
  }

  /** The field at `i` is the first named `key`. */
  lemma {:induction false} FindFirst(doc: Doc, key: string, i: nat)
    requires i < |doc| && doc[i].0 == key
    requires forall j :: 0 <= j < i ==> doc[j].0 != key
    ensures Find(doc, key) == Some(doc[i].1)
  {
    if i > 0 {
      assert forall j :: 0 <= j < i - 1 ==> doc[1..][j] == doc[j + 1];
      FindFirst(doc[1..], key, i - 1);
    }
  }

  lemma TxDocumentFields(broker: string, symbol: string, shares: real, price: real, fee: real, side: string, date: int)
    ensures var v := TxDocument(broker, symbol, shares, price, fee, side, date);
      && Find(v, "broker") == Some(BString(broker))
      && Find(v, "date") == Some(BInt64(date))
      && Find(v, "fee") == Some(BDouble(fee))
      && Find(v, "price") == Some(BDouble(price))
      && Find(v, "shares") == Some(BDouble(shares))
      && Find(v, "type") == Some(BString(side))
  {
    var v := TxDocument(broker, symbol, shares, price, fee, side, date);
    FindFirst(v, "broker", 0);
    assert v[0].0 != "date" && v[1].0 != "date" by {
      assert |"broker"| != |"date"| && |"instrument_id"| != |"date"|;
    }
    FindFirst(v, "date", 2);
    assert forall j :: 0 <= j < 3 ==> |v[j].0| != |"fee"|;
    FindFirst(v, "fee", 3);
    assert forall j :: 0 <= j < 4 ==> |v[j].0| != |"price"|;
    FindFirst(v, "price", 4);
    assert v[0].0 != "shares" by {
      assert "broker"[0] != "shares"[0];
    }
    assert forall j :: 1 <= j < 5 ==> |v[j].0| != |"shares"|;
    FindFirst(v, "shares", 5);
    assert v[2].0 != "type" by {
      assert "date"[0] != "type"[0];
    }
    assert forall j :: 0 <= j < 6 && j != 2 ==> |v[j].0| != |"type"|;
    FindFirst(v, "type", 6);
  }

  /** The stored transaction reads back through the private `add_tx` with every field as
    * given, except that a split's shares and fee read as 0. */
  lemma TxDocumentReadsBack(broker: string, symbol: string, shares: real, price: real, fee: real, side: string, date: int)
    ensures ReadTx(TxDocument(broker, symbol, shares, price, fee, side, date)) ==
      Ok(PB.TxFields(broker, side, price, if side == "SPLIT" then 0.0 else shares, if side == "SPLIT" then 0.0 else fee, date))
  {
    TxDocumentFields(broker, symbol, shares, price, fee, side, date);
  }

  /** The calls `get_stock_portfolio` makes on its builder. */
  datatype PortfolioCall =
    | PrepareUnknownTotal(n: nat)
    | AddStock(symbol: string, ccy: string, ratios: seq<real>)
    | PrepareTxAlloc(symbol: string, num: nat)
    | AddTx(symbol: string, tx: PB.TxFields)
    | Complete

  /** Its `onInstrument`: `add_stock(sym, ccy, class_ratio)`, then
    * `prepare_tx_alloc(sym, max_tx_num)`. */
  function PortfolioOnInstrument(): OnInstrument<seq<PortfolioCall>>
  {
    (log: seq<PortfolioCall>, sym: string, ccy: string, ratio: seq<real>, n: nat) =>
      Ok(log + [AddStock(sym, ccy, ratio), PrepareTxAlloc(sym, n)])
  }

  /** Its `onTx`: the private `add_tx`. */
  function PortfolioOnTx(): OnTx<seq<PortfolioCall>>
  {
    (log: seq<PortfolioCall>, sym: string, ratio: seq<real>, v: Doc) =>
      match ReadTx(v)
      case Err(e) => Err(e)
      case Ok(t) => Ok(log + [AddTx(sym, t)])
  }

  /** A log of builder calls that opens with the allocator guess and holds no `complete()`. */
  predicate Unfinished(log: seq<PortfolioCall>)
  {
    |log| >= 1 && log[0] == PrepareUnknownTotal(STOCK_ALLOC_GUESS) && Complete !in log
  }

  /** `log` is `before` followed only by `addTx` calls for `sym`. */
  predicate TxCallsAfter(before: seq<PortfolioCall>, log: seq<PortfolioCall>, sym: string)
  {
    |before| <= |log| && log[..|before|] == before &&
    forall i :: |before| <= i < |log| ==> log[i].AddTx? && log[i].symbol == sym
  }

  lemma TxCallsAfterTrans(a: seq<PortfolioCall>, b: seq<PortfolioCall>, c: seq<PortfolioCall>, sym: string)
    requires TxCallsAfter(a, b, sym) && TxCallsAfter(b, c, sym)
    ensures TxCallsAfter(a, c, sym)
  {
    assert c[..|a|] == c[..|b|][..|a|];
  }

  /** Only `addTx` calls after an unfinished log leave it unfinished. */
  lemma TxCallsKeepUnfinished(before: seq<PortfolioCall>, log: seq<PortfolioCall>, sym: string)
    requires Unfinished(before) && TxCallsAfter(before, log, sym)
    ensures Unfinished(log)
  {
    assert log[0] == log[..|before|][0];
    forall i | 0 <= i < |log|
      ensures log[i] != Complete
    {
      if i < |before| {
        assert log[i] == log[..|before|][i];
      }
    }
  }

  lemma PortfolioTxStepKeeps(broker: string, sym: string, ratio: seq<real>, log: seq<PortfolioCall>, o: Bson)
    ensures var r := TxStep(broker, sym, ratio, log, o, PortfolioOnTx()); r.Ok? ==> TxCallsAfter(log, r.value, sym)
  {
    var r := TxStep(broker, sym, ratio, log, o, PortfolioOnTx());
    if r.Ok? && r.value != log {
      assert r.value[..|log|] == log;
    }
  }

  lemma {:induction false} PortfolioTxArrayKeeps(broker: string, sym: string, ratio: seq<real>, log: seq<PortfolioCall>,
                                                 elems: seq<Bson>, j: nat)
    requires j <= |elems|
    ensures TxCallsAfter(log, TxArrayFold(broker, sym, ratio, log, elems, j, PortfolioOnTx()).0, sym)
    decreases |elems| - j
  {
    if j < |elems| {
      PortfolioTxStepKeeps(broker, sym, ratio, log, elems[j]);
      var r := TxStep(broker, sym, ratio, log, elems[j], PortfolioOnTx());
      if r.Ok? {
        PortfolioTxArrayKeeps(broker, sym, ratio, r.value, elems, j + 1);
        TxCallsAfterTrans(log, r.value, TxArrayFold(broker, sym, ratio, r.value, elems, j + 1, PortfolioOnTx()).0, sym);
      } else {
        assert log[..|log|] == log;
      }
    } else {
      assert log[..|log|] == log;
    }
  }

  lemma PortfolioProcessKeeps(broker: string, sym: string, ratio: seq<real>, log: seq<PortfolioCall>, txObj: Option<Bson>)
    ensures TxCallsAfter(log, ProcessTxObjSpec(broker, sym, ratio, log, txObj, PortfolioOnTx()).0, sym)
  {
    assert log[..|log|] == log;
    match txObj
    case None =>
    case Some(BArray(elems)) => PortfolioTxArrayKeeps(broker, sym, ratio, log, elems, 0);
    case Some(o) => PortfolioTxStepKeeps(broker, sym, ratio, log, o);
  }

  lemma {:induction false} PortfolioEntriesKeep(broker: string, sym: string, ratio: seq<real>, log: seq<PortfolioCall>,
                                                entries: Doc, j: nat)
    requires j <= |entries|
    ensures TxCallsAfter(log, TxEntriesFold(broker, sym, ratio, log, entries, j, PortfolioOnTx()), sym)
    decreases |entries| - j
  {
    if j < |entries| {
      var txObj := Some(entries[j].1);
      var log1 := ProcessTxObjSpec(broker, sym, ratio, log, txObj, PortfolioOnTx()).0;
      PortfolioProcessKeeps(broker, sym, ratio, log, txObj);
      PortfolioEntriesKeep(broker, sym, ratio, log1, entries, j + 1);
      TxCallsAfterTrans(log, log1, TxEntriesFold(broker, sym, ratio, log1, entries, j + 1, PortfolioOnTx()), sym);
    } else {
      assert log[..|log|] == log;
    }
  }

  /** In the cursor loop of `get_stock_portfolio`, a matched stock whose head reads is
    * announced with `add_stock(sym, ccy, class_ratio)` and then `prepare_tx_alloc(sym, n)`
    * with its number of date entries, and every call after those two, up to the next
    * stock, is an `addTx` for that stock. */
  lemma StockAnnouncedBeforeItsTx(broker: string, log: seq<PortfolioCall>, doc: Doc)
    requires HeadOf(doc).Ok?
    ensures var h := HeadOf(doc).value;
      var o := CursorStep(broker, false, log, doc, PortfolioOnInstrument(), PortfolioOnTx());
      && o.error.None?
      && TxCallsAfter(log + [AddStock(h.name, h.ccy, h.ratio), PrepareTxAlloc(h.name, h.TxNum())], o.state, h.name)
  {
    var h := HeadOf(doc).value;
    var log1 := log + [AddStock(h.name, h.ccy, h.ratio), PrepareTxAlloc(h.name, h.TxNum())];
    if h.TxNum() != 0 {
      PortfolioEntriesKeep(broker, h.name, h.ratio, log1, h.tx.value, 0);
    } else {
      assert log1[..|log1|] == log1;
    }
  }

  /** The transaction document the public `add_tx` stores reaches `get_stock_portfolio`'s
    * `onTx` as one `addTx` for the stock, with every field as stored and, for a split,
    * shares and fee 0. */
  lemma StoredTxReachesAddTx(log: seq<PortfolioCall>, sym: string, ratio: seq<real>, broker: string, symbol: string,
                             shares: real, price: real, fee: real, side: string, date: int)
    ensures PortfolioOnTx()(log, sym, ratio, TxDocument(broker, symbol, shares, price, fee, side, date)) ==
      Ok(log + [AddTx(sym, PB.TxFields(broker, side, price, if side == "SPLIT" then 0.0 else shares,
                                        if side == "SPLIT" then 0.0 else fee, date))])
  {
    TxDocumentReadsBack(broker, symbol, shares, price, fee, side, date);
  }

  lemma {:induction false} PortfolioCursorKeeps(broker: string, log: seq<PortfolioCall>, docs: seq<Doc>, j: nat)
    requires Unfinished(log) && j <= |docs|
    ensures Unfinished(CursorFold(broker, false, log, docs, j, PortfolioOnInstrument(), PortfolioOnTx()).state)
    decreases |docs| - j
  {
    if j < |docs| {
      var o := CursorStep(broker, false, log, docs[j], PortfolioOnInstrument(), PortfolioOnTx());
      if o.error.None? {
        var h := HeadOf(docs[j]).value;
        var log1 := log + [AddStock(h.name, h.ccy, h.ratio), PrepareTxAlloc(h.name, h.TxNum())];
        StockAnnouncedBeforeItsTx(broker, log, docs[j]);
        assert Unfinished(log1) by {
          assert log1[0] == log[0];
          assert forall i :: 0 <= i < |log1| ==> log1[i] != Complete by {
            forall i | 0 <= i < |log1|
              ensures log1[i] != Complete
            {
              if i < |log| {
                assert log1[i] == log[i];
              }
            }
          }
        }
        TxCallsKeepUnfinished(log1, o.state, h.name);
        PortfolioCursorKeeps(broker, o.state, docs, j + 1);
      }
    }
  }

  /** `get_stock_portfolio(builder, broker, symbol)`: the calls on the builder. The job
    * opens with `prepare_stock_alloc_dont_know_total_num(10)`; `complete()` comes last and
    * exactly when no exception ended the job; the calls before it, or all of them after an
    * exception, are those the cursor loop made. */
  function MongoStockPortfolio(collection: seq<Doc>, broker: Option<string>, symbol: Option<string>): (calls: seq<PortfolioCall>)
    ensures |calls| >= 1 && calls[0] == PrepareUnknownTotal(STOCK_ALLOC_GUESS)
    ensures var o := InstrumentTx(collection, false, symbol, broker, None, false, [PrepareUnknownTotal(STOCK_ALLOC_GUESS)],
                                  PortfolioOnInstrument(), PortfolioOnTx());
      && (Complete in calls <==> o.error.None?)
      && (Complete in calls ==> calls[|calls| - 1] == Complete && Complete !in calls[..|calls| - 1])
      && calls[..|calls| - (if Complete in calls then 1 else 0)] == o.state
  {
    var start := [PrepareUnknownTotal(STOCK_ALLOC_GUESS)];
    var o := InstrumentTx(collection, false, symbol, broker, None, false, start, PortfolioOnInstrument(), PortfolioOnTx());
    PortfolioCursorKeeps(MvStr(broker), start, Matching(FilterOf(false, MvStr(symbol)), collection), 0);
    var calls := if o.error.None? then o.state + [Complete] else o.state;
    assert o.error.None? ==> calls[..|calls| - 1] == o.state;
    calls
  }

  /** `tx_num` counts the date entries of `tx`, not the transactions: a stock whose only
    * entry holds two readable trades is announced with `prepare_tx_alloc(sym, 1)` and then
    * gets two `addTx` calls. */
  lemma TxNumCountsDates(doc: Doc, ratio: seq<real>, sym: string, ccy: string, date: string, t1: Doc, t2: Doc)
    requires Matches(FilterOf(false, ""), doc)
    requires HeadOf(doc) == Ok(Head(ratio, Some([(date, BArray([BDoc(t1), BDoc(t2)]))]), sym, ccy))
    requires ReadTx(t1).Ok? && ReadTx(t2).Ok?
    ensures MongoStockPortfolio([doc], None, None) ==
      [PrepareUnknownTotal(STOCK_ALLOC_GUESS), AddStock(sym, ccy, ratio), PrepareTxAlloc(sym, 1),
       AddTx(sym, ReadTx(t1).value), AddTx(sym, ReadTx(t2).value), Complete]
  {
    var entries: Doc := [(date, BArray([BDoc(t1), BDoc(t2)]))];
    assert MvStr(None) == "";
    assert Matching(FilterOf(false, ""), [doc]) == [doc];
    var start := [PrepareUnknownTotal(STOCK_ALLOC_GUESS)];
    var log1 := start + [AddStock(sym, ccy, ratio), PrepareTxAlloc(sym, 1)];
    var log2 := log1 + [AddTx(sym, ReadTx(t1).value)];
    var log3 := log2 + [AddTx(sym, ReadTx(t2).value)];
    assert PortfolioOnInstrument()(start, sym, ccy, ratio, 1) == Ok(log1);
    assert TxStep("", sym, ratio, log1, BDoc(t1), PortfolioOnTx()) == Ok(log2);
    assert TxStep("", sym, ratio, log2, BDoc(t2), PortfolioOnTx()) == Ok(log3);
    assert TxArrayFold("", sym, ratio, log3, [BDoc(t1), BDoc(t2)], 2, PortfolioOnTx()) == (log3, None);
    assert TxArrayFold("", sym, ratio, log1, [BDoc(t1), BDoc(t2)], 0, PortfolioOnTx()) == (log3, None);
    assert TxEntriesFold("", sym, ratio, log1, entries, 0, PortfolioOnTx()) == log3;
    assert CursorStep("", false, start, doc, PortfolioOnInstrument(), PortfolioOnTx()) == Outcome(log3, None);
    assert CursorFold("", false, start, [doc], 0, PortfolioOnInstrument(), PortfolioOnTx()) == Outcome(log3, None);
    assert InstrumentTx([doc], false, None, None, None, false, start, PortfolioOnInstrument(), PortfolioOnTx()) == Outcome(log3, None);
    assert log3 + [Complete] == [PrepareUnknownTotal(STOCK_ALLOC_GUESS), AddStock(sym, ccy, ratio), PrepareTxAlloc(sym, 1),
       AddTx(sym, ReadTx(t1).value), AddTx(sym, ReadTx(t2).value), Complete];
  }
}
