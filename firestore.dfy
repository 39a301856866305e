/** Query shaping of the Firestore data-access class (cloud-src/firestore.cc and its older
  * copy src/storage/firestore.cc). The SDK is not modelled: a query's outcome is an input
  * value (the documents it returned, or an error), and a future's status is the sequence
  * of values `status()` would report after each sleep. */
module Firestore {
  import opened Wrappers
  import opened Alloc
  import opened Core
  import opened Builders

  /** `FILTER_WHERE_IN_LIMIT`: Firestore accepts at most 10 values in one `WhereIn`. */
  const FILTER_WHERE_IN_LIMIT: int := 10

  /** The batches issued, one after the other. */
  function Flatten(batches: seq<seq<string>>): seq<string>
  {
    if batches == [] then [] else batches[0] + Flatten(batches[1..])
  }

  lemma {:induction false} FlattenAppend(batches: seq<seq<string>>, b: seq<string>)
    ensures Flatten(batches + [b]) == Flatten(batches) + b
  {
    if batches != [] {
      assert (batches + [b])[1..] == batches[1..] + [b];
      FlattenAppend(batches[1..], b);
    } else {
      assert batches + [b] == [b];
    }
  }

  /** `filter_where_in(q, ids_head, total_num, callback)`: the id batches of the `WhereIn`
    * queries it issues, in issue order. Each holds at most 10 ids, all but the last exactly
    * 10, and together they are the first `total_num` ids in order, each once; a
    * non-positive `total_num` issues nothing. */
  method FilterWhereIn(ids: seq<string>, totalNum: int) returns (batches: seq<seq<string>>)
    requires totalNum <= |ids|
    ensures forall i :: 0 <= i < |batches| ==> 0 < |batches[i]| <= FILTER_WHERE_IN_LIMIT
    ensures forall i :: 0 <= i < |batches| - 1 ==> |batches[i]| == FILTER_WHERE_IN_LIMIT
    ensures totalNum <= 0 ==> batches == []
    ensures totalNum > 0 ==> Flatten(batches) == ids[..totalNum]
    ensures totalNum > 0 ==> |batches| == (totalNum + FILTER_WHERE_IN_LIMIT - 1) / FILTER_WHERE_IN_LIMIT
  {
    batches := [];
    var id := 0;
    var remaining := totalNum;
    while remaining > 0
      invariant id + remaining == totalNum && 0 <= id <= |ids|
      invariant totalNum > 0 ==> 0 <= remaining
      invariant totalNum <= 0 ==> batches == []
      invariant remaining > 0 ==> id == FILTER_WHERE_IN_LIMIT * |batches|
      invariant totalNum > 0 && remaining == 0 ==>
        |batches| == (totalNum + FILTER_WHERE_IN_LIMIT - 1) / FILTER_WHERE_IN_LIMIT
      invariant Flatten(batches) == ids[..id]
      invariant forall i :: 0 <= i < |batches| ==> 0 < |batches[i]| <= FILTER_WHERE_IN_LIMIT
      invariant forall i :: 0 <= i < |batches| - 1 ==> |batches[i]| == FILTER_WHERE_IN_LIMIT
      invariant remaining > 0 ==> forall i :: 0 <= i < |batches| ==> |batches[i]| == FILTER_WHERE_IN_LIMIT
      decreases remaining
    {
      var num := if remaining > FILTER_WHERE_IN_LIMIT then FILTER_WHERE_IN_LIMIT else remaining;
      var batch := ids[id..id + num];
      FlattenAppend(batches, batch);
      assert ids[..id + num] == ids[..id] + batch;
      batches := batches + [batch];
      id := id + num;
      remaining := remaining - num;
    }
  }

  /** `get_latest_quotes(builder, num, symbols_head)`, which asserts `num != 0`: the symbol
    * batches it queries. */
  method LatestQuotesBatches(num: int, symbols: seq<string>) returns (batches: seq<seq<string>>)
    requires num != 0 && num <= |symbols|
    ensures num > 0 ==> Flatten(batches) == symbols[..num]
    ensures forall i :: 0 <= i < |batches| ==> 0 < |batches[i]| <= FILTER_WHERE_IN_LIMIT
  {
    batches := FilterWhereIn(symbols, num);
  }

  /** What one sub-collection query completed with: its first document, already turned
    * into the item the callback places (none for an empty result), or an error. */
  datatype SubResult<T> = SubOk(first: Option<T>) | SubFailed

  /** The completion handler `sub_collection` attaches to each sub-query: count the
    * completion, place the first document's item when there is one, `failed()` (and throw)
    * on an error, and `succeed()` once the counter has reached `max_counter`. */
  function SubCompletion<T>(b: BuilderState<T>, f: SubResult<T>): BuilderState<T>
    requires !b.consumed && (f.SubOk? && f.first.Some? ==> b.alloc.HasRoom())
  {
    var c := b.Count();
    match f
    case SubFailed => c.Failed()
    case SubOk(first) =>
      var d := if first.Some? then c.Add(first.value) else c;
      if d.alloc.HasEnoughCounter() then d.Succeed() else d
  }

  /** The same handler on a `Builder<T>` object. */
  method OnSubQueryComplete<T>(builder: Builder<T>, f: SubResult<T>) returns (r: Result<()>)
    requires !builder.consumed && (f.SubOk? && f.first.Some? ==> builder.alloc.HasRoom())
    modifies builder
    ensures builder.State() == SubCompletion(old(builder.State()), f)
    ensures f.SubFailed? ==> r == Err("Failed to query sub collection")
    ensures f.SubOk? ==> r == Ok(())
  {
    var _ := builder.IncCounter();
    if f.SubFailed? {
      builder.Failed();
      r := Err("Failed to query sub collection");
      return;
    }
    if f.first.Some? {
      builder.Add(f.first.value);
    }
    if builder.HasEnoughCounter() {
      builder.Succeed();
    }
    r := Ok(());
  }

  /** The builder after the completions `fs`, in order; `None` when a completion reaches a
    * builder that has deleted itself or overflows its buffer. */
  function SubCompletions<T>(b: BuilderState<T>, fs: seq<SubResult<T>>): Option<BuilderState<T>>
    decreases |fs|
  {
    if fs == [] then Some(b)
    else if b.consumed then None
    else if fs[0].SubOk? && fs[0].first.Some? && !b.alloc.HasRoom() then None
    else SubCompletions(SubCompletion(b, fs[0]), fs[1..])
  }

  /** The items the successful, non-empty completions of `fs` place, in order. */
  function Firsts<T>(fs: seq<SubResult<T>>): (xs: seq<T>)
    ensures |xs| <= |fs|
  {
    if fs == [] then []
    else (if fs[0].SubOk? && fs[0].first.Some? then [fs[0].first.value] else []) + Firsts(fs[1..])
  }

  /** When the remaining completions are exactly what the counter still needs and all
    * succeed, `succeed()` fires on the last one and `onSuccess` receives every item placed:
    * one per non-empty result, in completion order. */
  lemma {:induction false} SubCollectionSucceedsOnLast<T>(b: BuilderState<T>, fs: seq<SubResult<T>>)
    requires !b.consumed && b.delivered == []
    requires |fs| > 0 && b.alloc.counter + |fs| == b.alloc.capacity
    requires |b.alloc.items| <= b.alloc.counter
    requires forall i :: 0 <= i < |fs| ==> fs[i].SubOk?
    ensures SubCompletions(b, fs).Some?
    ensures SubCompletions(b, fs).value.consumed
    ensures SubCompletions(b, fs).value.delivered == [SubCompletions(b, fs).value.alloc]
    ensures SubCompletions(b, fs).value.alloc.items == b.alloc.items + Firsts(fs)
    decreases |fs|
  {
    var c := SubCompletion(b, fs[0]);
    var placed := if fs[0].first.Some? then [fs[0].first.value] else [];
    assert c.alloc.items == b.alloc.items + placed;
    if |fs| == 1 {
      assert fs[1..] == [];
      assert Firsts(fs) == placed + Firsts(fs[1..]);
    } else {
      assert !c.consumed && c.delivered == [];
      SubCollectionSucceedsOnLast(c, fs[1..]);
      assert b.alloc.items + Firsts(fs) == b.alloc.items + placed + Firsts(fs[1..]);
    }
  }

  /** A failed sub-query before the counter is complete deletes the builder without any
    * `onSuccess`; any completion after it reaches a deleted builder. */
  lemma {:induction false} SubCollectionFailure<T>(b: BuilderState<T>, fs: seq<SubResult<T>>, e: nat)
    requires !b.consumed && b.delivered == []
    requires e < |fs| && b.alloc.counter + |fs| <= b.alloc.capacity
    requires |b.alloc.items| <= b.alloc.counter
    requires fs[e].SubFailed? && forall i :: 0 <= i < e ==> fs[i].SubOk?
    ensures SubCompletions(b, fs[..e + 1]).Some?
    ensures SubCompletions(b, fs[..e + 1]).value.consumed
    ensures SubCompletions(b, fs[..e + 1]).value.delivered == []
    ensures e + 1 < |fs| ==> SubCompletions(b, fs) == None
    decreases e
  {
    var c := SubCompletion(b, fs[0]);
    if e == 0 {
      assert fs[..1] == [fs[0]] && fs[..1][1..] == [];
      if |fs| > 1 {
        assert SubCompletions(c, fs[1..]) == None;
      }
    } else {
      assert !c.consumed && c.delivered == [];
      assert fs[..e + 1][1..] == fs[1..][..e];
      SubCollectionFailure(c, fs[1..], e - 1);
    }
  }

  /** A `FieldValue` as the handlers read it; `Missing` is what `Get` returns for a field
    * the document does not have (`is_valid()` is false). */
  datatype FieldValue = Missing | NullValue | IntegerValue(i: int) | DoubleValue(d: real) | StringValue(s: string)

  /** The values `get_num_as_double` is meant for. */
  predicate Numeric(fv: FieldValue)
  {
    fv.NullValue? || fv.IntegerValue? || fv.DoubleValue?
  }

  /** `get_num_as_double(fv)`: 0 for null, an integer converted, a double as it is. */
  function GetNumAsDouble(fv: FieldValue): (r: real)
    requires Numeric(fv)
    ensures fv.NullValue? ==> r == 0.0
    ensures fv.IntegerValue? ==> r == fv.i as real
    ensures fv.DoubleValue? ==> r == fv.d
  {
    match fv
    case NullValue => 0.0
    case IntegerValue(i) => i as real
    case DoubleValue(d) => d
  }

  /** The price a quote document gives: its "price" when the field is there, else its "rate". */
  function QuotePrice(price: FieldValue, rate: FieldValue): (p: real)
    requires price.Missing? ==> Numeric(rate)
    requires !price.Missing? ==> Numeric(price)
    ensures !price.Missing? ==> p == GetNumAsDouble(price)
    ensures price.Missing? ==> p == GetNumAsDouble(rate)
  {
    if !price.Missing? then GetNumAsDouble(price) else GetNumAsDouble(rate)
  }

  /** `for_each_doc(collection, on_all_docs)`, with `fetched` the documents when `Await`
    * succeeded: null when the fetch failed or the collection is empty, otherwise what the
    * handler returns. */
  function ForEachDoc<D, T>(fetched: Option<seq<D>>, onAllDocs: seq<D> -> Option<T>): (r: Option<T>)
    ensures fetched.None? ==> r.None?
    ensures fetched.Some? && fetched.value == [] ==> r.None?
    ensures fetched.Some? && fetched.value != [] ==> r == onAllDocs(fetched.value)
  {
    match fetched
    case None => None
    case Some(docs) => if docs == [] then None else onAllDocs(docs)
  }

  /** The C string values of `names`. */
  function CStrings(names: seq<string>): (r: seq<string>)
    ensures |r| == |names| && forall i :: 0 <= i < |names| ==> r[i] == CStringValue(names[i])
  {
    seq(|names|, i requires 0 <= i < |names| => CStringValue(names[i]))
  }

  /** `get_all_broker_names(size)` of src/storage/firestore.cc, with `fetched` the broker
    * document ids when `Await` succeeded: `size` stays 0 and no builder is made when there
    * is nothing, otherwise `size` is the broker count and the builder holds one name per
    * broker, in document order. */
  method GetAllBrokerNames(fetched: Option<seq<string>>) returns (p: Option<StringsBuilder>, size: nat)
    ensures fetched.None? || fetched.value == [] ==> p.None? && size == 0
    ensures fetched.Some? && fetched.value != [] ==>
      && p.Some? && fresh(p.value) && fresh(p.value.strings) && p.value.strings.Valid()
      && size == |fetched.value|
      && p.value.strings.Contents() == CStrings(fetched.value)
  {
    size := 0;
    if fetched.None? || fetched.value == [] {
      return None, size;
    }
    var names := fetched.value;
    var b := new StringsBuilder(|names|);
    var i := 0;
    while i < |names|
      invariant 0 <= i <= |names|
      invariant fresh(b.strings) && fresh(b.strings.strs) && b.strings.Valid()
      invariant b.strings.capacity == |names|
      invariant b.strings.Contents() == CStrings(names[..i])
    {
      var _ := b.Add(names[i]);
      assert CStrings(names[..i + 1]) == CStrings(names[..i]) + [CStringValue(names[i])];
      i := i + 1;
    }
    assert names[..i] == names;
    size := |names|;
    p := Some(b);
  }

  /** One clause of a Firestore query on the instruments collection. */
  datatype Clause = TypeIn(kinds: seq<string>) | NameEq(name: string) | BrokerEq(broker: string)

  /** `get_stocks(broker, symbol)` of src/storage/firestore.cc: always restricted to types
    * "Stock" and "ETF", with a name clause exactly when a symbol is given and a broker
    * clause exactly when a broker is given. The cloud-src version takes no broker and is
    * `StocksQuery(None, symbol)`. */
  function StocksQuery(broker: Option<string>, symbol: Option<string>): (q: seq<Clause>)
    ensures |q| >= 1 && q[0] == TypeIn(["Stock", "ETF"])
    ensures forall i :: 1 <= i < |q| ==> !q[i].TypeIn?
    ensures forall n :: NameEq(n) in q <==> symbol == Some(n)
    ensures forall b :: BrokerEq(b) in q <==> broker == Some(b)
  {
    [TypeIn(["Stock", "ETF"])]
    + (if symbol.Some? then [NameEq(symbol.value)] else [])
    + (if broker.Some? then [BrokerEq(broker.value)] else [])
  }

  /** `future.status()`. */
  datatype FutureStatus = Complete | Pending | InvalidStatus

  const kTimeoutMs: int := 5000
  const kSleepMs: int := 100

  /** The number of sleeps after which `status()` first reports something other than
    * pending, or `|statusAt|` when it never does within the observations. */
  function FirstNotPending(statusAt: seq<FutureStatus>): (k: nat)
    ensures k <= |statusAt|
    ensures forall j :: 0 <= j < k ==> statusAt[j] == Pending
    ensures k < |statusAt| ==> statusAt[k] != Pending
  {
    if statusAt == [] then 0
    else if statusAt[0] != Pending then 0
    else 1 + FirstNotPending(statusAt[1..])
  }

  /** `Await(future, name)` of src/storage/firestore.cc. `statusAt[k]` is the status after
    * `k` sleeps of `kSleepMs` and `error` is `future.error()`. It sleeps until the future
    * leaves the pending state but at most `kTimeoutMs / kSleepMs` = 50 times, and reports
    * success exactly when the status then is complete with error code 0. */
  method Await(statusAt: seq<FutureStatus>, error: int) returns (ok: bool, sleeps: nat)
    requires |statusAt| > kTimeoutMs / kSleepMs
    ensures sleeps == if FirstNotPending(statusAt) < 50 then FirstNotPending(statusAt) else 50
    ensures sleeps <= kTimeoutMs / kSleepMs
    ensures ok <==> statusAt[sleeps] == Complete && error == 0
  {
    var remainingTimeout := kTimeoutMs;
    sleeps := 0;
    while statusAt[sleeps] == Pending && remainingTimeout > 0
      invariant 0 <= sleeps <= 50 && remainingTimeout == kTimeoutMs - kSleepMs * sleeps
      invariant forall j :: 0 <= j < sleeps ==> statusAt[j] == Pending
      decreases remainingTimeout
    {
      remainingTimeout := remainingTimeout - kSleepMs;
      sleeps := sleeps + 1;
    }
    if statusAt[sleeps] != Complete {
      ok := false;
    } else if error != 0 {
      ok := false;
    } else {
      ok := true;
    }
  }

  /** `Await(future, name)` of cloud-src/firestore.cc, whose timeout test is commented out:
    * it waits for as long as the future is pending. `None` means it is still waiting after
    * every observation given; otherwise the result is as for the bounded version. */
  method AwaitUnbounded(statusAt: seq<FutureStatus>, error: int) returns (r: Option<bool>)
    ensures r.None? <==> FirstNotPending(statusAt) == |statusAt|
    ensures r.Some? ==> (r.value <==> statusAt[FirstNotPending(statusAt)] == Complete && error == 0)
  {
    var sleeps := 0;
    while sleeps < |statusAt| && statusAt[sleeps] == Pending
      invariant 0 <= sleeps <= |statusAt|
      invariant forall j :: 0 <= j < sleeps ==> statusAt[j] == Pending
    {
      sleeps := sleeps + 1;
    }
    if sleeps == |statusAt| {
      return None;
    }
    r := Some(statusAt[sleeps] == Complete && error == 0);
  }
}
