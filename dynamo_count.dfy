/** `db_query_by_sub_with_total_num_aware_builder` of cloud-src/dynamodb.cc and the two
  * queries built on it, `get_funds` and `get_latest_quotes(builder, num, symbols)`: a
  * per-item handler decides whether an item counts toward the builder's `max_counter`, and
  * the builder succeeds as soon as enough items have counted. */
module DynamoCountAware {
  import opened Wrappers
  import opened Alloc
  import opened Core
  import opened Builders
  import opened PortfolioBuilder
  import opened DynamoQuery
  import opened DynamoRequests

  /** What a query's own handler did with one item: `Rejected` when it answered false (the
    * item is not counted), or `Accepted` with the value it placed in the builder, if any. */
  datatype Handled<T> = Rejected | Accepted(placed: Option<T>)

  /** The builder can still take items: it is alive, its counter has not reached
    * `max_counter`, and it has placed no more values than it has counted. */
  predicate Ready<T>(b: BuilderState<T>)
  {
    !b.consumed && |b.alloc.items| <= b.alloc.counter < b.alloc.capacity
  }

  /** The wrapping `onItem` for one item, on a builder that is `None` once the query has
    * reached undefined behaviour. A rejected item is passed over. An accepted one is placed
    * (if the handler placed a value) and counted, and when the counter is enough the
    * builder succeeds and the page stops. As written a later item still reaches the deleted
    * builder; corrected, the handler ignores every item once the builder has succeeded. */
  function CountAwareStep<T, I>(rules: Rules, handle: I -> Handled<T>, s: Option<BuilderState<T>>, item: I)
    : (Option<BuilderState<T>>, bool)
  {
    match s
    case None => (None, false)
    case Some(b) =>
      if b.consumed && rules == Corrected then (s, false)
      else
        match handle(item)
        case Rejected => (s, true)
        case Accepted(placed) =>
          if b.consumed || (placed.Some? && !b.alloc.HasRoom()) then (None, false)
          else
            var b1 := (if placed.Some? then b.Add(placed.value) else b).Count();
            if b1.alloc.HasEnoughCounter() then (Some(b1.Succeed()), false) else (Some(b1), true)
  }

  function CountAwareOnItem<T, I>(rules: Rules, handle: I -> Handled<T>): OnItem<Option<BuilderState<T>>, I>
  {
    (s: Option<BuilderState<T>>, isLast: bool, item: I) =>
      var (s1, cont) := CountAwareStep(rules, handle, s, item);
      Returned(s1, cont)
  }

  /** The `[](int){}` page-count callback. */
  function NoCount<S>(): OnItemCount<S>
  {
    (s: S, n: int) => Ok(s)
  }

  /** The number of accepted items. */
  function AcceptedNum<T, I>(handle: I -> Handled<T>, xs: seq<I>): nat
  {
    if xs == [] then 0 else (if handle(xs[0]).Accepted? then 1 else 0) + AcceptedNum(handle, xs[1..])
  }

  /** The values the accepted items placed, in item order. */
  function PlacedBy<T, I>(handle: I -> Handled<T>, xs: seq<I>): (r: seq<T>)
    ensures |r| <= AcceptedNum(handle, xs)
  {
    if xs == [] then []
    else
      var h := handle(xs[0]);
      (if h.Accepted? && h.placed.Some? then [h.placed.value] else []) + PlacedBy(handle, xs[1..])
  }

  /** The index of the `k`-th accepted item. */
  function NthAccepted<T, I>(handle: I -> Handled<T>, xs: seq<I>, k: nat): (i: nat)
    requires 1 <= k <= AcceptedNum(handle, xs)
    ensures i < |xs| && handle(xs[i]).Accepted?
  {
    assert xs != [];
    if handle(xs[0]).Accepted? && k == 1 then 0
    else NthAccepted(handle, xs[1..], if handle(xs[0]).Accepted? then k - 1 else k) + 1
  }

  /** Up to and including the `k`-th accepted item, exactly `k` items are accepted. */
  lemma {:induction false} NthAcceptedCount<T, I>(handle: I -> Handled<T>, xs: seq<I>, k: nat)
    requires 1 <= k <= AcceptedNum(handle, xs)
    ensures AcceptedNum(handle, xs[..NthAccepted(handle, xs, k) + 1]) == k
    decreases |xs|
  {
    var i := NthAccepted(handle, xs, k);
    if handle(xs[0]).Accepted? && k == 1 {
      assert xs[..1][1..] == [];
    } else {
      var k' := if handle(xs[0]).Accepted? then k - 1 else k;
      var j := NthAccepted(handle, xs[1..], k');
      NthAcceptedCount(handle, xs[1..], k');
      assert i == j + 1;
      assert xs[..j + 2][0] == xs[0] && xs[..j + 2][1..] == xs[1..][..j + 1];
    }
  }

  /** The builder after the items `xs`, all taken without reaching `max_counter`. */
  function Filled<T, I>(b: BuilderState<T>, handle: I -> Handled<T>, xs: seq<I>): BuilderState<T>
  {
    b.(alloc := b.alloc.(items := b.alloc.items + PlacedBy(handle, xs), counter := b.alloc.counter + AcceptedNum(handle, xs)))
  }

  /** What the count-aware query leaves in a ready builder after the items `xs`: when fewer
    * than the missing count are accepted, all of them are taken and the builder is still
    * waiting; otherwise it holds what the items up to the one that completed the count
    * placed, with the counter at `max_counter`, and it has succeeded. */
  function CountAwareResult<T, I>(b: BuilderState<T>, handle: I -> Handled<T>, xs: seq<I>): BuilderState<T>
    requires Ready(b)
  {
    var need := b.alloc.capacity - b.alloc.counter;
    if AcceptedNum(handle, xs) < need then Filled(b, handle, xs)
    else Filled(b, handle, xs[..NthAccepted(handle, xs, need) + 1]).Succeed()
  }

  lemma {:induction false} AcceptedNumAppend<T, I>(handle: I -> Handled<T>, a: seq<I>, c: seq<I>)
    ensures AcceptedNum(handle, a + c) == AcceptedNum(handle, a) + AcceptedNum(handle, c)
    ensures PlacedBy(handle, a + c) == PlacedBy(handle, a) + PlacedBy(handle, c)
  {
    AcceptedNumConcat(handle, a, c);
    PlacedByConcat(handle, a, c);
  }

  lemma {:induction false} AcceptedNumConcat<T, I>(handle: I -> Handled<T>, a: seq<I>, c: seq<I>)
    ensures AcceptedNum(handle, a + c) == AcceptedNum(handle, a) + AcceptedNum(handle, c)
    decreases |a|
  {
    if a == [] {
      assert a + c == c;
    } else {
      assert (a + c)[0] == a[0] && (a + c)[1..] == a[1..] + c;
      AcceptedNumConcat(handle, a[1..], c);
    }
  }

  lemma {:induction false} PlacedByConcat<T, I>(handle: I -> Handled<T>, a: seq<I>, c: seq<I>)
    ensures PlacedBy(handle, a + c) == PlacedBy(handle, a) + PlacedBy(handle, c)
    decreases |a|
  {
    if a == [] {
      assert a + c == c;
    } else {
      assert (a + c)[0] == a[0] && (a + c)[1..] == a[1..] + c;
      PlacedByConcat(handle, a[1..], c);
    }
  }

  /** Past the first item, the `k`-th accepted item is the `k'`-th of the rest. */
  lemma {:induction false} NthAcceptedTail<T, I>(handle: I -> Handled<T>, xs: seq<I>, k: nat, k': nat)
    requires xs != [] && 1 <= k <= AcceptedNum(handle, xs) && !(handle(xs[0]).Accepted? && k == 1)
    requires k' == if handle(xs[0]).Accepted? then k - 1 else k
    ensures 1 <= k' <= AcceptedNum(handle, xs[1..])
    ensures NthAccepted(handle, xs, k) == 1 + NthAccepted(handle, xs[1..], k')
  {
  }

  lemma {:induction false} FilledAppend<T, I>(b: BuilderState<T>, handle: I -> Handled<T>, a: seq<I>, c: seq<I>)
    ensures Filled(b, handle, a + c) == Filled(Filled(b, handle, a), handle, c)
  {
    AcceptedNumAppend(handle, a, c);
  }

  /** The `k`-th accepted item of a concatenation lies in its first run when that run
    * accepted at least `k` items. */
  lemma {:induction false} NthAcceptedPrefix<T, I>(handle: I -> Handled<T>, a: seq<I>, c: seq<I>, k: nat)
    requires 1 <= k <= AcceptedNum(handle, a)
    ensures AcceptedNum(handle, a + c) == AcceptedNum(handle, a) + AcceptedNum(handle, c)
    ensures NthAccepted(handle, a + c, k) == NthAccepted(handle, a, k)
    decreases |a|
  {
    AcceptedNumConcat(handle, a, c);
    var ac := a + c;
    assert ac[0] == a[0] && ac[1..] == a[1..] + c;
    if !(handle(a[0]).Accepted? && k == 1) {
      var k' := if handle(a[0]).Accepted? then k - 1 else k;
      NthAcceptedTail(handle, ac, k, k');
      NthAcceptedPrefix(handle, a[1..], c, k');
      NthAcceptedTail(handle, a, k, k');
    }
  }

  /** Otherwise it lies in the second run, at the place of the second run's own
    * `k - AcceptedNum(a)`-th accepted item. */
  lemma {:induction false} NthAcceptedSuffix<T, I>(handle: I -> Handled<T>, a: seq<I>, c: seq<I>, k: nat)
    requires AcceptedNum(handle, a) < k <= AcceptedNum(handle, a) + AcceptedNum(handle, c)
    ensures AcceptedNum(handle, a + c) == AcceptedNum(handle, a) + AcceptedNum(handle, c)
    ensures NthAccepted(handle, a + c, k) == |a| + NthAccepted(handle, c, k - AcceptedNum(handle, a))
    decreases |a|
  {
    AcceptedNumConcat(handle, a, c);
    if a == [] {
      assert a + c == c;
    } else {
      var k' := if handle(a[0]).Accepted? then k - 1 else k;
      assert k' - AcceptedNum(handle, a[1..]) == k - AcceptedNum(handle, a);
      NthAcceptedSuffix(handle, a[1..], c, k');
      assert NthAccepted(handle, a + c, k) == 1 + NthAccepted(handle, a[1..] + c, k') by {
        var ac := a + c;
        assert ac[0] == a[0] && ac[1..] == a[1..] + c;
        NthAcceptedTail(handle, ac, k, k');
      }
      assert |a| == 1 + |a[1..]|;
      assert NthAccepted(handle, c, k' - AcceptedNum(handle, a[1..])) == NthAccepted(handle, c, k - AcceptedNum(handle, a));
    }
  }

  lemma {:induction false} NthAcceptedAppend<T, I>(handle: I -> Handled<T>, a: seq<I>, c: seq<I>, k: nat)
    requires 1 <= k <= AcceptedNum(handle, a + c)
    ensures AcceptedNum(handle, a + c) == AcceptedNum(handle, a) + AcceptedNum(handle, c)
    ensures k <= AcceptedNum(handle, a) ==> NthAccepted(handle, a + c, k) == NthAccepted(handle, a, k)
    ensures k > AcceptedNum(handle, a) ==>
        NthAccepted(handle, a + c, k) == |a| + NthAccepted(handle, c, k - AcceptedNum(handle, a))
  {
    AcceptedNumAppend(handle, a, c);
    if k <= AcceptedNum(handle, a) {
      NthAcceptedPrefix(handle, a, c, k);
    } else {
      NthAcceptedSuffix(handle, a, c, k);
    }
  }

  /** `CountAwareResult` once the missing count is reached: the builder takes the items up
    * to the one that completed it and succeeds. */
  lemma {:induction false} CountAwareResultAt<T, I>(b: BuilderState<T>, handle: I -> Handled<T>, xs: seq<I>, n: nat)
    requires Ready(b) && AcceptedNum(handle, xs) >= b.alloc.capacity - b.alloc.counter
    requires n == NthAccepted(handle, xs, b.alloc.capacity - b.alloc.counter)
    ensures CountAwareResult(b, handle, xs) == Filled(b, handle, xs[..n + 1]).Succeed()
  {
  }

  /** The builder after items that do not complete the count is still ready. */
  lemma {:induction false} FilledReady<T, I>(b: BuilderState<T>, handle: I -> Handled<T>, a: seq<I>)
    requires Ready(b) && AcceptedNum(handle, a) < b.alloc.capacity - b.alloc.counter
    ensures Ready(Filled(b, handle, a))
    ensures Filled(b, handle, a).alloc.capacity - Filled(b, handle, a).alloc.counter
      == b.alloc.capacity - b.alloc.counter - AcceptedNum(handle, a)
  {
  }

  /** The items after the one that completed the count do not change the result. */
  lemma {:induction false} CountAwareResultDone<T, I>(b: BuilderState<T>, handle: I -> Handled<T>, a: seq<I>, c: seq<I>)
    requires Ready(b) && AcceptedNum(handle, a) >= b.alloc.capacity - b.alloc.counter
    ensures CountAwareResult(b, handle, a + c) == CountAwareResult(b, handle, a)
  {
    var need := b.alloc.capacity - b.alloc.counter;
    NthAcceptedPrefix(handle, a, c, need);
    var n := NthAccepted(handle, a, need);
    assert (a + c)[..n + 1] == a[..n + 1];
    CountAwareResultAt(b, handle, a + c, n);
    CountAwareResultAt(b, handle, a, n);
  }

  /** Items that do not complete the count are taken, and the builder goes on ready. */
  lemma {:induction false} CountAwareResultPending<T, I>(b: BuilderState<T>, handle: I -> Handled<T>, a: seq<I>, c: seq<I>)
    requires Ready(b) && AcceptedNum(handle, a) < b.alloc.capacity - b.alloc.counter
    ensures Ready(Filled(b, handle, a))
    ensures CountAwareResult(b, handle, a + c) == CountAwareResult(Filled(b, handle, a), handle, c)
  {
    var need := b.alloc.capacity - b.alloc.counter;
    AcceptedNumAppend(handle, a, c);
    FilledReady(b, handle, a);
    if AcceptedNum(handle, a + c) >= need {
      PendingThenDone(b, handle, a, c);
    } else {
      FilledAppend(b, handle, a, c);
    }
  }

  lemma {:induction false} FilledPrefix<T, I>(b: BuilderState<T>, handle: I -> Handled<T>, a: seq<I>, c: seq<I>, n: nat)
    requires n < |c|
    ensures Filled(b, handle, (a + c)[..|a| + n + 1]) == Filled(Filled(b, handle, a), handle, c[..n + 1])
  {
    assert (a + c)[..|a| + n + 1] == a + c[..n + 1];
    FilledAppend(b, handle, a, c[..n + 1]);
  }

  lemma {:induction false} PendingThenDone<T, I>(b: BuilderState<T>, handle: I -> Handled<T>, a: seq<I>, c: seq<I>)
    requires Ready(b) && AcceptedNum(handle, a) < b.alloc.capacity - b.alloc.counter <= AcceptedNum(handle, a + c)
    ensures Ready(Filled(b, handle, a))
    ensures CountAwareResult(b, handle, a + c) == CountAwareResult(Filled(b, handle, a), handle, c)
  {
    var need := b.alloc.capacity - b.alloc.counter;
    var m := AcceptedNum(handle, a);
    var b' := Filled(b, handle, a);
    FilledReady(b, handle, a);
    AcceptedNumAppend(handle, a, c);
    NthAcceptedSuffix(handle, a, c, need);
    var n := NthAccepted(handle, c, need - m);
    FilledPrefix(b, handle, a, c, n);
    assert b'.alloc.capacity - b'.alloc.counter == need - m <= AcceptedNum(handle, c);
    CountAwareResultAt(b', handle, c, n);
    CountAwareResultAt(b, handle, a + c, |a| + n);
  }

  /** One page of the count-aware query from item `j` on, on a ready builder, ends in
    * `CountAwareResult` of the page's remaining items, under either rules; nothing throws. */
  lemma {:induction false} CountAwarePage<T, I>(rules: Rules, handle: I -> Handled<T>, items: seq<I>, j: nat, final: bool, b: BuilderState<T>)
    requires j <= |items| && Ready(b)
    ensures var r := PageFold(items, j, final, Some(b), CountAwareOnItem(rules, handle));
      r.state == Some(CountAwareResult(b, handle, items[j..])) && r.error == None
    decreases |items| - j
  {
    var need := b.alloc.capacity - b.alloc.counter;
    var xs := items[j..];
    if j == |items| {
      assert xs == [];
      assert Filled(b, handle, xs) == b;
    } else {
      var x := items[j];
      assert xs == [x] + items[j + 1..];
      assert [x][1..] == [];
      match handle(x)
      case Rejected =>
        assert Filled(b, handle, [x]) == b;
        CountAwareResultPending(b, handle, [x], items[j + 1..]);
        CountAwarePage(rules, handle, items, j + 1, final, b);
      case Accepted(placed) =>
        var b1 := (if placed.Some? then b.Add(placed.value) else b).Count();
        assert Filled(b, handle, [x]) == b1;
        if !b1.alloc.HasEnoughCounter() {
          CountAwareResultPending(b, handle, [x], items[j + 1..]);
          CountAwarePage(rules, handle, items, j + 1, final, b1);
        } else {
          CountAwareResultDone(b, handle, [x], items[j + 1..]);
          assert [x][..NthAccepted(handle, [x], 1) + 1] == [x];
        }
    }
  }

  /** All the items of the responses the query fetches, page after page, up to the first
    * response after which it requests nothing more. */
  function Fetched<I>(pages: seq<Page<I>>): seq<I>
    decreases |pages|
  {
    if pages == [] then []
    else
      match pages[0]
      case PageFailed(_) => []
      case Page(items, more) => items + (if more then Fetched(pages[1..]) else [])
  }

  /** Corrected, a builder that has succeeded is left alone by every later page. */
  lemma {:induction false} ConsumedStays<T, I>(handle: I -> Handled<T>, pages: seq<Page<I>>, b: BuilderState<T>)
    requires b.consumed
    ensures QueryFold(pages, Some(b), CountAwareOnItem(Corrected, handle), NoCount()).state == Some(b)
    decreases |pages|
  {
    if pages != [] && pages[0].Page? {
      var items := pages[0].items;
      if pages[0].more {
        ConsumedStays(handle, pages[1..], b);
      }
    }
  }

  /** `db_query_by_sub_with_total_num_aware_builder` over every response: with the corrected
    * handler (or with a single response, where the two agree) a ready builder ends as
    * `CountAwareResult` of every fetched item. So it never succeeds before `max_counter`
    * accepted items, succeeds exactly once when they arrive, holding the values those items
    * placed, and rejected items are never counted. The query throws exactly when the last
    * response is a failure. */
  lemma {:induction false} CountAwareQuery<T, I>(rules: Rules, handle: I -> Handled<T>, pages: seq<Page<I>>, b: BuilderState<T>)
    requires WellEnded(pages) && Ready(b)
    requires rules == Corrected || |pages| == 1
    ensures var r := QueryFold(pages, Some(b), CountAwareOnItem(rules, handle), NoCount());
      var t := FirstTerminal(pages);
      && r.state == Some(CountAwareResult(b, handle, Fetched(pages)))
      && r.error == (if pages[t].PageFailed? then Some(pages[t].message) else None)
    decreases |pages|
  {
    QueryFetchesEveryPage(pages, Some(b), CountAwareOnItem(rules, handle), NoCount());
    match pages[0]
    case PageFailed(m) =>
      assert Fetched(pages) == [];
      assert Filled(b, handle, []) == b;
    case Page(items, more) =>
      CountAwarePage(rules, handle, items, 0, !more, b);
      assert items[0..] == items;
      if !more {
        assert Fetched(pages) == items + [] == items;
      } else {
        assert |pages| > 1;
        var rest := pages[1..];
        assert WellEnded(rest);
        assert Fetched(pages) == items + Fetched(rest);
        var need := b.alloc.capacity - b.alloc.counter;
        if AcceptedNum(handle, items) < need {
          CountAwareResultPending(b, handle, items, Fetched(rest));
          CountAwareQuery(rules, handle, rest, Filled(b, handle, items));
        } else {
          CountAwareResultDone(b, handle, items, Fetched(rest));
          ConsumedStays(handle, rest, CountAwareResult(b, handle, items));
        }
      }
  }

  /** The values a handler places come from items it accepted. */
  lemma {:induction false} PlacedByFrom<T, I>(handle: I -> Handled<T>, xs: seq<I>)
    ensures forall v :: v in PlacedBy(handle, xs) ==> exists i :: 0 <= i < |xs| && handle(xs[i]) == Accepted(Some(v))
    decreases |xs|
  {
    if xs != [] {
      PlacedByFrom(handle, xs[1..]);
      forall v | v in PlacedBy(handle, xs)
        ensures exists i :: 0 <= i < |xs| && handle(xs[i]) == Accepted(Some(v))
      {
        var h := handle(xs[0]);
        if !(h.Accepted? && h.placed.Some? && v == h.placed.value) {
          assert v in PlacedBy(handle, xs[1..]);
          var i :| 0 <= i < |xs[1..]| && handle(xs[1..][i]) == Accepted(Some(v));
          assert xs[i + 1] == xs[1..][i];
        }
      }
    }
  }

  /** What `CountAwareResult` means: some prefix of the items has been taken, placing its
    * values after the builder's own and counting its accepted items; the builder has
    * succeeded, handing over its allocator once, exactly when at least the missing count of
    * items was accepted, and then the counter is exactly `max_counter`. */
  lemma {:induction false} CountAwareResultShape<T, I>(b: BuilderState<T>, handle: I -> Handled<T>, xs: seq<I>)
    requires Ready(b)
    ensures var r := CountAwareResult(b, handle, xs);
      var need := b.alloc.capacity - b.alloc.counter;
      && (exists n :: 0 <= n <= |xs| && r.alloc.items == b.alloc.items + PlacedBy(handle, xs[..n])
                                    && r.alloc.counter == b.alloc.counter + AcceptedNum(handle, xs[..n]))
      && r.alloc.capacity == b.alloc.capacity
      && (r.consumed <==> AcceptedNum(handle, xs) >= need)
      && (r.consumed ==> r.alloc.counter == r.alloc.capacity && r.delivered == b.delivered + [r.alloc])
      && (!r.consumed ==> r.delivered == b.delivered && r.alloc.counter < r.alloc.capacity)
  {
    var need := b.alloc.capacity - b.alloc.counter;
    if AcceptedNum(handle, xs) < need {
      assert xs[..|xs|] == xs;
      assert CountAwareResult(b, handle, xs) == Filled(b, handle, xs[..|xs|]);
    } else {
      var k := NthAccepted(handle, xs, need);
      CountAwareResultAt(b, handle, xs, k);
      assert AcceptedNum(handle, xs[..k + 1]) == need by {
        NthAcceptedCount(handle, xs, need);
      }
      var f := Filled(b, handle, xs[..k + 1]);
      assert f.alloc.counter == f.alloc.capacity && !f.consumed;
      assert CountAwareResult(b, handle, xs) == f.Succeed();
    }
  }

  /** The attributes `get_funds` reads from a fund transaction record. */
  datatype FundTxItem = FundTxItem(name: string, broker: string, amount: int, capital: real,
                                   marketValue: real, price: real, date: int)

  /** `profit / capital`; a zero capital is taken to give a zero return. */
  function Roi(profit: real, capital: real): real
  {
    if capital == 0.0 then 0.0 else profit / capital
  }

  /** The fund `get_funds` places for a record: its numbers, the profit as market value less
    * capital and the return as profit over capital. */
  function FundOf(item: FundTxItem): (f: Fund)
    ensures f.amount == item.amount && f.capital == item.capital && f.marketValue == item.marketValue
    ensures f.price == item.price && f.date == item.date
    ensures f.profit == item.marketValue - item.capital
    ensures item.capital != 0.0 ==> f.profit == f.roi * item.capital
    ensures '\0' !in item.broker + item.name ==> f.broker == item.broker && f.name == item.name && f.id == ""
  {
    var profit := item.marketValue - item.capital;
    assert item.broker + item.name + "" == item.broker + item.name;
    NewFund(item.broker, item.name, "", item.amount, item.capital, item.marketValue, item.price, profit,
            Roi(profit, item.capital), item.date)
  }

  /** The handler of `get_funds`: a record whose name is not among the first `num` requested
    * fund names is rejected; any other places its fund. */
  function FundHandle(names: seq<string>, num: int): FundTxItem -> Handled<Fund>
  {
    (item: FundTxItem) => if MatchedStr(names, num, item.name) then Accepted(Some(FundOf(item))) else Rejected
  }

  /** `get_funds` on a ready builder: only records of requested funds count, each placing its
    * fund, and the builder succeeds once `max_counter` of them have arrived. */
  lemma {:induction false} FundsOnlyRequested(b: BuilderState<Fund>, names: seq<string>, num: int, xs: seq<FundTxItem>)
    requires Ready(b)
    ensures var r := CountAwareResult(b, FundHandle(names, num), xs);
      forall f :: f in r.alloc.items[|b.alloc.items|..] ==>
        exists i :: 0 <= i < |xs| && MatchedStr(names, num, xs[i].name) && f == FundOf(xs[i])
  {
    var handle := FundHandle(names, num);
    var r := CountAwareResult(b, handle, xs);
    CountAwareResultShape(b, handle, xs);
    var n :| 0 <= n <= |xs| && r.alloc.items == b.alloc.items + PlacedBy(handle, xs[..n])
                           && r.alloc.counter == b.alloc.counter + AcceptedNum(handle, xs[..n]);
    assert r.alloc.items[|b.alloc.items|..] == PlacedBy(handle, xs[..n]);
    PlacedByFrom(handle, xs[..n]);
    forall f | f in r.alloc.items[|b.alloc.items|..]
      ensures exists i :: 0 <= i < |xs| && MatchedStr(names, num, xs[i].name) && f == FundOf(xs[i])
    {
      var i :| 0 <= i < |xs[..n]| && handle(xs[..n][i]) == Accepted(Some(f));
      assert xs[..n][i] == xs[i];
    }
  }

  /** The attributes `get_latest_quotes` reads from a stock or currency record. */
  datatype QuoteItem = QuoteItem(name: string, lastPrice: real, lastPriceTime: int)

  function QuoteOf(item: QuoteItem): Quote
  {
    NewQuote(item.name, item.lastPriceTime, item.lastPrice)
  }

  /** The handler of `get_latest_quotes(builder, num, symbols)`: a record of a requested symbol
    * places its quote. As written, a record of any other symbol is still counted (the
    * handler answers true without placing anything); corrected, it is rejected. */
  function QuoteHandle(rules: Rules, symbols: seq<string>, num: int): QuoteItem -> Handled<Quote>
  {
    (item: QuoteItem) =>
      if MatchedStr(symbols, num, item.name) then Accepted(Some(QuoteOf(item)))
      else if rules == AsWritten then Accepted(None)
      else Rejected
  }

  /** As written, every record counts toward `max_counter`, requested or not. */
  lemma {:induction false} AsWrittenQuotesCountEveryItem(symbols: seq<string>, num: int, xs: seq<QuoteItem>)
    ensures AcceptedNum(QuoteHandle(AsWritten, symbols, num), xs) == |xs|
    decreases |xs|
  {
    if xs != [] {
      AsWrittenQuotesCountEveryItem(symbols, num, xs[1..]);
    }
  }

  /** The records of requested symbols, in order. */
  function Requested(symbols: seq<string>, num: int, xs: seq<QuoteItem>): (r: seq<QuoteItem>)
    ensures |r| <= |xs|
    ensures forall k :: 0 <= k < |r| ==> r[k] in xs && MatchedStr(symbols, num, r[k].name)
  {
    if xs == [] then []
    else (if MatchedStr(symbols, num, xs[0].name) then [xs[0]] else []) + Requested(symbols, num, xs[1..])
  }

  /** The quotes of records, in order. */
  function QuotesOf(xs: seq<QuoteItem>): (qs: seq<Quote>)
    ensures |qs| == |xs|
  {
    if xs == [] then [] else [QuoteOf(xs[0])] + QuotesOf(xs[1..])
  }

  /** Corrected, exactly the records of requested symbols count, and they place their quotes
    * in the order they arrive. */
  lemma {:induction false} CorrectedQuotesCountRequested(symbols: seq<string>, num: int, xs: seq<QuoteItem>)
    ensures AcceptedNum(QuoteHandle(Corrected, symbols, num), xs) == |Requested(symbols, num, xs)|
    ensures PlacedBy(QuoteHandle(Corrected, symbols, num), xs) == QuotesOf(Requested(symbols, num, xs))
    decreases |xs|
  {
    if xs != [] {
      CorrectedQuotesCountRequested(symbols, num, xs[1..]);
      var rest := Requested(symbols, num, xs[1..]);
      if MatchedStr(symbols, num, xs[0].name) {
        var r := [xs[0]] + rest;
        assert r[0] == xs[0] && r[1..] == rest;
      } else {
        assert Requested(symbols, num, xs) == [] + rest == rest;
      }
    }
  }

  /** A builder after the count-aware query left it in `r`. */
  method Restore<T>(builder: Builder<T>, r: BuilderState<T>)
    modifies builder
    ensures builder.State() == r
  {
    builder.alloc, builder.delivered, builder.consumed := r.alloc, r.delivered, r.consumed;
  }

  /** `get_funds(builder, funds_num, fund_update_date, fund_names)`, with the corrected
    * count-aware handler, over the responses `pages`: the request of that update date, and
    * the builder ends as `CountAwareResult` of the fetched records. */
  method GetFunds(builder: Builder<Fund>, fundsNum: int, fundUpdateDate: string, fundNames: seq<string>,
                  pages: seq<Page<FundTxItem>>) returns (request: Request, error: Option<string>)
    requires WellEnded(pages) && Ready(builder.State())
    modifies builder
    ensures request == FundsRequest(fundUpdateDate)
    ensures builder.State() == CountAwareResult(old(builder.State()), FundHandle(fundNames, fundsNum), Fetched(pages))
    ensures var t := FirstTerminal(pages); error == if pages[t].PageFailed? then Some(pages[t].message) else None
  {
    request := FundsRequest(fundUpdateDate);
    var handle := FundHandle(fundNames, fundsNum);
    var s;
    s, error := DbQuery(pages, Some(builder.State()), CountAwareOnItem(Corrected, handle), NoCount());
    CountAwareQuery(Corrected, handle, pages, builder.State());
    Restore(builder, s.value);
  }

  /** `get_latest_quotes(builder, num, symbols)`, corrected, over the responses `pages`: the
    * request of the stock records with a last price, and the builder ends as
    * `CountAwareResult` of the fetched records. */
  method GetSelectedQuotes(builder: Builder<Quote>, num: int, symbols: seq<string>, pages: seq<Page<QuoteItem>>)
    returns (request: Request, error: Option<string>)
    requires WellEnded(pages) && Ready(builder.State())
    modifies builder
    ensures request == LatestQuotesRequest(SUB_STOCK)
    ensures builder.State() == CountAwareResult(old(builder.State()), QuoteHandle(Corrected, symbols, num), Fetched(pages))
    ensures var t := FirstTerminal(pages); error == if pages[t].PageFailed? then Some(pages[t].message) else None
  {
    request := LatestQuotesRequest(SUB_STOCK);
    var handle := QuoteHandle(Corrected, symbols, num);
    var s;
    s, error := DbQuery(pages, Some(builder.State()), CountAwareOnItem(Corrected, handle), NoCount());
    CountAwareQuery(Corrected, handle, pages, builder.State());
    Restore(builder, s.value);
  }

  /** As written, a record of a symbol nobody asked for completes the count: asked for "B"
    * with one slot, a response holding "A" then "B" makes the builder succeed empty. */
  lemma {:induction false} AsWrittenSelectedQuotesCountUnmatched(a: QuoteItem, bq: QuoteItem)
    requires a.name == "A" && bq.name == "B"
    ensures QueryFold([Page([a, bq], false)], Some(CreateBuilder(1)), CountAwareOnItem(AsWritten, QuoteHandle(AsWritten, ["B"], 1)), NoCount()).state
         == Some(BuilderState(AllocState([], 1, 1), [AllocState([], 1, 1)], true))
  {
    var pages := [Page([a, bq], false)];
    var b := CreateBuilder<Quote>(1);
    var xs := [a, bq];
    assert Fetched(pages) == xs + [] == xs;
    assert !MatchedStr(["B"], 1, "A");
    var w := QuoteHandle(AsWritten, ["B"], 1);
    CountAwareQuery(AsWritten, w, pages, b);
    AsWrittenQuotesCountEveryItem(["B"], 1, xs);
    assert w(a) == Accepted(None);
    assert NthAccepted(w, xs, 1) == 0;
    assert xs[..1] == [a] && [a][1..] == [];
    assert Filled(b, w, [a]) == BuilderState(AllocState([], 1, 1), [], false);
    assert CountAwareResult(b, w, xs) == Filled(b, w, [a]).Succeed();
    var done: AllocState<Quote> := AllocState([], 1, 1);
    assert Filled(b, w, [a]).Succeed() == BuilderState(done, [] + [done], true);
    assert [] + [done] == [done];
    assert QueryFold(pages, Some(b), CountAwareOnItem(AsWritten, w), NoCount()).state == Some(CountAwareResult(b, w, xs));
  }

  /** Corrected, the same response delivers the quote of "B". */
  lemma {:induction false} CorrectedSelectedQuotesSkipUnmatched(a: QuoteItem, bq: QuoteItem)
    requires a.name == "A" && bq.name == "B"
    ensures QueryFold([Page([a, bq], false)], Some(CreateBuilder(1)), CountAwareOnItem(Corrected, QuoteHandle(Corrected, ["B"], 1)), NoCount()).state
         == Some(BuilderState(AllocState([QuoteOf(bq)], 1, 1), [AllocState([QuoteOf(bq)], 1, 1)], true))
  {
    var pages := [Page([a, bq], false)];
    var b := CreateBuilder<Quote>(1);
    var xs := [a, bq];
    assert Fetched(pages) == xs + [] == xs;
    assert MatchedStr(["B"], 1, "B") by { assert ["B"][0] == "B"; }
    assert !MatchedStr(["B"], 1, "A");
    var c := QuoteHandle(Corrected, ["B"], 1);
    CountAwareQuery(Corrected, c, pages, b);
    var done: AllocState<Quote> := AllocState([QuoteOf(bq)], 1, 1);
    assert CountAwareResult(b, c, xs) == BuilderState(done, [done], true) by {
      assert c(a) == Rejected && c(bq) == Accepted(Some(QuoteOf(bq)));
      assert xs[1..] == [bq] && [bq][1..] == [];
      assert AcceptedNum(c, [bq]) == 1 && PlacedBy(c, [bq]) == [QuoteOf(bq)];
      assert AcceptedNum(c, xs) == 1 && PlacedBy(c, xs) == [] + [QuoteOf(bq)];
      assert NthAccepted(c, [bq], 1) == 0;
      assert NthAccepted(c, xs, 1) == 1;
      assert xs[..2] == xs;
      assert Filled(b, c, xs) == BuilderState(done, [], false);
      assert Filled(b, c, xs).Succeed() == BuilderState(done, [] + [done], true);
      assert [] + [done] == [done];
    }
  }

  /** As written, `false` from the handler ends only the current page: with one slot, an
    * accepted record on a page that has a successor makes the builder succeed and delete
    * itself, and an accepted record on the next page then reaches the deleted builder
    * (undefined behaviour, here `None`). Corrected, the builder delivers once and is then
    * left alone. */
  lemma {:induction false} AsWrittenUseAfterSucceed(x: FundTxItem, y: FundTxItem)
    requires x.name == "F" && y.name == "F"
    ensures var pages := [Page([x], true), Page([y], false)];
      var b := CreateBuilder<Fund>(1);
      var handle := FundHandle(["F"], 1);
      && QueryFold(pages, Some(b), CountAwareOnItem(AsWritten, handle), NoCount()).state == None
      && QueryFold(pages, Some(b), CountAwareOnItem(Corrected, handle), NoCount()).state
         == Some(BuilderState(AllocState([FundOf(x)], 1, 1), [AllocState([FundOf(x)], 1, 1)], true))
  {
    var pages := [Page([x], true), Page([y], false)];
    var b := CreateBuilder<Fund>(1);
    var handle := FundHandle(["F"], 1);
    assert MatchedStr(["F"], 1, "F") by { assert ["F"][0] == "F"; }
    var done := BuilderState(AllocState([FundOf(x)], 1, 1), [AllocState([FundOf(x)], 1, 1)], true);
    assert handle(x) == Accepted(Some(FundOf(x))) && handle(y) == Accepted(Some(FundOf(y)));
    var b1 := b.Add(FundOf(x)).Count();
    assert b1 == BuilderState(AllocState([FundOf(x)], 1, 1), [], false);
    assert b1.Succeed() == done;
    assert CountAwareStep(AsWritten, handle, Some(b), x) == (Some(done), false);
    assert PageFold([x], 0, false, Some(b), CountAwareOnItem(AsWritten, handle)).state == Some(done);
    assert pages[1..] == [Page([y], false)];
    assert PageFold([y], 0, true, Some(done), CountAwareOnItem(AsWritten, handle)).state == None;
    assert Fetched(pages) == [x, y];
    CountAwareQuery(Corrected, handle, pages, b);
    assert [x, y][..1] == [x] && [x][1..] == [];
    assert NthAccepted(handle, [x, y], 1) == 0;
  }
}
