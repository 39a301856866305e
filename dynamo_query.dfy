/** The paging query loop of the DynamoDB data-access class: `db_query` of
  * cloud-src/dynamodb.cc, which follows last-evaluated keys from page to page, and the
  * single-page `db_query` of cloud_src/dynamodb.cc. The SDK is not modelled: the pages the
  * server returns are an input, and the two callbacks are pure state transformers over a
  * caller-chosen state `S`. An `onItem` that throws keeps whatever it did before throwing
  * (`Threw`); an `onItemCount` that throws (`Err`) has changed nothing. */
module DynamoQuery {
  import opened Wrappers

  /** One response of `db->Query(q)`: the items of a page and whether its last-evaluated key
    * is non-empty (more pages follow), or a failed request with its error message. */
  datatype Page<I> = Page(items: seq<I>, more: bool) | PageFailed(message: string)
  {
    /** A response after which the loop requests nothing more. */
    predicate Terminal() { PageFailed? || !more }
  }

  /** What one `onItem` call did: returned `cont` with the new state, or threw `message`
    * after its own work had brought the state to `state` (nothing is rolled back). */
  datatype ItemResult<S> = Returned(state: S, cont: bool) | Threw(state: S, message: string)

  /** `OnItem`: given the state, the `is_last` flag and the item, what the call did. */
  type OnItem<!S, -I> = (S, bool, I) -> ItemResult<S>

  /** `OnItemCount`: given the state and a page's count, the new state, or a thrown error. */
  type OnItemCount<!S> = (S, int) -> Result<S>

  /** One callback invocation, as an observer would log it: `onItemCount(n)`, or
    * `onItem(isLast, item)` that returned `cont` (false too when it threw). */
  datatype Call<I> = CountCall(n: int) | ItemCall(isLast: bool, item: I, cont: bool)

  /** The final state, the callbacks invoked in order, and the error thrown out of the query,
    * if any. */
  datatype Outcome<S, I> = Outcome(state: S, calls: seq<Call<I>>, error: Option<string>)

  /** The item loop of one page from item `j` on; `final` is "the last-evaluated key is
    * empty", and `is_last` is true for the page's last item exactly on a final page. */
  function PageFold<S, I>(items: seq<I>, j: nat, final: bool, s: S, onItem: OnItem<S, I>): Outcome<S, I>
    requires j <= |items|
    decreases |items| - j
  {
    if j == |items| then Outcome(s, [], None)
    else
      var isLast := final && j + 1 == |items|;
      match onItem(s, isLast, items[j])
      case Threw(s1, e) => Outcome(s1, [ItemCall(isLast, items[j], false)], Some(e))
      case Returned(s1, cont) =>
        if !cont then Outcome(s1, [ItemCall(isLast, items[j], false)], None)
        else
          var r := PageFold(items, j + 1, final, s1, onItem);
          Outcome(r.state, [ItemCall(isLast, items[j], true)] + r.calls, r.error)
  }

  /** The page loop of `db_query`: a failed request throws its message; otherwise
    * `onItemCount` gets the page's count, the page's items go to `onItem`, and the next page
    * is requested as long as the last-evaluated key is non-empty. */
  function QueryFold<S, I>(pages: seq<Page<I>>, s: S, onItem: OnItem<S, I>, onItemCount: OnItemCount<S>): Outcome<S, I>
    decreases |pages|
  {
    if pages == [] then Outcome(s, [], None)
    else
      match pages[0]
      case PageFailed(m) => Outcome(s, [], Some(m))
      case Page(items, more) =>
        match onItemCount(s, |items|)
        case Err(e) => Outcome(s, [CountCall(|items|)], Some(e))
        case Ok(s1) =>
          var p := PageFold(items, 0, !more, s1, onItem);
          if p.error.Some? || !more then Outcome(p.state, [CountCall(|items|)] + p.calls, p.error)
          else
            var r := QueryFold(pages[1..], p.state, onItem, onItemCount);
            Outcome(r.state, [CountCall(|items|)] + p.calls + r.calls, r.error)
  }

  /** An item the handler accepts and continues past hands the rest of the page the new
    * state. */
  lemma PageFoldContinues<S, I>(items: seq<I>, j: nat, final: bool, s: S, onItem: OnItem<S, I>, s1: S)
    requires j < |items| && onItem(s, final && j + 1 == |items|, items[j]) == Returned(s1, true)
    ensures PageFold(items, j, final, s, onItem).state == PageFold(items, j + 1, final, s1, onItem).state
    ensures PageFold(items, j, final, s, onItem).error == PageFold(items, j + 1, final, s1, onItem).error
  {
  }

  /** A query answered by one final response is its count callback followed by the fold
    * over that response's items. */
  lemma QueryFoldSingle<S, I>(items: seq<I>, s: S, onItem: OnItem<S, I>, onItemCount: OnItemCount<S>, s1: S)
    requires onItemCount(s, |items|) == Ok(s1)
    ensures QueryFold([Page(items, false)], s, onItem, onItemCount).state == PageFold(items, 0, true, s1, onItem).state
    ensures QueryFold([Page(items, false)], s, onItem, onItemCount).error == PageFold(items, 0, true, s1, onItem).error
  {
  }

  /** A final response whose count callback returns `s1`: the fold over its items. */
  lemma {:induction false} QueryFoldLastPage<S, I>(pages: seq<Page<I>>, s: S, onItem: OnItem<S, I>, onItemCount: OnItemCount<S>, s1: S)
    requires pages != [] && pages[0].Page? && !pages[0].more && onItemCount(s, |pages[0].items|) == Ok(s1)
    ensures QueryFold(pages, s, onItem, onItemCount).state == PageFold(pages[0].items, 0, true, s1, onItem).state
    ensures QueryFold(pages, s, onItem, onItemCount).error == PageFold(pages[0].items, 0, true, s1, onItem).error
  {
  }

  /** A response with a successor whose count callback returns `s1` and whose items throw
    * nothing: the fold over its items, then the following responses. */
  lemma {:induction false} QueryFoldMorePage<S, I>(pages: seq<Page<I>>, s: S, onItem: OnItem<S, I>, onItemCount: OnItemCount<S>, s1: S, s2: S)
    requires pages != [] && pages[0].Page? && pages[0].more && onItemCount(s, |pages[0].items|) == Ok(s1)
    requires PageFold(pages[0].items, 0, false, s1, onItem) == Outcome(s2, PageFold(pages[0].items, 0, false, s1, onItem).calls, None)
    ensures QueryFold(pages, s, onItem, onItemCount).state == QueryFold(pages[1..], s2, onItem, onItemCount).state
    ensures QueryFold(pages, s, onItem, onItemCount).error == QueryFold(pages[1..], s2, onItem, onItemCount).error
  {
  }

  /** The concatenation of `g` over `xs`. */
  function Gather<E, I>(g: I -> seq<E>, xs: seq<I>): seq<E>
  {
    if xs == [] then [] else g(xs[0]) + Gather(g, xs[1..])
  }

  /** A handler that only appends `g(item)` to a log and continues leaves the page's log
    * extended by `g` of every remaining item, in order, and throws nothing. */
  lemma {:induction false} PageFoldAppends<E, I>(items: seq<I>, j: nat, final: bool, s: seq<E>,
                                                 onItem: OnItem<seq<E>, I>, g: I -> seq<E>)
    requires j <= |items|
    requires forall t: seq<E>, b: bool, k :: j <= k < |items| ==> onItem(t, b, items[k]) == Returned(t + g(items[k]), true)
    ensures PageFold(items, j, final, s, onItem).state == s + Gather(g, items[j..])
    ensures PageFold(items, j, final, s, onItem).error == None
    decreases |items| - j
  {
    if j == |items| {
      assert items[j..] == [] && s + [] == s;
    } else {
      var s1 := s + g(items[j]);
      assert onItem(s, final && j + 1 == |items|, items[j]) == Returned(s1, true);
      PageFoldContinues(items, j, final, s, onItem, s1);
      PageFoldAppends(items, j + 1, final, s1, onItem, g);
      assert items[j..][0] == items[j] && items[j..][1..] == items[j + 1..];
      assert Gather(g, items[j..]) == g(items[j]) + Gather(g, items[j + 1..]);
    }
  }

  /** The responses the server gives end with one after which nothing more is requested. */
  predicate WellEnded<I>(pages: seq<Page<I>>)
  {
    pages != [] && pages[|pages| - 1].Terminal()
  }

  /** `db_query(index, key_condition_expr, attr_names, filter_expr, values, onItem, onItemCount)`
    * as a loop over the server's responses: the state and the exception it ends with. */
  method DbQuery<S, I>(pages: seq<Page<I>>, s0: S, onItem: OnItem<S, I>, onItemCount: OnItemCount<S>)
    returns (s: S, error: Option<string>)
    requires WellEnded(pages)
    ensures s == QueryFold(pages, s0, onItem, onItemCount).state
    ensures error == QueryFold(pages, s0, onItem, onItemCount).error
  {
    s := s0;
    error := None;
    var k := 0;
    var done := false;
    while !done
      invariant 0 <= k < |pages|
      invariant !done ==> QueryFold(pages, s0, onItem, onItemCount).state == QueryFold(pages[k..], s, onItem, onItemCount).state
      invariant !done ==> QueryFold(pages, s0, onItem, onItemCount).error == QueryFold(pages[k..], s, onItem, onItemCount).error
      invariant done ==> s == QueryFold(pages, s0, onItem, onItemCount).state
      invariant done ==> error == QueryFold(pages, s0, onItem, onItemCount).error
      decreases |pages| - k, if done then 0 else 1
    {
      assert pages[k..][0] == pages[k] && pages[k..][1..] == pages[k + 1..];
      if pages[k].PageFailed? {
        error := Some(pages[k].message);
        done := true;
      } else {
        var items := pages[k].items;
        var more := pages[k].more;
        var c := onItemCount(s, |items|);
        if c.Err? {
          error := Some(c.message);
          done := true;
        } else {
          s := c.value;
          ghost var s1 := s;
          var j := 0;
          var stop := false;
          var pageError: Option<string> := None;
          while j < |items| && !stop
            invariant 0 <= j <= |items|
            invariant !stop ==> pageError == None
            invariant !stop ==> PageFold(items, 0, !more, s1, onItem).state == PageFold(items, j, !more, s, onItem).state
            invariant !stop ==> PageFold(items, 0, !more, s1, onItem).error == PageFold(items, j, !more, s, onItem).error
            invariant stop ==> PageFold(items, 0, !more, s1, onItem).state == s
            invariant stop ==> PageFold(items, 0, !more, s1, onItem).error == pageError
            decreases |items| - j, if stop then 0 else 1
          {
            var isLast := !more && j + 1 == |items|;
            var res := onItem(s, isLast, items[j]);
            s := res.state;
            if res.Threw? {
              pageError := Some(res.message);
              stop := true;
            } else if !res.cont {
              stop := true;
            } else {
              j := j + 1;
            }
          }
          if pageError.Some? || !more {
            error := pageError;
            done := true;
          } else {
            k := k + 1;
          }
        }
      }
    }
  }

  /** The `db_query` of cloud_src/dynamodb.cc: one request, no paging. A failed request
    * throws before any callback; otherwise `onItemCount(count)` and then the items, with
    * `is_last` on the one whose 1-based index is the count. */
  method SinglePageDbQuery<S, I>(response: Result<seq<I>>, s0: S, onItem: OnItem<S, I>, onItemCount: OnItemCount<S>)
    returns (s: S, error: Option<string>)
    ensures response.Err? ==> s == s0 && error == Some(response.message)
    ensures response.Ok? ==> s == QueryFold([Page(response.value, false)], s0, onItem, onItemCount).state
    ensures response.Ok? ==> error == QueryFold([Page(response.value, false)], s0, onItem, onItemCount).error
  {
    if response.Err? {
      return s0, Some(response.message);
    }
    var items := response.value;
    var c := onItemCount(s0, |items|);
    if c.Err? {
      return s0, Some(c.message);
    }
    s := c.value;
    ghost var s1 := s;
    error := None;
    var itemIdx := 0;
    var stop := false;
    while itemIdx < |items| && !stop
      invariant 0 <= itemIdx <= |items|
      invariant !stop ==> error == None
      invariant !stop ==> PageFold(items, 0, true, s1, onItem).state == PageFold(items, itemIdx, true, s, onItem).state
      invariant !stop ==> PageFold(items, 0, true, s1, onItem).error == PageFold(items, itemIdx, true, s, onItem).error
      invariant stop ==> PageFold(items, 0, true, s1, onItem).state == s
      invariant stop ==> PageFold(items, 0, true, s1, onItem).error == error
      decreases |items| - itemIdx, if stop then 0 else 1
    {
      var res := onItem(s, itemIdx + 1 == |items|, items[itemIdx]);
      s := res.state;
      if res.Threw? {
        error := Some(res.message);
        stop := true;
      } else if !res.cont {
        stop := true;
      } else {
        itemIdx := itemIdx + 1;
      }
    }
  }

  /** The index of the first response after which the loop requests nothing more. */
  function FirstTerminal<I>(pages: seq<Page<I>>): (t: nat)
    requires WellEnded(pages)
    ensures t < |pages| && pages[t].Terminal()
    ensures forall k :: 0 <= k < t ==> !pages[k].Terminal()
    decreases |pages|
  {
    if pages[0].Terminal() then 0 else 1 + FirstTerminal(pages[1..])
  }

  /** The `onItemCount` arguments in a call log. */
  function CountsOf<I>(calls: seq<Call<I>>): seq<int>
  {
    if calls == [] then []
    else (if calls[0].CountCall? then [calls[0].n] else []) + CountsOf(calls[1..])
  }

  lemma {:induction false} CountsOfAppend<I>(a: seq<Call<I>>, b: seq<Call<I>>)
    ensures CountsOf(a + b) == CountsOf(a) + CountsOf(b)
    decreases |a|
  {
    if a == [] {
      assert a + b == b;
    } else {
      assert (a + b)[0] == a[0] && (a + b)[1..] == a[1..] + b;
      CountsOfAppend(a[1..], b);
    }
  }

  /** The page counts `onItemCount` receives when every page up to the first terminal
    * response `t` is fetched. */
  function FetchedCounts<I>(pages: seq<Page<I>>, t: nat): seq<int>
    requires t < |pages| && forall k :: 0 <= k < t ==> pages[k].Page?
    decreases t
  {
    if t == 0 then (if pages[0].Page? then [|pages[0].items|] else [])
    else
      assert forall k :: 0 <= k < t - 1 ==> pages[1..][k] == pages[k + 1];
      [|pages[0].items|] + FetchedCounts(pages[1..], t - 1)
  }

  /** Every `is_last` call is the last callback and hands over the last item of a final page. */
  ghost predicate IsLastOnlyLast<I>(pages: seq<Page<I>>, calls: seq<Call<I>>)
  {
    forall i :: 0 <= i < |calls| && calls[i].ItemCall? && calls[i].isLast ==>
      i == |calls| - 1 && LastOfFinalPage(pages, calls[i].item)
  }

  /** After an `onItem` that answered false, the next callback (if any) is a page count. */
  predicate StopsOnlyThePage<I>(calls: seq<Call<I>>)
  {
    forall i :: 0 <= i < |calls| - 1 && calls[i].ItemCall? && !calls[i].cont ==> calls[i + 1].CountCall?
  }

  /** Some `onItem` call had `is_last` set. */
  predicate SignalsLast<I>(calls: seq<Call<I>>)
  {
    exists i :: 0 <= i < |calls| && calls[i].ItemCall? && calls[i].isLast
  }

  /** `x` is the last item of a non-empty page whose last-evaluated key is empty. */
  ghost predicate LastOfFinalPage<I>(pages: seq<Page<I>>, x: I)
  {
    exists t :: 0 <= t < |pages| && pages[t].Page? && !pages[t].more && pages[t].items != [] && x == pages[t].items[|pages[t].items| - 1]
  }

  /** Facts about one page's item loop: the calls are the page's items from `j` on, in
    * order, each with its `is_last` flag; only the last of them can have stopped the page;
    * and with callbacks that do not throw, nothing is thrown. */
  lemma {:induction false} PageFoldShape<S, I>(items: seq<I>, j: nat, final: bool, s: S, onItem: OnItem<S, I>)
    requires j <= |items|
    ensures var r := PageFold(items, j, final, s, onItem);
      && |r.calls| <= |items| - j
      && (forall k :: 0 <= k < |r.calls| ==> r.calls[k].ItemCall? && r.calls[k].item == items[j + k])
      && (forall k :: 0 <= k < |r.calls| ==> r.calls[k].isLast == (final && j + k + 1 == |items|))
      && (forall k :: 0 <= k < |r.calls| - 1 ==> r.calls[k].cont)
      && (r.error.Some? ==> r.calls != [] && !r.calls[|r.calls| - 1].cont)
      && (r.calls != [] && r.calls[|r.calls| - 1].cont ==> |r.calls| == |items| - j)
      && (r.calls == [] ==> j == |items|)
      && CountsOf(r.calls) == []
  {
    PageFoldItems(items, j, final, s, onItem);
    PageFoldStops(items, j, final, s, onItem);
    PageFoldCounts(items, j, final, s, onItem);
  }

  lemma {:induction false} PageFoldItems<S, I>(items: seq<I>, j: nat, final: bool, s: S, onItem: OnItem<S, I>)
    requires j <= |items|
    ensures |PageFold(items, j, final, s, onItem).calls| <= |items| - j
    ensures forall k :: 0 <= k < |PageFold(items, j, final, s, onItem).calls| ==>
      && PageFold(items, j, final, s, onItem).calls[k].ItemCall?
      && PageFold(items, j, final, s, onItem).calls[k].item == items[j + k]
      && PageFold(items, j, final, s, onItem).calls[k].isLast == (final && j + k + 1 == |items|)
    decreases |items| - j
  {
    if j < |items| {
      var isLast := final && j + 1 == |items|;
      match onItem(s, isLast, items[j])
      case Threw(_, _) =>
      case Returned(s1, cont) =>
        if cont {
          PageFoldItems(items, j + 1, final, s1, onItem);
        }
    }
  }

  lemma {:induction false} PageFoldStops<S, I>(items: seq<I>, j: nat, final: bool, s: S, onItem: OnItem<S, I>)
    requires j <= |items|
    ensures var calls := PageFold(items, j, final, s, onItem).calls;
      && (forall k :: 0 <= k < |calls| - 1 ==> calls[k].ItemCall? && calls[k].cont)
      && (PageFold(items, j, final, s, onItem).error.Some? ==> calls != [] && calls[|calls| - 1].ItemCall? && !calls[|calls| - 1].cont)
      && (calls != [] && calls[|calls| - 1].ItemCall? && calls[|calls| - 1].cont ==> |calls| == |items| - j)
      && (calls == [] ==> j == |items|)
    decreases |items| - j
  {
    if j < |items| {
      var isLast := final && j + 1 == |items|;
      match onItem(s, isLast, items[j])
      case Threw(_, _) =>
      case Returned(s1, cont) =>
        if cont {
          PageFoldStops(items, j + 1, final, s1, onItem);
        }
    }
  }

  lemma {:induction false} PageFoldCounts<S, I>(items: seq<I>, j: nat, final: bool, s: S, onItem: OnItem<S, I>)
    requires j <= |items|
    ensures CountsOf(PageFold(items, j, final, s, onItem).calls) == []
    decreases |items| - j
  {
    if j < |items| {
      var isLast := final && j + 1 == |items|;
      match onItem(s, isLast, items[j])
      case Threw(_, _) =>
      case Returned(s1, cont) =>
        if cont {
          PageFoldCounts(items, j + 1, final, s1, onItem);
          CountsOfAppend([ItemCall(isLast, items[j], true)], PageFold(items, j + 1, final, s1, onItem).calls);
        }
    }
  }

  /** With callbacks that never throw, the item loop throws nothing. */
  lemma {:induction false} PageFoldNoError<S, I>(items: seq<I>, j: nat, final: bool, s: S, onItem: OnItem<S, I>)
    requires j <= |items|
    requires forall s': S, b: bool, x: I :: onItem(s', b, x).Returned?
    ensures PageFold(items, j, final, s, onItem).error == None
    decreases |items| - j
  {
    if j < |items| {
      var isLast := final && j + 1 == |items|;
      assert onItem(s, isLast, items[j]).Returned?;
      var s1 := onItem(s, isLast, items[j]).state;
      if onItem(s, isLast, items[j]).cont {
        PageFoldNoError(items, j + 1, final, s1, onItem);
      }
    }
  }

  /** Pages keep being requested while the last-evaluated key is non-empty, whatever `onItem`
    * answers: with callbacks that do not throw, `onItemCount` is called once per page up to
    * the first terminal response, with that page's count, and the query throws exactly when
    * that response is a failure, with its message. */
  lemma {:induction false} QueryFetchesEveryPage<S, I>(pages: seq<Page<I>>, s: S, onItem: OnItem<S, I>, onItemCount: OnItemCount<S>)
    requires WellEnded(pages)
    requires forall s': S, b: bool, x: I :: onItem(s', b, x).Returned?
    requires forall s': S, n: int :: onItemCount(s', n).Ok?
    ensures var r := QueryFold(pages, s, onItem, onItemCount);
      var t := FirstTerminal(pages);
      && CountsOf(r.calls) == FetchedCounts(pages, t)
      && r.error == (if pages[t].PageFailed? then Some(pages[t].message) else None)
    decreases |pages|
  {
    var t := FirstTerminal(pages);
    match pages[0]
    case PageFailed(m) =>
    case Page(items, more) =>
      var s1 := onItemCount(s, |items|).value;
      var p := PageFold(items, 0, !more, s1, onItem);
      PageFoldShape(items, 0, !more, s1, onItem);
      PageFoldNoError(items, 0, !more, s1, onItem);
      CountsOfAppend([CountCall(|items|)], p.calls);
      if more {
        var r := QueryFold(pages[1..], p.state, onItem, onItemCount);
        QueryFetchesEveryPage(pages[1..], p.state, onItem, onItemCount);
        CountsOfAppend([CountCall(|items|)] + p.calls, r.calls);
        assert FirstTerminal(pages) == 1 + FirstTerminal(pages[1..]);
      }
  }

  /** `is_last` is only ever true for the last item of a page whose last-evaluated key is
    * empty, and that is the last callback of the query. */
  lemma {:induction false} IsLastOnlyAtTheEnd<S, I>(pages: seq<Page<I>>, s: S, onItem: OnItem<S, I>, onItemCount: OnItemCount<S>)
    ensures IsLastOnlyLast(pages, QueryFold(pages, s, onItem, onItemCount).calls)
    decreases |pages|
  {
    if pages != [] {
      match pages[0]
      case PageFailed(m) =>
      case Page(items, more) =>
        match onItemCount(s, |items|)
        case Err(e) =>
        case Ok(s1) =>
          var p := PageFold(items, 0, !more, s1, onItem);
          PageFoldShape(items, 0, !more, s1, onItem);
          var head := [CountCall(|items|)] + p.calls;
          var r := QueryFold(pages, s, onItem, onItemCount);
          if p.error.Some? || !more {
            assert r.calls == head;
            forall i | 0 <= i < |r.calls| && r.calls[i].ItemCall? && r.calls[i].isLast
              ensures i == |r.calls| - 1 && LastOfFinalPage(pages, r.calls[i].item)
            {
              assert r.calls[i] == p.calls[i - 1];
              assert pages[0].Page? && !pages[0].more && items != [];
              assert r.calls[i].item == pages[0].items[|pages[0].items| - 1];
            }
          } else {
            var rest := QueryFold(pages[1..], p.state, onItem, onItemCount);
            assert r.calls == head + rest.calls;
            IsLastOnlyAtTheEnd(pages[1..], p.state, onItem, onItemCount);
            forall i | 0 <= i < |r.calls| && r.calls[i].ItemCall? && r.calls[i].isLast
              ensures i == |r.calls| - 1 && LastOfFinalPage(pages, r.calls[i].item)
            {
              if i < |head| {
                assert false;
              }
              var j := i - |head|;
              assert 0 <= j < |rest.calls| && r.calls[i] == rest.calls[j];
              assert j == |rest.calls| - 1 && LastOfFinalPage(pages[1..], rest.calls[j].item);
              var x := r.calls[i].item;
              var t :| 0 <= t < |pages[1..]| && pages[1..][t].Page? && !pages[1..][t].more && pages[1..][t].items != []
                && x == pages[1..][t].items[|pages[1..][t].items| - 1];
              assert pages[t + 1] == pages[1..][t];
            }
          }
    }
  }

  /** `onItem` returning false stops the rest of that page only: the next callback, if any,
    * is the next page's `onItemCount`. */
  lemma {:induction false} FalseStopsThePageOnly<S, I>(pages: seq<Page<I>>, s: S, onItem: OnItem<S, I>, onItemCount: OnItemCount<S>)
    ensures StopsOnlyThePage(QueryFold(pages, s, onItem, onItemCount).calls)
    decreases |pages|
  {
    if pages != [] {
      match pages[0]
      case PageFailed(m) =>
      case Page(items, more) =>
        match onItemCount(s, |items|)
        case Err(e) =>
        case Ok(s1) =>
          var p := PageFold(items, 0, !more, s1, onItem);
          PageFoldShape(items, 0, !more, s1, onItem);
          var head := [CountCall(|items|)] + p.calls;
          var r := QueryFold(pages, s, onItem, onItemCount);
          if p.error.Some? || !more {
            assert r.calls == head;
          } else {
            var rest := QueryFold(pages[1..], p.state, onItem, onItemCount);
            assert r.calls == head + rest.calls;
            FalseStopsThePageOnly(pages[1..], p.state, onItem, onItemCount);
            assert p.error.None?;
            forall i | 0 <= i < |r.calls| - 1 && r.calls[i].ItemCall? && !r.calls[i].cont
              ensures r.calls[i + 1].CountCall?
            {
              if i < |head| - 1 {
                assert false;
              } else if i == |head| - 1 {
                assert r.calls[i + 1] == rest.calls[0];
                QueryStartsWithCount(pages[1..], p.state, onItem, onItemCount);
              } else {
                var j := i - |head|;
                assert 0 <= j < |rest.calls| - 1 && r.calls[i] == rest.calls[j];
                assert rest.calls[j].ItemCall? && !rest.calls[j].cont;
                assert r.calls[i + 1] == rest.calls[j + 1];
              }
            }
          }
    }
  }

  /** Every query begins with `onItemCount` unless its first request fails. */
  lemma QueryStartsWithCount<S, I>(pages: seq<Page<I>>, s: S, onItem: OnItem<S, I>, onItemCount: OnItemCount<S>)
    ensures var r := QueryFold(pages, s, onItem, onItemCount);
      r.calls != [] ==> r.calls[0].CountCall?
  {
  }

  /** With `onItem` always answering true and no callback throwing, a query whose final page
    * is non-empty ends with exactly one `is_last` item; one whose final page is empty never
    * signals `is_last` at all. */
  lemma {:induction false} IsLastFiresIffFinalPageNonEmpty<S, I>(pages: seq<Page<I>>, s: S, onItem: OnItem<S, I>, onItemCount: OnItemCount<S>)
    requires WellEnded(pages) && pages[FirstTerminal(pages)].Page?
    requires forall s': S, b: bool, x: I :: onItem(s', b, x).Returned? && onItem(s', b, x).cont
    requires forall s': S, n: int :: onItemCount(s', n).Ok?
    ensures SignalsLast(QueryFold(pages, s, onItem, onItemCount).calls) <==> pages[FirstTerminal(pages)].items != []
    decreases |pages|
  {
    var r := QueryFold(pages, s, onItem, onItemCount);
    match pages[0]
    case PageFailed(m) =>
    case Page(items, more) =>
      var s1 := onItemCount(s, |items|).value;
      var p := PageFold(items, 0, !more, s1, onItem);
      PageFoldNoError(items, 0, !more, s1, onItem);
      PageSignalsLast(items, more, s1, onItem);
      var head := [CountCall(|items|)] + p.calls;
      if more {
        var rest := QueryFold(pages[1..], p.state, onItem, onItemCount);
        assert r.calls == head + rest.calls;
        SignalsLastAppend(head, rest.calls);
        IsLastFiresIffFinalPageNonEmpty(pages[1..], p.state, onItem, onItemCount);
        assert FirstTerminal(pages) == 1 + FirstTerminal(pages[1..]);
      }
  }

  /** A log signals `is_last` exactly when one of its two halves does. */
  lemma SignalsLastAppend<I>(a: seq<Call<I>>, b: seq<Call<I>>)
    ensures SignalsLast(a + b) <==> SignalsLast(a) || SignalsLast(b)
  {
    if SignalsLast(a + b) {
      var i :| 0 <= i < |a + b| && (a + b)[i].ItemCall? && (a + b)[i].isLast;
      if i >= |a| {
        assert b[i - |a|] == (a + b)[i];
      }
    }
    if SignalsLast(a) {
      var i :| 0 <= i < |a| && a[i].ItemCall? && a[i].isLast;
      assert (a + b)[i] == a[i];
    }
    if SignalsLast(b) {
      var i :| 0 <= i < |b| && b[i].ItemCall? && b[i].isLast;
      assert (a + b)[i + |a|] == b[i];
    }
  }

  /** One page whose `onItem` always answers true, preceded by its count, signals `is_last`
    * exactly when it is a non-empty final page. */
  lemma PageSignalsLast<S, I>(items: seq<I>, more: bool, s1: S, onItem: OnItem<S, I>)
    requires forall s': S, b: bool, x: I :: onItem(s', b, x).Returned? && onItem(s', b, x).cont
    ensures SignalsLast([CountCall(|items|)] + PageFold(items, 0, !more, s1, onItem).calls) <==> !more && items != []
  {
    var p := PageFold(items, 0, !more, s1, onItem);
    PageFoldShape(items, 0, !more, s1, onItem);
    PageFoldVisitsAll(items, 0, !more, s1, onItem);
    var head := [CountCall(|items|)] + p.calls;
    if !more && items != [] {
      assert head[|items|] == p.calls[|items| - 1];
    }
    if SignalsLast(head) {
      var i :| 0 <= i < |head| && head[i].ItemCall? && head[i].isLast;
      assert head[i] == p.calls[i - 1];
    }
  }

  /** An item loop whose `onItem` always answers true visits every item. */
  lemma {:induction false} PageFoldVisitsAll<S, I>(items: seq<I>, j: nat, final: bool, s: S, onItem: OnItem<S, I>)
    requires j <= |items|
    requires forall s': S, b: bool, x: I :: onItem(s', b, x).Returned? && onItem(s', b, x).cont
    ensures |PageFold(items, j, final, s, onItem).calls| == |items| - j
    decreases |items| - j
  {
    if j < |items| {
      var isLast := final && j + 1 == |items|;
      PageFoldVisitsAll(items, j + 1, final, onItem(s, isLast, items[j]).state, onItem);
    }
  }

  /** `find_matched_str(head, num, find)`: walks the first `num` strings one by one and
    * stops at the first equal one. */
  method FindMatchedStr(head: seq<string>, num: int, find: string) returns (found: bool)
    requires num <= |head|
    ensures found <==> MatchedStr(head, num, find)
  {
    var i := 0;
    while i < num
      invariant 0 <= i <= |head| && (num >= 0 ==> i <= num)
      invariant forall k :: 0 <= k < i ==> head[k] != find
    {
      if head[i] == find {
        return true;
      }
      i := i + 1;
    }
    return false;
  }

  /** One of the first `num` strings of `head` equals `find` (none when `num <= 0`). */
  predicate MatchedStr(head: seq<string>, num: int, find: string)
  {
    exists i :: 0 <= i < num && i < |head| && head[i] == find
  }
}
