/** The generic result builder and the broker, string, fund and quote builders of
  * storage.hxx. Query results arrive as calls on a builder; the builder folds them into
  * allocators and, once complete, hands the allocator to its `onSuccess` callback and
  * deletes itself. A builder holds its allocator by value here, and the callbacks it
  * would call are recorded instead of run. */
module Builders {
  import opened Wrappers
  import opened Alloc
  import opened Core

  /** The abstract value of a `Builder<T>`: its allocator, every allocator handed to
    * `onSuccess` so far, and whether the builder has run `delete this`. */
  datatype BuilderState<T> = BuilderState(alloc: AllocState<T>, delivered: seq<AllocState<T>>, consumed: bool)
  {
    /** `succeed()`: `onSuccess(alloc)`, then `delete this`. */
    function Succeed(): BuilderState<T>
      requires !consumed
    {
      this.(delivered := delivered + [alloc], consumed := true)
    }

    /** `failed()`: `delete this` without calling `onSuccess`. */
    function Failed(): BuilderState<T>
      requires !consumed
    {
      this.(consumed := true)
    }

    /** `new (alloc->next()) T(...)`. */
    function Add(x: T): BuilderState<T>
      requires !consumed && alloc.HasRoom()
    {
      this.(alloc := alloc.Next(x))
    }

    /** `alloc->inc_counter()`. */
    function Count(): BuilderState<T>
      requires !consumed
    {
      this.(alloc := alloc.IncCounter())
    }
  }

  /** `Builder<T>::create(num, onSuccess)`. */
  function CreateBuilder<T>(num: nat): (b: BuilderState<T>)
    ensures !b.consumed && b.delivered == [] && b.alloc == NewAlloc(num)
  {
    BuilderState(NewAlloc(num), [], false)
  }

  /** One call a query handler makes on a builder. */
  datatype BuilderCall<T> = AddCall(x: T) | CountCall | SucceedCall | FailedCall

  /** The builder after `calls`, in order. `None` when a call reaches a builder that has
    * already deleted itself, or a placement runs past the end of the buffer: both are
    * undefined behaviour in the source. */
  function RunBuilder<T>(b: BuilderState<T>, calls: seq<BuilderCall<T>>): Option<BuilderState<T>>
    decreases |calls|
  {
    if calls == [] then Some(b)
    else if b.consumed then None
    else
      match calls[0]
      case AddCall(x) => if b.alloc.HasRoom() then RunBuilder(b.Add(x), calls[1..]) else None
      case CountCall => RunBuilder(b.Count(), calls[1..])
      case SucceedCall => RunBuilder(b.Succeed(), calls[1..])
      case FailedCall => RunBuilder(b.Failed(), calls[1..])
  }

  /** The values placed by `calls`, in order. */
  function Added<T>(calls: seq<BuilderCall<T>>): (xs: seq<T>)
    ensures |xs| <= |calls|
  {
    if calls == [] then []
    else (if calls[0].AddCall? then [calls[0].x] else []) + Added(calls[1..])
  }

  /** The number of `inc_counter()` calls in `calls`. */
  function CountCalls<T>(calls: seq<BuilderCall<T>>): nat
  {
    if calls == [] then 0 else (if calls[0].CountCall? then 1 else 0) + CountCalls(calls[1..])
  }

  /** The number of `succeed()` and `failed()` calls in `calls`. */
  function Ends<T>(calls: seq<BuilderCall<T>>): nat
  {
    if calls == [] then 0
    else (if calls[0].SucceedCall? || calls[0].FailedCall? then 1 else 0) + Ends(calls[1..])
  }

  /** The number of `succeed()` calls in `calls`. */
  function Successes<T>(calls: seq<BuilderCall<T>>): nat
  {
    if calls == [] then 0 else (if calls[0].SucceedCall? then 1 else 0) + Successes(calls[1..])
  }

  /** On any sequence of calls a fresh builder survives, `succeed()` or `failed()` comes at
    * most once and only as the last call, `onSuccess` has run exactly when `succeed()` was
    * called (never for `failed()`), and it received the allocator holding exactly the
    * values placed, with the counter moved by exactly the `inc_counter()` calls. */
  lemma {:induction false} BuilderDeliversAtMostOnce<T>(b: BuilderState<T>, calls: seq<BuilderCall<T>>)
    requires !b.consumed && b.delivered == []
    requires RunBuilder(b, calls).Some?
    ensures Ends(calls) <= 1
    ensures Ends(calls) == 1 ==> calls[|calls| - 1].SucceedCall? || calls[|calls| - 1].FailedCall?
    ensures RunBuilder(b, calls).value.consumed <==> Ends(calls) == 1
    ensures RunBuilder(b, calls).value.delivered ==
            (if Successes(calls) == 1 then [RunBuilder(b, calls).value.alloc] else [])
    ensures RunBuilder(b, calls).value.alloc.items == b.alloc.items + Added(calls)
    ensures RunBuilder(b, calls).value.alloc.counter == b.alloc.counter + CountCalls(calls)
    ensures RunBuilder(b, calls).value.alloc.capacity == b.alloc.capacity
    decreases |calls|
  {
    if calls != [] {
      var rest := calls[1..];
      match calls[0]
      case AddCall(x) =>
        BuilderDeliversAtMostOnce(b.Add(x), rest);
        assert b.alloc.items + Added(calls) == b.alloc.items + [x] + Added(rest);
      case CountCall =>
        BuilderDeliversAtMostOnce(b.Count(), rest);
      case SucceedCall =>
      case FailedCall =>
    }
  }

  /** `Builder<T>`; `alloc` mirrors `*alloc`, `delivered` and `consumed` record what
    * `onSuccess` and `delete this` did. */
  class Builder<T> {
    var alloc: AllocState<T>
    var delivered: seq<AllocState<T>>
    var consumed: bool

    function State(): BuilderState<T>
      reads this
    {
      BuilderState(alloc, delivered, consumed)
    }

    /** `Builder<T>::create(num, onSuccess)`. */
    constructor (num: nat)
      ensures State() == CreateBuilder(num)
    {
      alloc := NewAlloc(num);
      delivered := [];
      consumed := false;
    }

    /** `succeed()`. */
    method Succeed()
      requires !consumed
      modifies this
      ensures State() == old(State()).Succeed()
    {
      delivered := delivered + [alloc];
      consumed := true;
    }

    /** `failed()`. */
    method Failed()
      requires !consumed
      modifies this
      ensures State() == old(State()).Failed()
    {
      consumed := true;
    }

    /** `alloc->inc_counter()`, which returns the new counter. */
    method IncCounter() returns (c: int)
      requires !consumed
      modifies this
      ensures State() == old(State()).Count()
      ensures c == alloc.counter == old(alloc.counter) + 1
    {
      alloc := alloc.IncCounter();
      c := alloc.counter;
    }

    /** `new (alloc->next()) T(...)`. */
    method Add(x: T)
      requires !consumed && alloc.HasRoom()
      modifies this
      ensures State() == old(State()).Add(x)
    {
      alloc := alloc.Next(x);
    }

    /** `alloc->has_enough_counter()`. */
    predicate HasEnoughCounter()
      reads this
    {
      alloc.HasEnoughCounter()
    }
  }

  /** `FundsBuilder::add_fund(broker, name, amount, ...)`. The header passes no id to the
    * `Fund` constructor, whose only declared form takes one; the fund placed here has an
    * empty id. */
  method AddFund(builder: Builder<Fund>, broker: string, name: string, amount: int, capital: real,
                 marketValue: real, price: real, profit: real, roi: real, date: int)
    requires !builder.consumed && builder.alloc.HasRoom()
    modifies builder
    ensures builder.State() ==
            old(builder.State()).Add(NewFund(broker, name, "", amount, capital, marketValue, price, profit, roi, date))
  {
    builder.Add(NewFund(broker, name, "", amount, capital, marketValue, price, profit, roi, date));
  }

  /** `LatestQuotesBuilder::add_quote(symbol, date, rate)`. */
  method AddQuote(builder: Builder<Quote>, symbol: string, date: int, rate: real)
    requires !builder.consumed && builder.alloc.HasRoom()
    modifies builder
    ensures builder.State() == old(builder.State()).Add(NewQuote(symbol, date, rate))
  {
    builder.Add(NewQuote(symbol, date, rate));
  }

  /** `StringsBuilder`: a `Strings` of a given capacity that names are added to. */
  class StringsBuilder {
    const strings: Strings

    /** `StringsBuilder(n)`. */
    constructor (n: nat)
      ensures fresh(strings) && fresh(strings.strs) && strings.Valid()
      ensures strings.capacity == n && strings.Contents() == []
    {
      strings := new Strings(n);
    }

    /** `add(str)`: `strings->add(str)`, which throws when the array is full. */
    method Add(str: string) returns (r: Result<()>)
      requires strings.Valid()
      modifies strings`lastStr, strings.strs
      ensures strings.Valid()
      ensures old(strings.Size()) == strings.capacity ==>
        r.Err? && strings.Contents() == old(strings.Contents())
      ensures old(strings.Size()) < strings.capacity ==>
        r == Ok(()) && strings.Contents() == old(strings.Contents()) + [CStringValue(str)]
    {
      r := strings.Add(str);
    }
  }

  /** `BrokerBuilder`: the cash balances and active fund names of one broker. */
  class BrokerBuilder {
    var balancesAlloc: AllocState<CashBalance>
    const fundsNameBuilder: StringsBuilder
    var fundUpdateDate: Option<string>

    ghost predicate Valid()
      reads this, fundsNameBuilder, fundsNameBuilder.strings
    {
      balancesAlloc.Valid() && fundsNameBuilder.strings.Valid()
    }

    /** `BrokerBuilder(n, active_fund_num)`: room for `n` balances and `active_fund_num`
      * fund names, no fund update date. */
    constructor (n: nat, activeFundNum: nat)
      ensures Valid() && fresh(fundsNameBuilder) && fresh(fundsNameBuilder.strings)
      ensures fresh(fundsNameBuilder.strings.strs)
      ensures balancesAlloc == NewAlloc(n) && fundUpdateDate == None
      ensures fundsNameBuilder.strings.capacity == activeFundNum
      ensures fundsNameBuilder.strings.Contents() == []
    {
      balancesAlloc := NewAlloc(n);
      fundsNameBuilder := new StringsBuilder(activeFundNum);
      fundUpdateDate := None;
    }

    /** `set_fund_update_date(yyyymmdd)`: keeps a `copy_str` copy of the date. */
    method SetFundUpdateDate(yyyymmdd: string)
      modifies this`fundUpdateDate
      ensures fundUpdateDate == Some(CStringValue(yyyymmdd))
      ensures '\0' !in yyyymmdd ==> fundUpdateDate == Some(yyyymmdd)
    {
      var p := CopyStr(yyyymmdd);
      CopyStrRoundTrip(yyyymmdd);
      fundUpdateDate := Some(CStringValue(p[..]));
    }

    /** `add_cash_balance(currency, balance)`: places a `CashBalance` in the next cell. */
    method AddCashBalance(currency: string, balance: real)
      requires balancesAlloc.HasRoom()
      modifies this`balancesAlloc
      ensures balancesAlloc == old(balancesAlloc).Next(NewCashBalance(currency, balance))
    {
      balancesAlloc := balancesAlloc.Next(NewCashBalance(currency, balance));
    }

    /** `add_active_fund(id)`: adds the id to the fund names, throwing when they are full. */
    method AddActiveFund(id: string) returns (r: Result<()>)
      requires Valid()
      modifies fundsNameBuilder.strings`lastStr, fundsNameBuilder.strings.strs
      ensures Valid()
      ensures old(fundsNameBuilder.strings.Size()) == fundsNameBuilder.strings.capacity ==>
        r.Err? && fundsNameBuilder.strings.Contents() == old(fundsNameBuilder.strings.Contents())
      ensures old(fundsNameBuilder.strings.Size()) < fundsNameBuilder.strings.capacity ==>
        r == Ok(()) &&
        fundsNameBuilder.strings.Contents() == old(fundsNameBuilder.strings.Contents()) + [CStringValue(id)]
    {
      r := fundsNameBuilder.Add(id);
    }
  }

  /** The `create_func` each `create_broker` caller passes, applied to a builder: a broker
    * named by a copy of `name`, owning the balances placed so far, the fund update date
    * and the fund name array. The five-argument `Broker` constructor it calls is not among
    * the shown sources; it is taken to copy the name and store the rest as given. */
  function CreateBroker(name: string, b: BrokerBuilder): (r: Broker)
    reads b
    ensures r.num == |b.balancesAlloc.items| && Spans(r.firstCashBalance, r.num)
    ensures Range(r.firstCashBalance, r.num) == b.balancesAlloc.items
    ensures r.fundsUpdateDate == b.fundUpdateDate && r.activeFundIds == b.fundsNameBuilder.strings
    ensures '\0' !in name ==> r.name == name
  {
    Broker(CStringValue(name), |b.balancesAlloc.items|, Buf(b.balancesAlloc.items),
           b.fundUpdateDate, b.fundsNameBuilder.strings)
  }

  /** `AllBrokerBuilder`: one cell per broker. */
  class AllBrokerBuilder {
    var alloc: AllocState<Broker>

    /** `AllBrokerBuilder(n)`. */
    constructor (n: nat)
      ensures alloc == NewAlloc(n)
    {
      alloc := NewAlloc(n);
    }

    /** `add_broker(dao, b)`: `create_broker` placing the new broker in the next cell. */
    method AddBroker(name: string, b: BrokerBuilder)
      requires alloc.HasRoom()
      modifies this
      ensures alloc == old(alloc).Next(CreateBroker(name, b))
    {
      alloc := alloc.Next(CreateBroker(name, b));
    }
  }
}
