/** copy_str, the Strings array and the record constructors of core.cc, together with the
  * record layouts of urph-fin-core.h that the C++ classes extend without adding fields. */
module Core {
  import opened Wrappers
  import opened Alloc
  import Text

  /** Index of the first NUL character of `s`, or `|s|` when there is none. */
  function FirstNul(s: seq<char>): (n: nat)
    ensures n <= |s|
    ensures forall j :: 0 <= j < n ==> s[j] != '\0'
    ensures n < |s| ==> s[n] == '\0'
  {
    if s == [] then 0
    else if s[0] == '\0' then 0
    else 1 + FirstNul(s[1..])
  }

  /** The text a `char*` denotes: its characters up to the first NUL. */
  function CStringValue(buf: seq<char>): (v: seq<char>)
    ensures '\0' !in v
    ensures '\0' !in buf ==> v == buf
  {
    buf[..FirstNul(buf)]
  }

  /** The buffer `copy_str(s)` fills: `strncpy` copies `s` up to its first NUL and pads the
    * rest of the `|s|` cells with NULs, and the cell at `|s|` is set to 0. */
  function CopyBuffer(s: string): (buf: seq<char>)
    ensures |buf| == |s| + 1
  {
    seq(|s| + 1, i requires 0 <= i <= |s| => if i < FirstNul(s) then s[i] else '\0')
  }

  /** `copy_str(str)`: a fresh buffer of `|str| + 1` characters. */
  method CopyStr(s: string) returns (p: array<char>)
    ensures p.Length == |s| + 1 && p[|s|] == '\0'
    ensures p[..] == CopyBuffer(s)
  {
    p := new char[|s| + 1];
    var i := 0;
    var nulSeen := false;
    while i < |s|
      invariant 0 <= i <= |s|
      invariant nulSeen <==> FirstNul(s) < i
      invariant forall j :: 0 <= j < i ==> p[j] == CopyBuffer(s)[j]
    {
      if nulSeen {
        p[i] := '\0';
      } else {
        p[i] := s[i];
        nulSeen := s[i] == '\0';
      }
      i := i + 1;
    }
    p[|s|] := '\0';
  }

  /** For a string without an embedded NUL the buffer is the characters followed by the
    * terminating 0. */
  lemma CopyBufferWithoutNul(s: string)
    requires '\0' !in s
    ensures CopyBuffer(s) == s + ['\0']
  {
    if FirstNul(s) < |s| {
      assert false;
    }
  }

  /** Reading the copied buffer back as a C string gives the C string value of the original:
    * the whole string when it has no embedded NUL. */
  lemma {:induction false} CopyStrRoundTrip(s: string)
    ensures CStringValue(CopyBuffer(s)) == CStringValue(s)
  {
    var buf := CopyBuffer(s);
    var k := FirstNul(s);
    assert buf[k] == '\0';
    assert forall j :: 0 <= j < k ==> buf[j] == s[j] && buf[j] != '\0';
    FirstNulAt(buf, k);
    assert buf[..k] == s[..k];
  }

  /** `FirstNul` is determined by the position of the first 0. */
  lemma {:induction false} FirstNulAt(s: seq<char>, k: nat)
    requires k < |s| && s[k] == '\0'
    requires forall j :: 0 <= j < k ==> s[j] != '\0'
    ensures FirstNul(s) == k
  {
    if k > 0 {
      FirstNulAt(s[1..], k - 1);
    }
  }

  /** `Strings` over `strs = new char*[n]`: `lastStr` is the index `last_str - strs`,
    * and each cell holds the C string value of a `copy_str` copy. */
  class Strings {
    const capacity: int
    const strs: array<string>
    var lastStr: nat

    ghost predicate Valid()
      reads this
    {
      capacity == strs.Length && lastStr <= strs.Length
    }

    /** The strings from `begin()` to `end()`. */
    function Contents(): (s: seq<string>)
      reads this, strs
      requires Valid()
      ensures |s| <= capacity
    {
      strs[..lastStr]
    }

    /** `Strings(n)`. */
    constructor (n: nat)
      ensures Valid() && fresh(strs)
      ensures capacity == n && Contents() == [] && Size() == 0
    {
      capacity := n;
      strs := new string[n];
      lastStr := 0;
    }

    /** `size()`: `last_str - strs`, never above the capacity. */
    function Size(): (n: nat)
      reads this, strs
      requires Valid()
      ensures n == |Contents()| && 0 <= n <= capacity
    {
      lastStr
    }

    /** `add(s)`: throws, changing nothing, when `size() == capacity`; otherwise appends a copy. */
    method Add(s: string) returns (r: Result<()>)
      requires Valid()
      modifies this`lastStr, strs
      ensures Valid()
      ensures old(lastStr) == capacity ==>
        r == Err("Could not add string [" + s + "] : exceeding capacity " + Text.IntToString(capacity))
      ensures old(lastStr) == capacity ==> Contents() == old(Contents())
      ensures old(lastStr) < capacity ==> r == Ok(()) && Contents() == old(Contents()) + [CStringValue(s)]
      ensures '\0' !in s && r.Ok? ==> Contents() == old(Contents()) + [s]
    {
      if lastStr == capacity {
        r := Err("Could not add string [" + s + "] : exceeding capacity " + Text.IntToString(capacity));
        return;
      }
      var p := CopyStr(s);
      CopyStrRoundTrip(s);
      strs[lastStr] := CStringValue(p[..]);
      lastStr := lastStr + 1;
      r := Ok(());
    }
  }

  /** `cash_balance` / `CashBalance`. */
  datatype CashBalance = CashBalance(ccy: string, balance: real)

  /** `broker` / `Broker`; `activeFundIds` is the `strings*` the broker owns. */
  datatype Broker = Broker(name: string, num: int, firstCashBalance: Ptr<CashBalance>,
                           fundsUpdateDate: Option<string>, activeFundIds: Strings)
  {
    /** `head(default_member_tag)` and `size(default_member_tag)`: the range `begin()..end()`. */
    function Head(): Ptr<CashBalance> { firstCashBalance }
    function Size(): int { num }
  }

  /** `all_brokers` / `AllBrokers`. */
  datatype AllBrokers = AllBrokers(firstBroker: Ptr<Broker>, num: int)

  /** `fund` / `Fund`; `id` is set by the constructor of core.cc. */
  datatype Fund = Fund(broker: string, name: string, id: string, amount: int, capital: real,
                       marketValue: real, price: real, profit: real, roi: real, date: int)

  /** `fund_portfolio` / `FundPortfolio`. */
  datatype FundPortfolio = FundPortfolio(num: int, firstFund: Ptr<Fund>)

  /** `CashBalance(n, v)`: the currency is a copy of `n`, the balance is `v`. */
  function NewCashBalance(n: string, v: real): (c: CashBalance)
    ensures c.balance == v
    ensures '\0' !in n ==> c.ccy == n
  {
    CashBalance(CStringValue(n), v)
  }

  /** `Broker(n, ccy_num, first_ccy_balance, active_funds)`: a copy of the name, the count and
    * both buffers as given; this constructor leaves `funds_update_date` unset. */
  function NewBroker(n: string, ccyNum: int, first: Ptr<CashBalance>, activeFunds: Strings): (b: Broker)
    ensures b.num == ccyNum && b.firstCashBalance == first && b.activeFundIds == activeFunds
    ensures '\0' !in n ==> b.name == n
    ensures b.fundsUpdateDate.None?
  {
    Broker(CStringValue(n), ccyNum, first, None, activeFunds)
  }

  /** `Fund(b, n, i, a, c, m, prc, p, r, d)`: copies of the three strings, every number as given. */
  function NewFund(b: string, n: string, i: string, a: int, c: real, m: real, prc: real,
                   p: real, r: real, d: int): (f: Fund)
    ensures f.amount == a && f.capital == c && f.marketValue == m && f.price == prc
    ensures f.profit == p && f.roi == r && f.date == d
    ensures '\0' !in b + n + i ==> f.broker == b && f.name == n && f.id == i
  {
    Fund(CStringValue(b), CStringValue(n), CStringValue(i), a, c, m, prc, p, r, d)
  }

  /** Iterating a broker from `begin()` to `end()` visits its `num` cash balances in order. */
  method BrokerCashBalances(b: Broker) returns (balances: seq<CashBalance>)
    requires Spans(b.Head(), b.Size())
    ensures |balances| == b.num
    ensures forall i :: 0 <= i < b.num ==> balances[i] == b.firstCashBalance.cells[i]
  {
    balances := Walk(b.Head(), b.Size());
  }

  /** `fund_begin()..fund_end()`: the broker's active fund ids, in the order they were added. */
  method BrokerFundIds(b: Broker) returns (ids: seq<string>)
    requires b.activeFundIds.Valid()
    ensures ids == b.activeFundIds.Contents()
  {
    ids := Walk(Buf(b.activeFundIds.strs[..]), b.activeFundIds.Size());
  }

  /** `quote` / `Quote`. */
  datatype Quote = Quote(symbol: string, date: int, rate: real)

  /** `quotes` / `Quotes`. */
  datatype Quotes = Quotes(num: int, first: Ptr<Quote>)

  /** `Quote(symbol, date, rate)`. Its definition is not part of the shown sources; like every
    * other record constructor it is taken to store a copy of the string and the numbers as
    * given. */
  function NewQuote(symbol: string, date: int, rate: real): (q: Quote)
    ensures q.date == date && q.rate == rate
    ensures '\0' !in symbol ==> q.symbol == symbol
  {
    Quote(CStringValue(symbol), date, rate)
  }
}
