/** The query requests the DynamoDB data-access class of cloud-src/dynamodb.cc builds
  * (cloud_src/dynamodb.cc builds the same ones): table, index, key condition, filter and the
  * expression attribute names and values the two expressions refer to. The expressions are
  * kept as small syntax trees whose `Text()` is the string the source passes. */
module DynamoRequests {
  import opened Wrappers

  const TABLE: string := "urph-fin"
  const REGION: string := "ap-northeast-1"
  const SUB_NAME_INDEX: string := "sub-name-index"
  const SUB_BROKER: string := "B#"
  const SUB_STOCK: string := "I#S"
  const SUB_FUND: string := "I#F"
  const SUB_FX: string := "I#X"
  const SUB_TX_PREFIX: string := "x#"
  const NAME_ATTR: string := "name"
  const SUB_ATTR: string := "sub"
  const CAPITAL_EXISTS: string := "attribute_exists(capital)"
  const LAST_PRICE_EXISTS: string := "attribute_exists(last_price)"

  /** A key-condition or filter expression; `#x` operands are attribute-name placeholders
    * and `:x` operands value placeholders. */
  datatype Expr =
    | Eq(name: string, value: string)
    | And(left: Expr, right: Expr, keyword: string)
    | BeginsWith(name: string, value: string)
    | AttributeExists(attr: string)
  {
    /** The expression as the source spells it. */
    function Text(): string
    {
      match this
      case Eq(n, v) => n + " = " + v
      case And(l, r, kw) => l.Text() + " " + kw + " " + r.Text()
      case BeginsWith(n, v) => "begins_with(" + n + ", " + v + ")"
      case AttributeExists(a) => "attribute_exists(" + a + ")"
    }

    /** The attribute-name placeholders the expression uses. */
    function Names(): set<string>
    {
      match this
      case Eq(n, _) => {n}
      case And(l, r, _) => l.Names() + r.Names()
      case BeginsWith(n, _) => {n}
      case AttributeExists(_) => {}
    }

    /** The value placeholders the expression uses. */
    function Values(): set<string>
    {
      match this
      case Eq(_, v) => {v}
      case And(l, r, _) => l.Values() + r.Values()
      case BeginsWith(_, v) => {v}
      case AttributeExists(_) => {}
    }
  }

  /** A `QueryRequest`: the table, the index (`None` for the table's own key), the key
    * condition, the filter (`None` when the source passes nullptr), and the expression
    * attribute names and values. */
  datatype Request = Request(table: string, index: Option<string>, keyCondition: Expr,
                             filter: Option<Expr>, names: map<string, string>, values: map<string, string>)

  function FilterNames(f: Option<Expr>): set<string> { if f.Some? then f.value.Names() else {} }
  function FilterValues(f: Option<Expr>): set<string> { if f.Some? then f.value.Values() else {} }

  /** The request binds exactly the placeholders its two expressions use: DynamoDB rejects a
    * request that uses an unbound placeholder or binds one that is never used. */
  predicate WellFormed(r: Request)
  {
    && r.names.Keys == r.keyCondition.Names() + FilterNames(r.filter)
    && r.values.Keys == r.keyCondition.Values() + FilterValues(r.filter)
  }

  /** `db_query_by_partition_key(index, key_condition_expr, key_name, key_name_v,
    * value_name, value, filter_expr, ...)`: one name and one value binding; `db_query`
    * sets the table name. */
  function ByPartitionKey(index: Option<string>, keyCondition: Expr, keyName: string, keyNameV: string,
                          valueName: string, value: string, filter: Option<Expr>): (r: Request)
    ensures r.table == TABLE && r.index == index && r.keyCondition == keyCondition && r.filter == filter
    ensures r.names == map[keyName := keyNameV] && r.values == map[valueName := value]
  {
    Request(TABLE, index, keyCondition, filter, map[keyName := keyNameV], map[valueName := value])
  }

  /** `db_query_by_name(name, filter_expr, ...)`: the table's partition key `name`. */
  function ByName(name: string, filter: Option<Expr>): (r: Request)
    requires FilterNames(filter) == {} && FilterValues(filter) == {}
    ensures WellFormed(r) && r.index == None && r.filter == filter
    ensures r.keyCondition.Text() == "#name_n = :name_v"
    ensures r.names == map["#name_n" := NAME_ATTR] && r.values == map[":name_v" := name]
  {
    ByPartitionKey(None, Eq("#name_n", ":name_v"), "#name_n", NAME_ATTR, ":name_v", name, filter)
  }

  /** `db_query_by_sub(sub, filter_expr, ...)`: the `sub` key of the `sub-name-index`. */
  function BySub(sub: string, filter: Option<Expr>): (r: Request)
    requires FilterNames(filter) == {} && FilterValues(filter) == {}
    ensures WellFormed(r) && r.index == Some(SUB_NAME_INDEX) && r.filter == filter
    ensures r.keyCondition.Text() == "#sub_n = :sub_v"
    ensures r.names == map["#sub_n" := SUB_ATTR] && r.values == map[":sub_v" := sub]
  {
    ByPartitionKey(Some(SUB_NAME_INDEX), Eq("#sub_n", ":sub_v"), "#sub_n", SUB_ATTR, ":sub_v", sub, filter)
  }

  /** The default key condition of `db_query_by_name_and_sub`. */
  const NAME_AND_SUB: Expr := And(Eq("#name_n", ":name_v"), Eq("#sub_n", ":sub_v"), "AND")

  /** `db_query_by_name_and_sub(index, key_condition_expr, name, sub, filter_expr, ...)`: both
    * keys bound; a null key condition means `NAME_AND_SUB`. */
  function ByNameAndSub(index: Option<string>, keyCondition: Option<Expr>, name: string, sub: string,
                        filter: Option<Expr>): (r: Request)
    requires keyCondition.Some? ==> keyCondition.value.Names() == {"#name_n", "#sub_n"}
    requires keyCondition.Some? ==> keyCondition.value.Values() == {":name_v", ":sub_v"}
    requires FilterNames(filter) == {} && FilterValues(filter) == {}
    ensures WellFormed(r) && r.index == index && r.filter == filter
    ensures r.keyCondition == if keyCondition.None? then NAME_AND_SUB else keyCondition.value
    ensures r.names == map["#name_n" := NAME_ATTR, "#sub_n" := SUB_ATTR]
    ensures r.values == map[":name_v" := name, ":sub_v" := sub]
  {
    Request(TABLE, index, if keyCondition.None? then NAME_AND_SUB else keyCondition.value, filter,
            map["#name_n" := NAME_ATTR, "#sub_n" := SUB_ATTR], map[":name_v" := name, ":sub_v" := sub])
  }

  /** `get_funds`: the fund transactions of one update date, `sub = "x#" + date`, that carry a
    * `capital` attribute. */
  function FundsRequest(fundUpdateDate: string): (r: Request)
    ensures WellFormed(r) && r.index == Some(SUB_NAME_INDEX)
    ensures r.values == map[":sub_v" := "x#" + fundUpdateDate]
    ensures r.filter.Some? && r.filter.value.Text() == "attribute_exists(capital)"
  {
    BySub(SUB_TX_PREFIX + fundUpdateDate, Some(AttributeExists("capital")))
  }

  /** `get_broker_by_name(name, ...)`: the broker record `(name, "B#")` on the index. */
  function BrokerRequest(name: string): (r: Request)
    ensures WellFormed(r) && r.index == Some(SUB_NAME_INDEX) && r.filter == None
    ensures r.values == map[":name_v" := name, ":sub_v" := "B#"]
  {
    ByNameAndSub(Some(SUB_NAME_INDEX), None, name, SUB_BROKER, None)
  }

  /** `get_all_broker_items`: every broker record. */
  function AllBrokersRequest(): (r: Request)
    ensures WellFormed(r) && r.filter == None && r.values == map[":sub_v" := "B#"]
  {
    BySub(SUB_BROKER, None)
  }

  /** `get_non_fund_symbols`: every stock record. */
  function StockSymbolsRequest(): (r: Request)
    ensures WellFormed(r) && r.filter == None && r.values == map[":sub_v" := "I#S"]
  {
    BySub(SUB_STOCK, None)
  }

  /** `get_latest_quotes(builder, sub_idx, done)` and `get_latest_quotes(builder, num,
    * symbols)`: the records under `sub` that have a last price. */
  function LatestQuotesRequest(sub: string): (r: Request)
    ensures WellFormed(r) && r.values == map[":sub_v" := sub]
    ensures r.filter.Some? && r.filter.value.Text() == "attribute_exists(last_price)"
  {
    BySub(sub, Some(AttributeExists("last_price")))
  }

  /** The key condition of the stocks query of `get_stock_portfolio`: the `sub` key, and
    * the `name` key too when a symbol is given. */
  function StocksKey(symbolGiven: bool): (e: Expr)
    ensures e.Names() == if symbolGiven then {"#sub_n", "#name_n"} else {"#sub_n"}
    ensures e.Values() == if symbolGiven then {":sub_v", ":name_v"} else {":sub_v"}
  {
    if symbolGiven then And(Eq("#sub_n", ":sub_v"), Eq("#name_n", ":name_v"), "AND") else Eq("#sub_n", ":sub_v")
  }

  /** The stocks query of `get_stock_portfolio(builder, broker, symbol)`: the stocks with a
    * last price, narrowed to one name iff a symbol is given. */
  function StocksRequest(symbol: Option<string>): (r: Request)
    ensures WellFormed(r) && r.index == Some(SUB_NAME_INDEX)
    ensures r.filter == Some(AttributeExists("last_price"))
    ensures r.keyCondition == StocksKey(symbol.Some?)
    ensures ":sub_v" in r.values && r.values[":sub_v"] == "I#S"
    ensures ":name_v" in r.values <==> symbol.Some?
    ensures symbol.Some? ==> r.values[":name_v"] == symbol.value
  {
    var names := map["#sub_n" := SUB_ATTR];
    var values := map[":sub_v" := SUB_STOCK];
    Request(TABLE, Some(SUB_NAME_INDEX), StocksKey(symbol.Some?), Some(AttributeExists("last_price")),
            if symbol.None? then names else names["#name_n" := NAME_ATTR],
            if symbol.None? then values else values[":name_v" := symbol.value])
  }

  /** The key condition of the transaction query of `get_stock_portfolio`. */
  const TX_KEY: Expr := And(Eq("#name_n", ":name_v"), BeginsWith("#sub_n", ":sub_v"), "and")

  lemma TxKeyShape()
    ensures TX_KEY.Names() == {"#name_n", "#sub_n"} && TX_KEY.Values() == {":name_v", ":sub_v"}
  {
  }

  /** The transaction query `get_stock_portfolio` runs for each stock: the records of that
    * name whose `sub` begins with "x#", filtered to one broker iff a broker is given. */
  function TxRequest(name: string, broker: Option<string>): (r: Request)
    ensures WellFormed(r) && r.index == None && r.keyCondition == TX_KEY
    ensures r.values[":name_v"] == name && r.values[":sub_v"] == "x#"
    ensures r.filter.Some? <==> broker.Some?
    ensures broker.Some? ==>
      r.filter.value == Eq("#broker_n", ":broker_v") && r.names["#broker_n"] == "broker" && r.values[":broker_v"] == broker.value
  {
    TxKeyShape();
    var names := map["#name_n" := NAME_ATTR, "#sub_n" := SUB_ATTR];
    var values := map[":name_v" := name, ":sub_v" := SUB_TX_PREFIX];
    if broker.None? then Request(TABLE, None, TX_KEY, None, names, values)
    else Request(TABLE, None, TX_KEY, Some(Eq("#broker_n", ":broker_v")),
                 names["#broker_n" := "broker"], values[":broker_v" := broker.value])
  }
}
