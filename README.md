# urph-fin core in Dafny

urph-fin is a personal finance tracker. Its C++ core keeps brokers and their cash balances,
mutual funds, stocks with their transactions, and the latest quotes. One storage front end,
`Storage<DAO>`, serves the core from Firestore, DynamoDB or MongoDB. Each back end answers
asynchronously by calling methods on a "builder". A builder fills placement-new buffers and
hands them to a success callback once its count is complete. A command line client lists
stock transactions, broker balances, positions valued in yen and a grouped overview.

The model is organised like the program:

- The core value types and their buffers (`Alloc`, `Core`, `Stocks`, `Text`, `Sorting`).
  A C buffer of `num` cells is `Ptr<T>`, either `Null` or a buffer of cells.
  `PlacementNew<T>` becomes the class `Alloc.PlacementNew` over an `array`.
  Its abstract value is `AllocState`.
- The builders of `storage.hxx` (`Builders`, `PortfolioBuilder`) and the `Storage<DAO>`
  success callbacks (`Storage`). A builder is a class whose methods update fields.
  Each method is proved against a pure transition on the builder's abstract state.
  Whole traces of calls are folded by `RunBuilder` and `PortfolioBuilder.Run`, and the
  lemmas about those traces state what the source promises: delivery at most once, exactly
  the values placed, completion counting.
- The Firestore data access object (`Firestore`, `FirestorePortfolio`). The query
  callbacks are modelled as functions from a delivered query result to the calls the
  callback makes on a builder.
- The DynamoDB data access objects, both the one in `cloud-src` and the older one in
  `cloud_src`. These are `DynamoQuery`, `DynamoRequests`, `DynamoDao`, `DynamoCountAware`
  and `DynamoPortfolio`. Paged queries are folds over a sequence of delivered pages.
- The MongoDB data access object (`MongoDao`). A document is a sequence of named fields in
  stored order, each holding a BSON-like value.
- The command line (`CliStock`, `CliBroker`, `CliMain`). Table output is modelled as the
  rows handed to the table printer, with the raw values before formatting.

Callbacks, SDK clients and drivers are never called. A query's result is a parameter. The
calls a handler makes on a builder are the value computed, or they are method calls on the
builder classes. Doubles are `real`. A NaN is `None` of `Option<real>`. Timestamps are
`int` seconds since the Unix epoch.

Where the code and its design notes disagree, the model follows the code. The entries
under "## Findings" are the places where the code does not do what it evidently intends.
For each, the model has one member that behaves as written and shows the failure, and a
corrected member that the rest of the model uses.

## Model

| member | source | states |
|---|---|---|
| Alloc.Walk | cxx/urph-fin-core/src/core/urph-fin-core.hxx:48-71 | iterating from `head` while the cursor differs from `head + num` visits exactly the `num` cells of the buffer, in order |
| Alloc.FreePlacementAllocated | cxx/urph-fin-core/src/core/urph-fin-core.hxx:76-83 | a null head destroys nothing; otherwise the destructor runs on exactly the first `size` cells, in order, and on none when `size` is not positive |
| Alloc.NewAlloc | cxx/urph-fin-core/src/core/urph-fin-core.hxx:26-32 | a fresh allocator has capacity `max_num`, no allocated cell and counter 0, and it lacks enough counts exactly when `max_num` is positive |
| Alloc.ApplyEffect | cxx/urph-fin-core/src/core/urph-fin-core.hxx:21-46 | a sequence of placements and `inc_counter` calls appends exactly the placed values, raises the counter by exactly the number of counts, keeps the capacity and never overruns it |
| Alloc.EnoughExactlyAfterCapacityCounts | cxx/urph-fin-core/src/core/urph-fin-core.hxx:41-45 | on a fresh allocator of capacity `n`, `has_enough_counter()` holds exactly when at least `n` counts were made, whatever was placed; `allocated_num()` is the number of placements |
| Alloc.PlacementNew.constructor | cxx/urph-fin-core/src/core/urph-fin-core.hxx:26-32 | allocates a fresh buffer of `max_num` cells with `current` at `head`, `counter` 0 and `max_counter` `max_num` |
| Alloc.PlacementNew.AllocatedNum | cxx/urph-fin-core/src/core/urph-fin-core.hxx:33-36 | `current - head` is the number of values placed so far and never exceeds the capacity |
| Alloc.PlacementNew.End | cxx/urph-fin-core/src/core/urph-fin-core.hxx:37-40 | the cells from `head` up to `end()` are exactly the values placed, in order |
| Alloc.PlacementNew.HasEnoughCounter | cxx/urph-fin-core/src/core/urph-fin-core.hxx:41-44 | holds exactly when `counter >= max_counter` |
| Alloc.PlacementNew.IncCounter | cxx/urph-fin-core/src/core/urph-fin-core.hxx:45 | pre-increments the counter and returns the new value; nothing else changes |
| Alloc.PlacementNew.Next | cxx/urph-fin-core/src/storage/storage.hxx:87 | `new (alloc->next()) T(...)` writes the value into the cell at `current`, advances `current` by one and extends the placed values by that value |
| Core.CopyStr | cxx/urph-fin-core/src/core/core.cc:41-47 | the copy has `size() + 1` cells whose last is the NUL terminator; when the string holds no NUL, the cells before it are the string itself |
| Core.CopyBufferWithoutNul | cxx/urph-fin-core/src/core/core.cc:41-47 | for a string without NUL, the copy is the string followed by one NUL |
| Core.CopyStrRoundTrip | cxx/urph-fin-core/src/core/core.cc:41-47 | reading the copy back as a C string yields what the original reads as, so an embedded NUL truncates both the same way |
| Core.FirstNulAt | cxx/urph-fin-core/src/core/core.cc:41-47 | the C string value ends at the first NUL, and at no later one |
| Core.Strings.constructor | cxx/urph-fin-core/src/core/core.cc:61-66 | a fresh array of `n` string slots, holding no string, with `last_str` at the start |
| Core.Strings.Contents | cxx/urph-fin-core/src/core/urph-fin-core.hxx:97-98 | the strings from `begin()` to `end()` are at most `capacity` many |
| Core.Strings.Size | cxx/urph-fin-core/src/core/core.cc:78-81 | `last_str - strs` is the number of strings added, between 0 and `capacity` |
| Core.Strings.Add | cxx/urph-fin-core/src/core/core.cc:68-76 | when full, fails with "Could not add string [s] : exceeding capacity N" and changes nothing; otherwise appends a copy of the string's C value and succeeds |
| Core.NewCashBalance | cxx/urph-fin-core/src/core/core.cc:49-53 | the balance is the value passed and the currency is a copy of the name |
| Core.NewBroker | cxx/urph-fin-core/src/core/core.cc:97-103 | name copied; `num`, first balance and the active fund ids are the arguments; the fund update date, which this constructor leaves unset, is modelled as None |
| Core.NewFund | cxx/urph-fin-core/src/core/core.cc:141-153 | every numeric field is the argument passed; broker, name and id are copies of the arguments |
| Core.BrokerCashBalances | cxx/urph-fin-core/src/core/urph-fin-core.hxx:106-109 | iterating from `begin()` to `end()` visits the broker's `num` cash balances, in order |
| Core.BrokerFundIds | cxx/urph-fin-core/src/core/urph-fin-core.hxx:112-115 | iterating from `fund_begin()` to `fund_end()` visits exactly the active fund ids added |
| Core.NewQuote | cxx/urph-fin-core/src/storage/storage.hxx:153-156 | the quote has the date and rate passed and a copy of the symbol |
| Stocks.SideName | cxx/urph-fin-core/src/core/stock.hxx:23-25 | "BUY" exactly for the BUY code, "SELL" exactly for the SELL code, "SPLIT" for every other code |
| Stocks.ParseSide | cxx/urph-fin-core/src/core/stock.cc:42 | "BUY" gives BUY, "SELL" gives SELL, and every other text gives SPLIT, in both directions |
| Stocks.SideNameRoundTrip | cxx/urph-fin-core/src/core/stock.cc:42 | for the three side names, parsing and printing back gives the same name |
| Stocks.SideCodeRoundTrip | cxx/urph-fin-core/src/core/stock.hxx:23-25 | printing and parsing back gives a code up to SPLIT unchanged and turns every larger code into SPLIT |
| Stocks.DefaultStock | cxx/urph-fin-core/src/core/stock.hxx:8-11 | a default stock has null symbol and currency |
| Stocks.NewStock | cxx/urph-fin-core/src/core/stock.cc:7-12 | symbol and currency are copies of the arguments |
| Stocks.MoveAssignStock | cxx/urph-fin-core/src/core/stock.cc:14-23 | frees the target's old symbol and currency, then takes the source's strings and nulls the source's fields; self-assignment leaves both null; no other cell changes |
| Stocks.NewStockTx | cxx/urph-fin-core/src/core/stock.cc:36-44 | shares, price, fee and date are the arguments, the broker is copied, and the side prints back as the argument when it was "BUY" or "SELL" and as "SPLIT" otherwise |
| Stocks.DefaultTxList | cxx/urph-fin-core/src/core/stock.hxx:30-33 | an empty list with a null first transaction |
| Stocks.ListTxs | cxx/urph-fin-core/src/core/stock.hxx:38-42 | iterating from `begin()` to `end()` visits the list's `num` transactions, in order |
| Stocks.MoveAssignTxList | cxx/urph-fin-core/src/core/stock.cc:57-65 | destroys the target's transactions, takes the source's list and leaves the source empty; self-assignment leaves an empty list; no other cell changes |
| Text.StrLessIrreflexive | cxx/urph-fin-core/src/storage/storage.hxx:331 | `strcmp(a, a) < 0` never holds |
| Text.StrLessTransitive | cxx/urph-fin-core/src/storage/storage.hxx:331 | the `strcmp` order is transitive |
| Text.StrLessTotal | cxx/urph-fin-core/src/storage/storage.hxx:331 | two different strings are ordered one way or the other by `strcmp` |
| Text.StrLessAsymmetric | cxx/urph-fin-core/src/storage/storage.hxx:331 | `strcmp(a, b) < 0` and `strcmp(b, a) < 0` never hold together |
| Text.IntToString | cxx/urph-fin-core/src/core/core.cc:72 | the decimal text of the capacity in the overflow message is non-empty and starts with '-' exactly for a negative number |
| Text.NatToStringReadsBack | cxx/urph-fin-core/src/core/core.cc:72 | the digits written for a non-negative number, read back by Horner's rule, give that number |
| Text.IntToStringReadsBack | cxx/urph-fin-core/src/core/core.cc:72 | the text written for any integer reads back as that integer, sign included, so distinct numbers never share a text |
| Text.ToUpper | cxx/cli/src/main.cc:468 | `boost::to_upper` keeps the length and maps each ASCII lower-case letter to its capital, leaving other characters |
| Text.ToUpperIdempotent | cxx/cli/src/main.cc:468 | upper-casing twice is upper-casing once |
| Sorting.SortBy | cxx/urph-fin-core/src/storage/storage.hxx:330-334 | for a strict weak order, `std::sort` leaves the array sorted by the comparator and a permutation of what it held |
| Builders.CreateBuilder | cxx/urph-fin-core/src/storage/storage.hxx:30-32 | a new builder owns a fresh allocator of `num` cells and has delivered nothing |
| Builders.BuilderDeliversAtMostOnce | cxx/urph-fin-core/src/storage/storage.hxx:37-45 | over any call sequence a live builder survives, `succeed()` or `failed()` comes at most once and only last; `onSuccess` ran exactly on `succeed()`, never on `failed()`, and got exactly the values placed with the counter raised by the counts |
| Builders.Builder.constructor | cxx/urph-fin-core/src/storage/storage.hxx:50-53 | allocates `PlacementNew<T>(num)` and keeps the callback |
| Builders.Builder.Succeed | cxx/urph-fin-core/src/storage/storage.hxx:37-41 | calls `onSuccess` with the allocator, then deletes itself |
| Builders.Builder.Failed | cxx/urph-fin-core/src/storage/storage.hxx:42-45 | deletes itself without calling `onSuccess` |
| Builders.Builder.IncCounter | cxx/urph-fin-core/src/core/urph-fin-core.hxx:45 | `alloc->inc_counter()` raises the counter by one, returns it and places nothing |
| Builders.Builder.Add | cxx/urph-fin-core/src/storage/storage.hxx:139 | places one value in the next cell |
| Builders.AddFund | cxx/urph-fin-core/src/storage/storage.hxx:138-148 | places a fund with every field the caller passed |
| Builders.AddQuote | cxx/urph-fin-core/src/storage/storage.hxx:153-156 | places a quote with the symbol, date and rate passed |
| Builders.StringsBuilder.constructor | cxx/urph-fin-core/src/storage/storage.hxx:59-61 | a new `Strings` of capacity `n`, still empty |
| Builders.StringsBuilder.Add | cxx/urph-fin-core/src/storage/storage.hxx:62-64 | forwards to `Strings::add`: appends the string, or fails and changes nothing when full |
| Builders.BrokerBuilder.constructor | cxx/urph-fin-core/src/storage/storage.hxx:73-77 | a cash balance allocator of `n` cells, an empty fund name array of `active_fund_num` slots, no update date |
| Builders.BrokerBuilder.SetFundUpdateDate | cxx/urph-fin-core/src/storage/storage.hxx:82-84 | the update date becomes a copy of the text |
| Builders.BrokerBuilder.AddCashBalance | cxx/urph-fin-core/src/storage/storage.hxx:85-88 | places `CashBalance(currency, balance)` in the next balance cell |
| Builders.BrokerBuilder.AddActiveFund | cxx/urph-fin-core/src/storage/storage.hxx:89-92 | adds the fund id to the name array, failing when it is full |
| Builders.CreateBroker | cxx/urph-fin-core/src/storage/storage.hxx:103-107 | the broker is named by the name passed and owns exactly the balances placed, the update date and the fund id array of the builder |
| Builders.AllBrokerBuilder.constructor | cxx/urph-fin-core/src/storage/storage.hxx:115-118 | a broker allocator of `n` cells |
| Builders.AllBrokerBuilder.AddBroker | cxx/urph-fin-core/src/storage/storage.hxx:122-133 | places the broker `create_broker` builds in the next cell |
| PortfolioBuilder.CreatePortfolioBuilder | cxx/urph-fin-core/src/storage/storage.hxx:248-255 | a new portfolio builder has no stock allocator, no transaction allocators and `unfinished_stocks` at `INT_MAX` |
| PortfolioBuilder.EmptyStocksCountDown | cxx/urph-fin-core/src/storage/storage.hxx:186-190 | each stock announced with no transactions counts the pending stocks down by one, and the one that reaches 0 delivers |
| PortfolioBuilder.PreparedStocksDeliverOnLast | cxx/urph-fin-core/src/storage/storage.hxx:181-185 | after `prepare_stock_alloc(n)` with `n > 0`, `k` finished stocks leave `n - k` pending; `onSuccess` fires on the `n`-th and not before, with the fresh `n`-cell stock allocator |
| PortfolioBuilder.CheckCompletionEffect | cxx/urph-fin-core/src/storage/storage.hxx:256-269 | the pending count drops exactly when the allocator is null or has enough counts; `onSuccess` fires exactly when that drop reaches 0; allocators never change |
| PortfolioBuilder.PrepareTxAllocEffect | cxx/urph-fin-core/src/storage/storage.hxx:186-192 | zero transactions finish the stock at once; otherwise a fresh allocator of `num` cells, still short of its count, replaces the symbol's entry |
| PortfolioBuilder.AddTxEffect | cxx/urph-fin-core/src/storage/storage.hxx:201-211 | an unknown symbol throws "Cannot find tx for stock <symbol>"; a known one gets exactly the new transaction appended and no other symbol changes |
| PortfolioBuilder.CounterAndRemovalEffect | cxx/urph-fin-core/src/storage/storage.hxx:193-200 | `incr_counter` bumps one known symbol's counter and ignores unknown ones; `rm_stock` drops the symbol's allocator and always decrements the pending count |
| PortfolioBuilder.RunAppend | cxx/urph-fin-core/src/storage/storage.hxx:159-270 | running two call sequences in turn is running their concatenation |
| PortfolioBuilder.DeliversAtMostOnce | cxx/urph-fin-core/src/storage/storage.hxx:263-267 | `onSuccess` fires at most once over any call sequence, as written and corrected, and the builder is gone after it |
| PortfolioBuilder.StuckBelowOne | cxx/urph-fin-core/src/storage/storage.hxx:193-200 | as written, once the pending count is at or below 0 without a delivery, no later call except `prepare_stock_alloc` can deliver |
| PortfolioBuilder.StockPortfolioBuilderObj.constructor | cxx/urph-fin-core/src/storage/storage.hxx:252-255 | no stock allocator, no transaction allocators, `INT_MAX` pending |
| PortfolioBuilder.StockPortfolioBuilderObj.AddStock | cxx/urph-fin-core/src/storage/storage.hxx:177-180 | places `Stock(symbol, ccy)` in the next stock cell |
| PortfolioBuilder.StockPortfolioBuilderObj.PrepareStockAlloc | cxx/urph-fin-core/src/storage/storage.hxx:181-185 | sets the pending count and stock allocator; corrected to deliver an empty portfolio at once |
| PortfolioBuilder.StockPortfolioBuilderObj.Deliver | cxx/urph-fin-core/src/storage/storage.hxx:265-266 | calls `onSuccess` with the allocators, then deletes itself |
| PortfolioBuilder.StockPortfolioBuilderObj.CheckCompletion | cxx/urph-fin-core/src/storage/storage.hxx:256-269 | the `check_completion` transition |
| PortfolioBuilder.StockPortfolioBuilderObj.PrepareTxAlloc | cxx/urph-fin-core/src/storage/storage.hxx:186-192 | the `prepare_tx_alloc` transition |
| PortfolioBuilder.StockPortfolioBuilderObj.RmStock | cxx/urph-fin-core/src/storage/storage.hxx:193-200 | the `rm_stock` transition, corrected to check completion |
| PortfolioBuilder.StockPortfolioBuilderObj.AddTx | cxx/urph-fin-core/src/storage/storage.hxx:201-211 | the `addTx` transition, or the exception with the state unchanged |
| PortfolioBuilder.StockPortfolioBuilderObj.IncrCounter | cxx/urph-fin-core/src/storage/storage.hxx:212-219 | the `incr_counter` transition |
| PortfolioBuilder.StockPortfolioBuilderObj.Failed | cxx/urph-fin-core/src/storage/storage.hxx:220-222 | deletes itself without delivering |
| PortfolioBuilder.TxListFor | cxx/urph-fin-core/src/storage/storage.hxx:231-242 | a stock with a transaction allocator gets a list of exactly its transactions; one without gets an empty list with a null head |
| PortfolioBuilder.CreateStockWithTx | cxx/urph-fin-core/src/storage/storage.hxx:224-245 | one entry per allocated stock in stock order, each pointing at its stock and holding exactly its symbol's transactions, or none |
| Storage.FundLessTransitive | cxx/urph-fin-core/src/storage/storage.hxx:330-334 | the fund comparator, by broker then name through `strcmp`, is transitive |
| Storage.FundLessTotal | cxx/urph-fin-core/src/storage/storage.hxx:330-334 | two funds are ordered one way or the other unless they share broker and name |
| Storage.FundLessStrictWeakOrder | cxx/urph-fin-core/src/storage/storage.hxx:330-334 | the fund comparator is a strict weak order, as `std::sort` requires |
| Storage.SortedFundsOrder | cxx/urph-fin-core/src/storage/storage.hxx:330-334 | a sorted fund list is ascending by broker and, within a broker, by name |
| Storage.DeliverFunds | cxx/urph-fin-core/src/storage/storage.hxx:329-337 | the delivered `FundPortfolio` holds exactly the allocated funds, rearranged into broker-then-name order |
| Storage.DeliverPortfolio | cxx/urph-fin-core/src/storage/storage.hxx:344-348 | the delivered `StockPortfolio` holds exactly the allocated stocks and one entry per stock with that stock's transactions |
| Storage.DeliverQuotes | cxx/urph-fin-core/src/storage/storage.hxx:358-360 | the delivered `Quotes` hold exactly the allocated quotes, in order |
| Storage.DeliverBrokers | cxx/urph-fin-core/src/storage/storage.hxx:319-323 | the delivered `AllBrokers` hold exactly the allocated brokers, in order |
| Firestore.FilterWhereIn | cxx/urph-fin-core/cloud-src/firestore.cc:491-507 | non-empty batches of at most `FILTER_WHERE_IN_LIMIT` = 10 ids, all but the last full; concatenated in issue order they are the first `total_num` ids, each once, in `ceil(total_num/10)` batches; a non-positive `total_num` issues none |
| Firestore.LatestQuotesBatches | cxx/urph-fin-core/src/storage/firestore.cc:347-351 | `get_latest_quotes`, called with `num != 0` as its assertion demands, queries exactly the first `num` symbols in batches of at most 10 |
| Firestore.OnSubQueryComplete | cxx/urph-fin-core/cloud-src/firestore.cc:464-479 | each completion counts once; a non-empty success places its first document's item; an error calls `failed()` and throws "Failed to query sub collection"; `succeed()` fires once the counter reaches `max_counter` |
| Firestore.SubCollectionSucceedsOnLast | cxx/urph-fin-core/cloud-src/firestore.cc:464-479 | when the completions still due all succeed, `succeed()` fires on the last of them and `onSuccess` gets one item per non-empty result, in completion order |
| Firestore.SubCollectionFailure | cxx/urph-fin-core/cloud-src/firestore.cc:473-476 | a failed sub-query before the count is complete deletes the builder with no delivery, and any later completion reaches a deleted builder |
| Firestore.GetNumAsDouble | cxx/urph-fin-core/cloud-src/firestore.cc:510-514 | null reads 0, an integer is converted, a double is taken as it is |
| Firestore.QuotePrice | cxx/urph-fin-core/cloud-src/firestore.cc:405-412 | the quote's "price" when the field is valid, otherwise its "rate" |
| Firestore.ForEachDoc | cxx/urph-fin-core/cloud-src/firestore.cc:516-527 | null when the fetch fails or the collection is empty; otherwise the handler's result |
| Firestore.GetAllBrokerNames | cxx/urph-fin-core/src/storage/firestore.cc:228-240 | no broker documents, or a failed fetch, leave `size` at 0 with no builder; otherwise `size` is the broker count and the builder holds one name per broker, in document order |
| Firestore.StocksQuery | cxx/urph-fin-core/src/storage/firestore.cc:455-463 | always restricted to types "Stock" and "ETF"; a name clause exactly when a symbol is given, a broker clause exactly when a broker is given |
| Firestore.FirstNotPending | cxx/urph-fin-core/src/storage/firestore.cc:74 | the number of polls before the status first leaves pending |
| Firestore.Await | cxx/urph-fin-core/src/storage/firestore.cc:72-87 | polls at most `kTimeoutMs / kSleepMs` = 50 times, stopping as soon as the future is not pending; succeeds exactly when the status is then complete and the error code is 0 |
| Firestore.AwaitUnbounded | cxx/urph-fin-core/cloud-src/firestore.cc:124-139 | with the timeout test commented out, waits as long as the future is pending; once it stops, succeeds exactly when the status is complete and the error code is 0 |
| FirestorePortfolio.WithTxOf | cxx/urph-fin-core/cloud-src/firestore.cc:338-350 | a stock whose transaction query succeeded with transactions gains a fully counted allocator holding them; other stocks keep their entries |
| FirestorePortfolio.AddStocksRun | cxx/urph-fin-core/cloud-src/firestore.cc:330-333 | the `add_stock` loop places one stock per document, in document order, changing nothing else |
| FirestorePortfolio.TxEventsRun | cxx/urph-fin-core/cloud-src/firestore.cc:341-350 | the `incr_counter`/`addTx` loop of a stock places every transaction in order and then finishes that stock |
| FirestorePortfolio.PairRun | cxx/urph-fin-core/cloud-src/firestore.cc:342-349 | one `incr_counter` then `addTx` counts and places one transaction |
| FirestorePortfolio.CompletionRun | cxx/urph-fin-core/cloud-src/firestore.cc:337-356 | the calls of one transaction sub-query's completion finish that stock: with its transactions on success, through `rm_stock` on an error |
| FirestorePortfolio.CompletionsRun | cxx/urph-fin-core/cloud-src/firestore.cc:337-356 | completions of exactly the pending stocks, in any order, take the builder to its final state |
| FirestorePortfolio.FirestorePortfolioFlow | cxx/urph-fin-core/cloud-src/firestore.cc:324-366 | for any completion order, the corrected builder delivers once, with every stock in document order and an allocator for exactly the stocks with transactions; as written it delivers only when the last completion succeeded and the portfolio is non-empty, otherwise it stays alive at 0 pending |
| FirestorePortfolio.FoldTxContents | cxx/urph-fin-core/cloud-src/firestore.cc:338-350 | the delivered map has an entry for exactly the stocks with transactions, each holding them in query order, fully counted |
| FirestorePortfolio.TxMapContents | cxx/urph-fin-core/cloud-src/firestore.cc:338-350 | the delivered map's keys are exactly the symbols of the stocks with transactions, each with those transactions |
| FirestorePortfolio.AsWrittenFailedTxQueryNeverDelivers | cxx/urph-fin-core/cloud-src/firestore.cc:352-355 | as written, a one-stock portfolio whose transaction query fails leaves the builder alive at 0 pending, never calling `onSuccess` |
| FirestorePortfolio.AsWrittenEmptyPortfolioNeverDelivers | cxx/urph-fin-core/cloud-src/firestore.cc:327-329 | as written, a stocks query with no documents never delivers; the corrected builder delivers the empty portfolio |
| FirestorePortfolio.StocksQueryFailure | cxx/urph-fin-core/cloud-src/firestore.cc:359-364 | a failed stocks query calls `failed()`: the builder is gone and nothing is delivered |
| DynamoQuery.PageFoldContinues | cxx/urph-fin-core/cloud-src/dynamodb.cc:105-109 | an item the handler accepts and continues past hands its new state to the rest of the page |
| DynamoQuery.QueryFoldSingle | cxx/urph-fin-core/cloud-src/dynamodb.cc:95-110 | a query answered by one final page is its count callback followed by that page's item loop |
| DynamoQuery.PageFoldAppends | cxx/urph-fin-core/cloud-src/dynamodb.cc:105-109 | a handler that only logs each item and continues leaves the log extended by every remaining item, in order, and throws nothing |
| DynamoQuery.DbQuery | cxx/urph-fin-core/cloud-src/dynamodb.cc:65-114 | the `while(true)` loop over the server's responses ends in the state and exception of the page fold: count callback per page, items in order, next page while the last-evaluated key is non-empty, a failed request throwing its message, and an `onItem` that throws leaving the state it reached |
| DynamoQuery.SinglePageDbQuery | cxx/urph-fin-core/cloud_src/dynamodb.cc:63-74 | one request without paging: a failure throws before any callback; otherwise `onItemCount(count)`, then the items, with `is_last` on the one whose 1-based index equals the count, stopping after a false answer |
| DynamoQuery.FirstTerminal | cxx/urph-fin-core/cloud-src/dynamodb.cc:110 | the first response after which nothing more is requested: a failure or one with an empty last-evaluated key |
| DynamoQuery.CountsOfAppend | cxx/urph-fin-core/cloud-src/dynamodb.cc:103 | the count callbacks of two call logs in turn are those of each, in turn |
| DynamoQuery.PageFoldShape | cxx/urph-fin-core/cloud-src/dynamodb.cc:104-109 | a page's item calls are its items in order with their `is_last` flags, only the last can have stopped the page, and with non-throwing callbacks nothing is thrown |
| DynamoQuery.PageFoldNoError | cxx/urph-fin-core/cloud-src/dynamodb.cc:105-109 | with callbacks that never throw, the item loop throws nothing |
| DynamoQuery.QueryFetchesEveryPage | cxx/urph-fin-core/cloud-src/dynamodb.cc:89-113 | whatever `onItem` answers, pages are requested until the first failure or empty last-evaluated key; `onItemCount` runs once per page with its count; the query throws exactly when that response failed, with its message |
| DynamoQuery.IsLastOnlyAtTheEnd | cxx/urph-fin-core/cloud-src/dynamodb.cc:107 | `is_last` is true only for the last item of a page whose last-evaluated key is empty, and only on the query's last callback |
| DynamoQuery.FalseStopsThePageOnly | cxx/urph-fin-core/cloud-src/dynamodb.cc:107-111 | `onItem` answering false stops that page only: the next callback, if any, is the next page's count |
| DynamoQuery.QueryStartsWithCount | cxx/urph-fin-core/cloud-src/dynamodb.cc:95-103 | a query starts with `onItemCount` unless its first request fails |
| DynamoQuery.IsLastFiresIffFinalPageNonEmpty | cxx/urph-fin-core/cloud-src/dynamodb.cc:107 | with a handler that always continues, `is_last` fires exactly when the final page is non-empty |
| DynamoQuery.SignalsLastAppend | cxx/urph-fin-core/cloud-src/dynamodb.cc:107 | a call log signals `is_last` exactly when one of its halves does |
| DynamoQuery.PageSignalsLast | cxx/urph-fin-core/cloud-src/dynamodb.cc:103-109 | one counted page whose handler always continues signals `is_last` exactly when it is a non-empty final page |
| DynamoQuery.PageFoldVisitsAll | cxx/urph-fin-core/cloud-src/dynamodb.cc:105-109 | a handler that always continues is called once per remaining item |
| DynamoQuery.FindMatchedStr | cxx/urph-fin-core/cloud-src/dynamodb.cc:41-49 | true exactly when one of the first `num` strings equals the one sought; never for `num <= 0` |
| DynamoRequests.ByPartitionKey | cxx/urph-fin-core/cloud-src/dynamodb.cc:116-133 | the request on table "urph-fin" with the given index, key condition and filter binds exactly one attribute name and one value |
| DynamoRequests.ByName | cxx/urph-fin-core/cloud-src/dynamodb.cc:135-138 | the table's own key: condition "#name_n = :name_v", with "#name_n" bound to "name" and ":name_v" to the name; every placeholder used is bound and every bound one used |
| DynamoRequests.BySub | cxx/urph-fin-core/cloud-src/dynamodb.cc:140-143 | the "sub-name-index": condition "#sub_n = :sub_v", with "#sub_n" bound to "sub" and ":sub_v" to the sub key; well formed |
| DynamoRequests.ByNameAndSub | cxx/urph-fin-core/cloud-src/dynamodb.cc:173-190 | both keys bound ("#name_n", "#sub_n", ":name_v", ":sub_v"), and a null key condition means "#name_n = :name_v AND #sub_n = :sub_v" |
| DynamoRequests.FundsRequest | cxx/urph-fin-core/cloud-src/dynamodb.cc:306-308 | the fund transactions of one update date: the index, `sub = "x#" + date`, the filter "attribute_exists(capital)" |
| DynamoRequests.BrokerRequest | cxx/urph-fin-core/cloud-src/dynamodb.cc:221-227 | the broker record: the index, name and sub "B#", no filter |
| DynamoRequests.AllBrokersRequest | cxx/urph-fin-core/cloud-src/dynamodb.cc:452-455 | every broker record: sub "B#", no filter |
| DynamoRequests.StockSymbolsRequest | cxx/urph-fin-core/cloud-src/dynamodb.cc:342-344 | every stock record: sub "I#S", no filter |
| DynamoRequests.LatestQuotesRequest | cxx/urph-fin-core/cloud-src/dynamodb.cc:357-358 | the records under one sub key with the filter "attribute_exists(last_price)" |
| DynamoRequests.StocksKey | cxx/urph-fin-core/cloud-src/dynamodb.cc:398-405 | the stocks key condition uses the sub key, and the name key too exactly when a symbol is given |
| DynamoRequests.StocksRequest | cxx/urph-fin-core/cloud-src/dynamodb.cc:397-406 | the stocks of `get_stock_portfolio`: the index, sub "I#S", a name binding exactly when a symbol is given, filter "attribute_exists(last_price)"; well formed |
| DynamoRequests.TxKeyShape | cxx/urph-fin-core/cloud-src/dynamodb.cc:425 | the transaction key condition "#name_n = :name_v and begins_with(#sub_n, :sub_v)" uses exactly the two name and two value placeholders |
| DynamoRequests.TxRequest | cxx/urph-fin-core/cloud-src/dynamodb.cc:412-426 | the transactions of one stock: name bound to the stock, sub prefix "x#", and a broker filter "#broker_n = :broker_v" exactly when a broker is given; well formed |
| DynamoDao.FailureOfTerminal | cxx/urph-fin-core/cloud-src/dynamodb.cc:96-98 | the query fails exactly when the response it stops on is a failure, with that message |
| DynamoDao.BrokerByNamePaged | cxx/urph-fin-core/cloud-src/dynamodb.cc:221-228 | over the paged query, `onBrokerData` receives the first item of each response, since `false` ends only that response, and an empty response throws "no such broker" |
| DynamoDao.GetBrokerByName | cxx/urph-fin-core/cloud-src/dynamodb.cc:221-228 | sends the broker request and hands on exactly the first item of each response, throwing a failed response's message or "no such broker" |
| DynamoDao.GetBrokerByNameOnce | cxx/urph-fin-core/cloud_src/dynamodb.cc:149-158 | one request: a failure throws its message; an empty result throws "no such broker"; otherwise only the first item reaches `onBrokerData` |
| DynamoDao.FlaggedItems | cxx/urph-fin-core/cloud-src/dynamodb.cc:166-168 | each forwarded item carries `is_last` exactly when it is the last item of a final response |
| DynamoDao.ForwardPage | cxx/urph-fin-core/cloud-src/dynamodb.cc:163-171 | the forwarder passes every remaining item of a response on, with its flag, and throws nothing |
| DynamoDao.ForwardQuery | cxx/urph-fin-core/cloud-src/dynamodb.cc:163-171 | the forwarder never stops early: every item of every fetched response reaches `onItem` with its flag, after that response's count, and the query throws exactly on a failed response |
| DynamoDao.GetItemsBySubKey | cxx/urph-fin-core/cloud-src/dynamodb.cc:163-171 | queries the sub key without filter and forwards counts and flagged items as above |
| DynamoDao.GetAllBrokerItemsOnce | cxx/urph-fin-core/cloud_src/dynamodb.cc:243-252 | one request for the broker records: a failure passes nothing on; otherwise the count, then every item in order, `is_last` on the last one only |
| DynamoDao.CollectPage | cxx/urph-fin-core/cloud-src/dynamodb.cc:345-353 | a response's items are added to the current builder in order, and it is handed over on `is_last` |
| DynamoDao.CollectQuery | cxx/urph-fin-core/cloud-src/dynamodb.cc:342-355 | with a new builder per response, the result callback runs once, with the last response's items only, when that response is non-empty, and never when it is empty |
| DynamoDao.GetNonFundSymbols | cxx/urph-fin-core/cloud-src/dynamodb.cc:342-355 | queries every stock record; `onResult` receives the names of the final response's items when it is non-empty, otherwise nothing |
| DynamoDao.GetBrokers | cxx/urph-fin-core/cloud-src/dynamodb.cc:291-304 | queries every broker record; the `AllBrokerBuilder` handed over holds the final response's brokers when it is non-empty, otherwise nothing is handed over |
| DynamoDao.EmptyFinalNeverHandsOver | cxx/urph-fin-core/cloud-src/dynamodb.cc:346-353 | an empty final response hands nothing over, even when earlier responses held items |
| DynamoDao.AddAllAppend | cxx/urph-fin-core/cloud-src/dynamodb.cc:364 | adding two runs of quotes in turn is adding their concatenation |
| DynamoDao.AddAllFits | cxx/urph-fin-core/cloud-src/dynamodb.cc:364 | records that fit the buffer place their quotes after the builder's own, in order |
| DynamoDao.AddAllFromNone | cxx/urph-fin-core/src/storage/storage.hxx:153-155 | after a placement past the buffer no later `add_quote` has a defined result |
| DynamoDao.AddAllOverflows | cxx/urph-fin-core/src/storage/storage.hxx:153-155 | more records than cells left place a quote past the buffer |
| DynamoDao.AddAllOutcome | cxx/urph-fin-core/src/storage/storage.hxx:153-155 | on a live builder the records' quotes follow the builder's own exactly when they fit; otherwise a placement runs past the buffer |
| DynamoDao.FxPage | cxx/urph-fin-core/cloud-src/dynamodb.cc:360-369 | the currency handler places every item of a response and succeeds on an `is_last` item |
| DynamoDao.FxQuery | cxx/urph-fin-core/cloud-src/dynamodb.cc:374-375 | the currency query places every fetched quote, succeeds exactly when its last response is non-empty and throws only on a failed response |
| DynamoDao.StockPage | cxx/urph-fin-core/cloud-src/dynamodb.cc:360-369 | the stock handler places every item of a response and, on `is_last`, runs the currency query, whose end state and exception, failure included, are the page's |
| DynamoDao.StockQuery | cxx/urph-fin-core/cloud-src/dynamodb.cc:373-377 | the stock query places every fetched stock quote; the currency query runs on the result exactly when the last stock response is non-empty, and its end state and exception are the query's, also when it fails |
| DynamoDao.GetLatestQuotes | cxx/urph-fin-core/cloud-src/dynamodb.cc:357-377 | the builder gets every stock quote and, when the last stock response is non-empty, every currency quote after them; it succeeds exactly when both last responses are non-empty, otherwise it is left waiting; a failed currency response throws and leaves the builder alive with every stock quote and the currency quotes fetched before the failure; more records than its cells run past the buffer |
| DynamoDao.AllQuotesOverflowPreallocation | cxx/urph-fin-core/src/storage/storage.hxx:356-363 | `get_quotes` without symbols preallocates 10 cells, so an eleventh fetched stock quote is placed past the buffer |
| DynamoCountAware.PlacedBy | cxx/urph-fin-core/cloud-src/dynamodb.cc:146-156 | no more values are placed than items were accepted |
| DynamoCountAware.NthAccepted | cxx/urph-fin-core/cloud-src/dynamodb.cc:150-153 | the item that brings the count to `k` exists, is accepted, and exactly `k` items up to it are accepted |
| DynamoCountAware.AcceptedNumAppend | cxx/urph-fin-core/cloud-src/dynamodb.cc:146-156 | accepted counts and placed values add up over concatenated runs of items |
| DynamoCountAware.FilledAppend | cxx/urph-fin-core/cloud-src/dynamodb.cc:146-156 | taking two runs of items one after the other is taking their concatenation |
| DynamoCountAware.NthAcceptedAppend | cxx/urph-fin-core/cloud-src/dynamodb.cc:150-153 | the item completing the `k`-th count of a concatenation lies in the first run when that run accepted `k` items, otherwise at the matching place of the second run |
| DynamoCountAware.CountAwareResultDone | cxx/urph-fin-core/cloud-src/dynamodb.cc:152-156 | items after the one that completes `max_counter` change nothing |
| DynamoCountAware.CountAwareResultPending | cxx/urph-fin-core/cloud-src/dynamodb.cc:146-156 | items that do not complete the count are all taken and the builder stays ready for more |
| DynamoCountAware.FilledPrefix | cxx/urph-fin-core/cloud-src/dynamodb.cc:146-156 | taking a prefix that reaches into the second run is taking the whole first run, then a prefix of the second |
| DynamoCountAware.PendingThenDone | cxx/urph-fin-core/cloud-src/dynamodb.cc:146-156 | when the count is completed in the second run, the result is that of the second run on the builder left by the first |
| DynamoCountAware.CountAwarePage | cxx/urph-fin-core/cloud-src/dynamodb.cc:145-161 | under either rules one response on a ready builder ends in the count-aware result of its items, and nothing throws |
| DynamoCountAware.ConsumedStays | cxx/urph-fin-core/cloud-src/dynamodb.cc:152-156 | corrected, once the builder has succeeded no later response touches it |
| DynamoCountAware.CountAwareQuery | cxx/urph-fin-core/cloud-src/dynamodb.cc:145-161 | corrected (or with one response) the builder ends as the count-aware result of every fetched item: it succeeds exactly once, when `max_counter` items have been accepted, and rejected items never count; it throws exactly on a failed response |
| DynamoCountAware.PlacedByFrom | cxx/urph-fin-core/cloud-src/dynamodb.cc:150-151 | every placed value comes from an accepted item |
| DynamoCountAware.CountAwareResultShape | cxx/urph-fin-core/cloud-src/dynamodb.cc:145-161 | the result takes a prefix of the items, placing their values after the builder's own and counting the accepted ones; it has succeeded exactly when the missing count was reached, and then its counter equals `max_counter` |
| DynamoCountAware.FundOf | cxx/urph-fin-core/cloud-src/dynamodb.cc:316-332 | the fund keeps the record's numbers, its profit is market value less capital, its return is profit over a non-zero capital, and broker and name are copied |
| DynamoCountAware.FundsOnlyRequested | cxx/urph-fin-core/cloud-src/dynamodb.cc:306-337 | `get_funds` counts only records whose fund name is among the first `funds_num` requested names, and every fund it places is the fund of such a record |
| DynamoCountAware.AsWrittenQuotesCountEveryItem | cxx/urph-fin-core/cloud-src/dynamodb.cc:379-392 | as written every record counts toward `max_counter`, requested or not |
| DynamoCountAware.Requested | cxx/urph-fin-core/cloud-src/dynamodb.cc:382-384 | picks, in order, only records whose symbol is among the requested ones |
| DynamoCountAware.CorrectedQuotesCountRequested | cxx/urph-fin-core/cloud-src/dynamodb.cc:379-392 | corrected, exactly the records of requested symbols count, and they place their quotes in arrival order |
| DynamoCountAware.Restore | cxx/urph-fin-core/src/storage/storage.hxx:37-45 | the builder's state becomes the one the query left |
| DynamoCountAware.GetFunds | cxx/urph-fin-core/cloud-src/dynamodb.cc:306-337 | corrected: sends the request for the update date; the builder ends as the count-aware result of the fetched records, and the error is that of a failed last response |
| DynamoCountAware.GetSelectedQuotes | cxx/urph-fin-core/cloud-src/dynamodb.cc:379-392 | corrected: sends the stock-quote request; the builder ends as the count-aware result of the fetched records, and the error is that of a failed last response |
| DynamoCountAware.AsWrittenSelectedQuotesCountUnmatched | cxx/urph-fin-core/cloud-src/dynamodb.cc:384 | as written, asked for "B" with one slot, a response holding "A" then "B" makes the builder succeed with no quote |
| DynamoCountAware.CorrectedSelectedQuotesSkipUnmatched | cxx/urph-fin-core/cloud-src/dynamodb.cc:379-392 | corrected, the same response delivers exactly the quote of "B" |
| DynamoCountAware.AsWrittenUseAfterSucceed | cxx/urph-fin-core/cloud-src/dynamodb.cc:107-111 | as written, `false` after success ends only the current response, so an accepted record on the next response reaches the deleted builder; corrected, the builder succeeds once and is left alone |
| DynamoPortfolio.TxFieldsOf | cxx/urph-fin-core/cloud-src/dynamodb.cc:428-436 | a "SPLIT" record gives `addTx` zero fee and zero shares, whatever it stores; any other type passes fee and shares as stored; broker, type, price and date are always passed through |
| DynamoPortfolio.DocsOfAt | cxx/urph-fin-core/cloud-src/dynamodb.cc:403-445 | the `k`-th stock seen is the one of the `k`-th record |
| DynamoPortfolio.TxGather | cxx/urph-fin-core/cloud-src/dynamodb.cc:425-442 | walking a stock's transaction records makes an `incr_counter`/`addTx` pair per record, in order |
| DynamoPortfolio.StockCallsSingle | cxx/urph-fin-core/cloud-src/dynamodb.cc:407-445 | a stock record answered by one final transaction response adds the stock, then prepares its transaction allocator with the count and adds every transaction |
| DynamoPortfolio.StockGather | cxx/urph-fin-core/cloud-src/dynamodb.cc:407-445 | walking the stock records handles stock after stock, each followed by its own transactions |
| DynamoPortfolio.StockHandlerAppends | cxx/urph-fin-core/cloud-src/dynamodb.cc:407-445 | the stock handler always continues and only appends that stock's calls |
| DynamoPortfolio.PortfolioCalls | cxx/urph-fin-core/cloud-src/dynamodb.cc:397-449 | with one final stock response: `prepare_stock_alloc(count)`, then per stock `add_stock`, `prepare_tx_alloc(name, tx_count)` and the transaction pairs; nothing throws |
| DynamoPortfolio.HeadRun | cxx/urph-fin-core/src/storage/storage.hxx:177-219 | on the builder, a new stock with room, followed by its transaction calls, is added and then completed |
| DynamoPortfolio.InterleavedRun | cxx/urph-fin-core/src/storage/storage.hxx:159-270 | distinct stocks handled one after the other, with room for all, end with every stock placed in order and a transaction allocator for each stock that has transactions |
| DynamoPortfolio.InterleavedFlow | cxx/urph-fin-core/src/storage/storage.hxx:181-270 | `prepare_stock_alloc(n)` then `n` distinct stocks each handled in full delivers exactly once, with every stock in order; as written, never when `n` is zero |
| DynamoPortfolio.DynamoPortfolioFlow | cxx/urph-fin-core/cloud-src/dynamodb.cc:397-449 | with one final response per query the whole query delivers the portfolio exactly once with every stock in response order, except that as written an empty stock response never delivers |
| DynamoPortfolio.TxRequestsOfAppend | cxx/urph-fin-core/cloud-src/dynamodb.cc:407-430 | the transaction requests of two runs of calls are those of each run in turn |
| DynamoPortfolio.TxEventsSendNoRequest | cxx/urph-fin-core/cloud-src/dynamodb.cc:424-440 | a stock's `incr_counter`/`addTx` calls send no further transaction request |
| DynamoPortfolio.TxRequestPerStock | cxx/urph-fin-core/cloud-src/dynamodb.cc:407-430 | over the interleaved calls, the k-th transaction request is for the k-th stock's name, with the broker filter iff a broker is given |
| DynamoPortfolio.SingleResponseRequests | cxx/urph-fin-core/cloud-src/dynamodb.cc:397-449 | with one final response per query the calls are `prepare_stock_alloc(count)` then the interleaved stock calls, nothing is thrown, and one transaction request goes out per stock in order |
| DynamoPortfolio.GetStockPortfolio | cxx/urph-fin-core/cloud-src/dynamodb.cc:397-449 | sends the stocks request for the given symbol and one transaction request right after each `add_stock`, for that name and the caller's broker; with one final stock response whose stocks each get one final transaction response, the calls made on the builder are exactly those above and the transaction requests are one per stock in order |
| MongoDao.FindSpec | cxx/urph-fin-core/cloud-src/mongodb.cc:434-435 | `doc[key]` is valid exactly when some field has that name, and then holds the value of the first such field |
| MongoDao.FindFirst | cxx/urph-fin-core/cloud-src/mongodb.cc:434-435 | a field is what `doc[key]` returns when no earlier field has that name |
| MongoDao.TruncToZero | cxx/urph-fin-core/cloud-src/mongodb.cc:73 | the C cast of a double to an integer truncates toward zero, for both signs |
| MongoDao.GetString | cxx/urph-fin-core/cloud-src/mongodb.cc:434 | `get_string()` succeeds exactly on a string element and returns its text |
| MongoDao.GetDocument | cxx/urph-fin-core/cloud-src/mongodb.cc:463 | `get_document()` succeeds exactly on a document element and returns it |
| MongoDao.SafeGetDouble | cxx/urph-fin-core/cloud-src/mongodb.cc:67-70 | reads exactly the int32 and double elements, an int32 converted exactly |
| MongoDao.SafeGetInt32 | cxx/urph-fin-core/cloud-src/mongodb.cc:71-74 | reads the same elements as `safe_get_double`, the value truncated toward zero, an int32 as stored |
| MongoDao.SafeGetTimestamp | cxx/urph-fin-core/cloud-src/mongodb.cc:75-88 | agrees with `safe_get_int32` where that reads, reads an int64 as stored, gives 0 for any other type and throws only on an absent element |
| MongoDao.MvStr | cxx/urph-fin-core/cloud-src/mongodb.cc:385 | a null C string becomes the empty string, any other is kept |
| MongoDao.FilterOf | cxx/urph-fin-core/cloud-src/mongodb.cc:407-416 | the filter asks for funds, or for stocks and ETFs, and adds a name condition exactly when the symbol is non-empty |
| MongoDao.Matching | cxx/urph-fin-core/cloud-src/mongodb.cc:494 | the cursor returns exactly the collection's documents that match the filter |
| MongoDao.FilterSelects | cxx/urph-fin-core/cloud-src/mongodb.cc:401-416 | a document passes the filter exactly when its type is of the requested kind and, when a symbol is given, its name is that symbol; a null and an empty symbol filter alike |
| MongoDao.ExpectedBroker | cxx/urph-fin-core/cloud-src/mongodb.cc:427-429 | an empty broker accepts every transaction; otherwise a transaction passes exactly when its `broker` string equals it, and one without a string `broker` throws |
| MongoDao.ProcessTxObj | cxx/urph-fin-core/cloud-src/mongodb.cc:441-458 | the loop leaves the state and the caught exception that `process_tx_obj` is specified to give: an array element by element through the broker filter, anything else as one document |
| MongoDao.AcceptedDocs | cxx/urph-fin-core/cloud-src/mongodb.cc:445-448 | keeps, in order, only transactions the broker filter accepts |
| MongoDao.TxArrayFilters | cxx/urph-fin-core/cloud-src/mongodb.cc:443-449 | over an array of readable transactions `onTx` receives exactly the accepted ones, in order, and nothing throws |
| MongoDao.ProcessTxFilters | cxx/urph-fin-core/cloud-src/mongodb.cc:441-458 | `process_tx_obj` hands `onTx` exactly the transactions the broker filter accepts: every accepted array element, or the one document when it is accepted |
| MongoDao.RatioValue | cxx/urph-fin-core/cloud-src/mongodb.cc:472-473 | a missing asset class gets 0; a present one is read by `safe_get_double` |
| MongoDao.RatiosFrom | cxx/urph-fin-core/cloud-src/mongodb.cc:471-474 | from slot `i` on, the ratios read exactly when each slot's value reads, and slot `k` holds the value of the `k`-th asset-class name |
| MongoDao.RatioOf | cxx/urph-fin-core/cloud-src/mongodb.cc:63-65 | all four slots read exactly when every present value is a number, and slot `k` holds the value named `ASSET_CLASS_RATIO_NAMES[k]`, 0 when it is absent |
| MongoDao.GetRatio | cxx/urph-fin-core/cloud-src/mongodb.cc:469-475 | in place, sets all four slots to the ratios when they all read; otherwise stops at the first unreadable one, with the slots before it set and the rest unchanged |
| MongoDao.TxEntries | cxx/urph-fin-core/cloud-src/mongodb.cc:503-505 | the entry loop gives the state of passing every `tx` entry through `process_tx_obj` in order |
| MongoDao.CursorStep | cxx/urph-fin-core/cloud-src/mongodb.cc:496-506 | one document throws exactly when its head does not read or `onInstrument` throws, and then leaves the state it found |
| MongoDao.CursorDoc | cxx/urph-fin-core/cloud-src/mongodb.cc:496-506 | one document of the cursor loop ends in the state and exception its specification gives: ratios, `onInstrument` with `tx_num`, then its entries unless skipped |
| MongoDao.CursorLoop | cxx/urph-fin-core/cloud-src/mongodb.cc:494-506 | the cursor loop ends in the state and exception of the document fold: every matching document in turn until one throws |
| MongoDao.ExceptionKeepsEarlierDocuments | cxx/urph-fin-core/cloud-src/mongodb.cc:494-506 | an exception on document `k` ends the loop with exactly the state the documents before it reached, and nothing after `k` runs |
| MongoDao.GetInstrumentTx | cxx/urph-fin-core/cloud-src/mongodb.cc:387-516 | sends the filter built from kind and symbol and finishes with the state `get_instrument_tx` is specified to reach, together with the exception that ended the job, if one did |
| MongoDao.IgnoreTxSkipsTransactions | cxx/urph-fin-core/cloud-src/mongodb.cc:501 | with `ignoreTx` the outcome does not depend on `onTx` at all |
| MongoDao.NoEntriesSkipsTransactions | cxx/urph-fin-core/cloud-src/mongodb.cc:498-501 | an instrument with no `tx` entries is only announced to `onInstrument`, with a count of 0: the step is the one `ignoreTx` takes, whatever the broker and `onTx` |
| MongoDao.ReadTx | cxx/urph-fin-core/cloud-src/mongodb.cc:370-383 | the `addTx` arguments are the stored type, broker, price and date; a "SPLIT" passes 0 shares and 0 fee without reading them, any other type passes its stored shares and fee |
| MongoDao.AddTxUpdate | cxx/urph-fin-core/cloud-src/mongodb.cc:308-332 | updates the instrument named by the symbol, setting the transaction document under `tx`, keyed by the date as yyyymmdd |
| MongoDao.UpdateCashUpdate | cxx/urph-fin-core/cloud-src/mongodb.cc:334-347 | updates the broker named `broker`, setting its balance under `cash`, keyed by the currency |
| MongoDao.SplitAtFirstDot | cxx/urph-fin-core/cloud-src/mongodb.cc:322 | a dotted path splits back into its field and the rest when the field has no dot |
| MongoDao.TxDocumentFields | cxx/urph-fin-core/cloud-src/mongodb.cc:310-317 | the stored transaction holds broker, symbol, date, fee, price, shares and type, each under its own field |
| MongoDao.TxDocumentReadsBack | cxx/urph-fin-core/cloud-src/mongodb.cc:308-383 | a transaction stored by `add_tx` reads back through the private `add_tx` with every field as given, except that a split's shares and fee read as 0 |
| MongoDao.TxCallsAfterTrans | cxx/urph-fin-core/cloud-src/mongodb.cc:503-505 | `addTx` calls for one stock after `addTx` calls for it are still only `addTx` calls for it |
| MongoDao.TxCallsKeepUnfinished | cxx/urph-fin-core/cloud-src/mongodb.cc:360-363 | only `addTx` calls after a log without `complete()` keep it without one |
| MongoDao.PortfolioEntriesKeep | cxx/urph-fin-core/cloud-src/mongodb.cc:503-505 | the entry loop of a stock makes only `addTx` calls for that stock |
| MongoDao.StockAnnouncedBeforeItsTx | cxx/urph-fin-core/cloud-src/mongodb.cc:356-362 | a matched stock is announced with `add_stock` and then `prepare_tx_alloc` with its date-entry count, and every later call up to the next stock is an `addTx` for it |
| MongoDao.StoredTxReachesAddTx | cxx/urph-fin-core/cloud-src/mongodb.cc:360-382 | a transaction stored by the public `add_tx` reaches `onTx` as one `addTx` for the stock, every field as stored and a split's shares and fee 0 |
| MongoDao.PortfolioCursorKeeps | cxx/urph-fin-core/cloud-src/mongodb.cc:494-506 | the cursor loop of `get_stock_portfolio` never calls `complete()` and keeps the opening allocator guess first |
| MongoDao.MongoStockPortfolio | cxx/urph-fin-core/cloud-src/mongodb.cc:349-365 | the calls open with the allocator guess of 10; `complete()` comes last, once, exactly when no exception ended the job; after an exception the calls made for earlier documents remain |
| MongoDao.TxNumCountsDates | cxx/urph-fin-core/cloud-src/mongodb.cc:460-467 | `tx_num` counts date entries, not trades: a stock whose one entry holds two trades is announced with `prepare_tx_alloc(sym, 1)` and then gets two `addTx` calls |
| CliStock.FlattenLength | cxx/cli/src/stock.cc:28-34 | the flattened list has one pair per transaction of every entry |
| CliStock.FlattenAt | cxx/cli/src/stock.cc:28-34 | transaction `k` of entry `i` sits at offset `k` after the transactions of the earlier entries, paired with the symbol of that entry's stock |
| CliStock.TotalTxGrows | cxx/cli/src/stock.cc:28-34 | offsets of consecutive entries lie at least that entry's `num` apart, so no two transactions share a position |
| CliStock.NonNegativeTotal | cxx/cli/src/stock.cc:28-34 | the number of transactions is never negative |
| CliStock.FlattenTx | cxx/cli/src/stock.cc:28-34 | the nested loops build exactly the flattened list, entry after entry and transaction after transaction |
| CliStock.NewerFirstIsStrictWeakOrder | cxx/cli/src/stock.cc:35 | the comparator `c1.date > c2.date` is a strict weak order, as `std::sort` requires |
| CliStock.SortedByNewerFirst | cxx/cli/src/stock.cc:35 | a list sorted by that comparator is exactly one whose dates never increase |
| CliStock.RowOf | cxx/cli/src/stock.cc:37-45 | a row carries the pair's symbol, date, broker, side name, price, shares and fee |
| CliStock.ListStockTx | cxx/cli/src/stock.cc:20-51 | the header row first, then one row per transaction, newest first, with the transactions a permutation of the flattened list, none lost or added |
| CliBroker.BrokerRows | cxx/cli/src/broker.cc:72-81 | a broker without balances gives one row with a null currency and 0; otherwise one row per balance, in order, with its currency and amount |
| CliBroker.ListRowsLength | cxx/cli/src/broker.cc:72-81 | the listing has exactly the rows of every broker, broker after broker |
| CliBroker.ListRowsAt | cxx/cli/src/broker.cc:72-81 | row `k` of broker `i` sits after the rows of every earlier broker |
| CliBroker.List | cxx/cli/src/broker.cc:65-85 | sends the headers "Broker", "Currency", "Balance", then exactly the rows of every broker in order |
| CliBroker.RowFor | cxx/cli/src/broker.cc:29-39 | a null currency gives a row with the name and empty cells; otherwise the row carries currency and balance, and the name only when it differs from the previous row's |
| CliBroker.RunRows | cxx/cli/src/broker.cc:23-39 | feeding the calls to the table one by one yields exactly those rows and leaves the last name with a currency |
| CliBroker.BrokerTable.constructor | cxx/cli/src/broker.cc:25 | the table starts empty, with an empty last name |
| CliBroker.BrokerTable.AddHeaders | cxx/cli/src/broker.cc:26-28 | appends the header row and leaves the last name alone |
| CliBroker.BrokerTable.AddRow | cxx/cli/src/broker.cc:29-39 | the table's state after one call is the row model's state after that call |
| CliBroker.ListBrokerTable | cxx/cli/src/broker.cc:65-85 | with the table, the listing is the header row followed by the rows of every broker |
| CliBroker.CsvRow | cxx/cli/src/broker.cc:58-61 | the CSV prints a line exactly for calls with a currency and a non-zero amount, holding name, currency and amount |
| CliBroker.CsvLinesMembers | cxx/cli/src/broker.cc:58-61 | a CSV line appears exactly when the listing made a call with that currency and that non-zero amount |
| CliBroker.EmptyBrokerRows | cxx/cli/src/broker.cc:72-76 | a broker without balances shows a name-only row in the table and nothing in the CSV |
| CliMain.ToLvlGroup | cxx/cli/src/main.cc:279-292 | a first letter a or A groups by asset, b or B by broker, anything else (the empty string included) by currency |
| CliMain.ToLvlGroupNames | cxx/cli/src/main.cc:215-216 | each group's display name parses back to that group |
| CliMain.AddCommand | cxx/cli/src/main.cc:462-486 | after upper-casing, the side is accepted exactly when it is BUY, SELL or SPLIT, and the transaction is then added with that side; otherwise "Unknown side" and the side are printed and nothing is added |
| CliMain.AddedSideRoundTrip | cxx/cli/src/main.cc:468-480 | an added side is upper case and names one of the three sides of the core |
| CliMain.AddCommandCases | cxx/cli/src/main.cc:468-473 | "buy" and "Sell" are accepted, "sel" is refused |
| CliMain.FxSymbol | cxx/cli/src/main.cc:156-158 | the yen needs no rate; any other currency looks up its currency followed by "JPY=X" |
| CliMain.GetRate | cxx/cli/src/main.cc:132-136 | a known symbol gives its rate and date; an unknown one gives no rate and date 0 |
| CliMain.ToJpy | cxx/cli/src/main.cc:128-131 | the result is known exactly when both rate and value are, and is then their product |
| CliMain.LoadsOnce | cxx/cli/src/main.cc:109-125 | over any run of calls the quotes load once, from the first call, and every call is notified |
| CliMain.QuoteCache.constructor | cxx/cli/src/main.cc:109-111 | the cache starts with no quotes, no load and no notice |
| CliMain.QuoteCache.GetQuotes | cxx/cli/src/main.cc:109-125 | loads exactly when nothing is cached and notifies the caller either way |
| CliMain.FxRate | cxx/cli/src/main.cc:155-161 | the yen converts at 1, any other currency at its rate, unknown when it has none |
| CliMain.RowOf | cxx/cli/src/main.cc:162-192 | a row shows the holding's symbol, currency and shares with the price and date looked up; market value and profit are known exactly when price and rate are; yen amounts are the rate times the value, equal to the plain ones for a yen stock |
| CliMain.WithShares | cxx/cli/src/main.cc:152-153 | holdings without shares are left out |
| CliMain.KnownSumSnoc | cxx/cli/src/main.cc:173-174 | adding a cell adds its value to the sum when it is known, and nothing otherwise |
| CliMain.ColumnsSnoc | cxx/cli/src/main.cc:180-192 | appending a row appends its cells to both columns |
| CliMain.PositionsRows | cxx/cli/src/main.cc:147-198 | the listing has exactly one row per holding with non-zero shares, in order |
| CliMain.PositionsSums | cxx/cli/src/main.cc:173-174 | the SUM row's yen market value and profit are the sums of the known cells of those columns |
| CliMain.HoldingsOf | cxx/cli/src/main.cc:147-151 | one holding per stock with transactions, in order |
| CliMain.HoldingsSnoc | cxx/cli/src/main.cc:147-151 | holding `i` has the symbol and currency of its entry's stock and the balance of its transaction list |
| CliMain.VisitHolding | cxx/cli/src/main.cc:149-197 | one pass of the loop body advances the listing's rows and sums as one step of their specification |
| CliMain.PrintStockList | cxx/cli/src/main.cc:138-210 | the rows and SUM of the listing are the positions of the portfolio's holdings |
| CliMain.PruneItems | cxx/cli/src/main.cc:255-256 | third-level items with a zero main-currency value are left out |
| CliMain.PruneContainers | cxx/cli/src/main.cc:245-246 | second-level containers with a zero value sum are left out |
| CliMain.PruneGroups | cxx/cli/src/main.cc:235-238 | every first-level group is kept |
| CliMain.ItemRowsPrune | cxx/cli/src/main.cc:253-264 | the third-level rows are the rows of exactly the non-zero items, in order |
| CliMain.ContainerRowsPrune | cxx/cli/src/main.cc:243-265 | the second-level rows are each non-zero container's row followed by its item rows |
| CliMain.GroupRowsPrune | cxx/cli/src/main.cc:235-266 | every first-level group gives its row followed by its pruned containers' rows |
| CliMain.EmitItems | cxx/cli/src/main.cc:253-264 | the loop over items emits exactly the third-level rows |
| CliMain.EmitContainers | cxx/cli/src/main.cc:243-265 | the loop over containers emits exactly the second-level rows |
| CliMain.ListOverview | cxx/cli/src/main.cc:221-277 | the header row, then every group with its non-zero containers and items, then the SUM row |

## Left out

- The cloud SDKs and drivers (Firestore, AWS DynamoDB, mongocxx), the thread pool, the mutexes and the condition variable of the command line are not modelled. Calls happen one after another, and what a server answers is a parameter.
- Files outside the core are not part of this model: the funds listing of the command line, the Electron shell, the Dart and Android glue, and the older `src/core.cc` and headers.
- `PlacementNew::next()` is inferred from its uses, since its definition is not part of this model. Iteration over a buffer and `free` are modelled as reading its cells.
- The five-argument `Broker` constructor is not in the modelled sources. `NewBroker` follows its uses.
- `CashBalance` narrows its balance to `float`. The model keeps the `real`, so rounding is not modelled.
- Text.ToUpper: upper-cases ASCII letters only, as `boost::to_upper` does in the C locale. Other locales are not modelled.
- Firestore.Await: the status values it polls are a parameter, and so is the clock behind the sleep between polls.
- Firestore's `add_tx`, `get_broker_by_name`, `get_broker_cash_balance_and_active_funds`, `get_known_stocks`, `get_non_fund_symbols` and the fund handler of `get_funds` are not modelled. They only hand SDK results to builders that are modelled elsewhere.
- DynamoDB's `get_broker_cash_balance_and_active_funds` is not modelled. It walks the SDK's attribute map of cash balances and parses each with `std::stod` before calling the `BrokerBuilder` methods, which `Builders.BrokerBuilder` models.
- DynamoDB's `add_tx` has an empty body in `cloud-src`. The stub members of `cloud_src` do nothing, so neither is modelled.
- The older `cloud_src` DynamoDB `add_filter_attr_value` reads a map after it has been moved from. The model only covers its single-request queries.
- DynamoDao.GetNonFundSymbols, DynamoDao.GetBrokers: hand over only the final response's items, and nothing when that response is empty. This is what the code does, and `EmptyFinalNeverHandsOver` states it.
- DynamoDao.GetLatestQuotes: the chained query never succeeds when a last response is empty. This is what the code does, and the contract states it. A placement past the preallocated cells is undefined behaviour, so the contract gives no builder state for it.
- DynamoQuery.DbQuery: a page fold only knows whether a response has a successor, not the key it carries. In the code (cxx/urph-fin-core/cloud-src/dynamodb.cc:94-111) `lastKey` points into the previous iteration's response, which is destroyed when that iteration ends, so the next request reads a destroyed map. The model takes the next request to resume after the previous response, as the code evidently intends.
- DynamoQuery.QueryFetchesEveryPage: stated over the same page fold, so it inherits the unmodelled read of the last-evaluated key described for DbQuery.
- DynamoCountAware.CountAwareQuery: with the as-written handler it is stated for a single response only. Over several responses the as-written query reaches a deleted builder, which `AsWrittenUseAfterSucceed` shows.
- DynamoCountAware.FundOf: a zero capital gives a zero return. The code divides by zero there (an infinity or a NaN), which `real` cannot hold.
- A count-aware builder created with a capacity of 0 is not modelled (`Ready` requires a missing count). Such a builder never receives `succeed()` from the handler.
- DynamoPortfolio.GetStockPortfolio: the calls are stated only when every query is answered by one final response. A transaction query spread over several responses calls `prepare_tx_alloc` again for each, and that re-registration is not modelled.
- DynamoPortfolio.DynamoPortfolioFlow: stated for one final response per query, for the same reason.
- FirestorePortfolio.CompletionRun: each transaction sub-query's completion captures the loop's `my_symbol` by reference (cxx/urph-fin-core/cloud-src/firestore.cc:331,337; `symbol` in cxx/urph-fin-core/src/storage/firestore.cc:285,289). That reference is bound to `stock.id()` of the `documents()` vector, which lives only until the outer completion returns, and the sub-query completes after that. So `prepare_tx_alloc`, `incr_counter`, `addTx` and `rm_stock` read a destroyed string. The model passes each document's own symbol, as the code evidently intends.
- FirestorePortfolio.CompletionsRun: built from CompletionRun, so it takes the same intended symbol in place of the dangling reference.
- FirestorePortfolio.FirestorePortfolioFlow: the delivery and the transaction map rest on the same intended symbol, so the dangling reference described for CompletionRun is not modelled.
- MongoDB's `get_funds`, `get_known_stocks`, `get_brokers` and `get_broker_by_name` are not modelled apart from the `get_instrument_tx` loop they share. `get_funds` calls `add_fund` with asset-class ratios, and that overload is not in `storage.hxx`.
- MongoDB's `prepare_stock_alloc_dont_know_total_num`, `complete` and the three-argument `add_stock` are not declared in `storage.hxx`. `get_stock_portfolio` records them as calls, and their effect on a builder is not modelled.
- MongoDB's `asset_class_ratio` type is not in the modelled sources. It is a sequence of four reals indexed by `ASSET_CLASS_RATIO_NAMES`.
- MongoDB's projection `_id: 0` removes a field the model never reads, so it is not modelled.
- MongoDao.CursorStep: a callback that throws is taken to throw before it changes the context. The `onInstrument` of `get_stock_portfolio` never throws in the model, since the builder calls it records cannot fail.
- MongoDao.PortfolioOnInstrument: the lambda takes `max_tx_num` as `uint16_t` while its `std::function` passes a `uint32_t`, so 65536 or more date entries wrap. The model passes the unbounded count.
- MongoDao.AddTxUpdate: the yyyymmdd date key is a parameter `ymd`. `formatUnixEpochToYYYYMMDD` calls `gmtime`, whose calendar arithmetic is not modelled.
- MongoDao.SafeGetInt32: truncates toward zero without the `int32_t` range, since out-of-range conversion is undefined behaviour in C++.
- The exception texts of the MongoDB driver are stand-ins. Only whether an exception happens is modelled.
- CliStock.ListStockTx, CliMain.PrintStockList: the rows keep raw values. `format_timestamp`, `format_with_commas`, colours and alignment are printing only.
- CliMain.PrintStockList: `StockTxList::calc()` is not in the modelled sources, so the balance of a transaction list is a parameter `balanceOf`. A NaN share count, which the code also skips, cannot arise from a `real` balance.
- CliMain.RowOf: the quote map `QuoteBySymbol` is not in the modelled sources, so quotes are a `map` parameter.
- CliMain.QuoteCache.GetQuotes: the asynchronous load is taken to finish before the next call. A second call made while a load is in progress is not modelled.
- CliMain.AddCommand: boost's date parsing is left out, so the date is already seconds. The "Adding ..." and "Added" messages are not modelled.
- CliMain.ListOverview: the overview comes from `get_overview`, whose computation is not part of this model. Its containers are sequences rather than a first cell and a count.
- CliMain.ToLvlGroup: on an empty string the code reads the terminating NUL (`lvl[0] == '\0'`), which gives `GROUP_BY_CCY`. The model gives the same result.
- The `bk` menu's inline broker table (cxx/cli/src/main.cc:333-372) is not modelled. It repeats `list` with a different printer.
- BrokerCsv's header line and number formatting are printing only. The model keeps which lines are printed and their values.
- The FundsBuilder `add_fund` passes no fund id, so a fund's id is empty.

## Findings

| source | as written | input that shows it | evidently intended | confidence | as-written member | corrected member |
|---|---|---|---|---|---|---|
| cxx/urph-fin-core/src/storage/storage.hxx:193-200 | `rm_stock` decrements `unfinished_stocks` but never checks completion | a portfolio with one stock "A" whose transaction query fails (cxx/urph-fin-core/cloud-src/firestore.cc:352-355) | removing the last pending stock delivers the portfolio | not executed | FirestorePortfolio.AsWrittenFailedTxQueryNeverDelivers | PortfolioBuilder.StockPortfolioBuilderObj.RmStock |
| cxx/urph-fin-core/src/storage/storage.hxx:181-185 | `prepare_stock_alloc(0)` sets zero pending stocks, and nothing ever calls `onSuccess` | a portfolio query that finds no stocks (cxx/urph-fin-core/cloud-src/firestore.cc:327-329) | the empty portfolio is delivered | not executed | FirestorePortfolio.AsWrittenEmptyPortfolioNeverDelivers | PortfolioBuilder.StockPortfolioBuilderObj.PrepareStockAlloc |
| cxx/urph-fin-core/cloud-src/dynamodb.cc:384 | the handler returns true for a symbol that was not asked for, so that record counts toward `max_counter` | symbols ["B"] with one slot, and one response holding "A" then "B" | only requested symbols count, and the quote of "B" is delivered | not executed | DynamoCountAware.AsWrittenSelectedQuotesCountUnmatched | DynamoCountAware.CorrectedSelectedQuotesSkipUnmatched |
| cxx/urph-fin-core/cloud-src/dynamodb.cc:153-156 | after `succeed()` deletes the builder, returning false ends only the current response (lines 107-111), so the next response's items reach the deleted builder | one fund slot, with a record of "F" on a response that has a successor and another "F" on the next response | the query stops handing items to the builder once it has succeeded | not executed | DynamoCountAware.AsWrittenUseAfterSucceed | DynamoCountAware.ConsumedStays |
