# Market connection core of a crypto trading terminal

This project models the part of the terminal that keeps each exchange
connection alive and its data normalised. Everything turns on one signed
integer per market, `logNumFatal`, the severity:

| value | meaning |
|---|---|
| -1 | not yet connected |
| 0 | healthy |
| 1 .. 10 | business fault: trading stops, the feed keeps running |
| 1000 .. 2000 | transport fault: the market is reconnected |
| > 2000 | fatal: the market is frozen |

The modules follow the program's files:

- `Market` (market.dfy): the severity scale, the per-market `Connection` object and the shared notice queue.
- `BybitErrors` (bybit_errors.dfy): the `exception` decorator that wraps every Bybit adapter call. It turns an exception's class name and status code into a new severity and one warning notice.
- `BitmexAgent` (bitmex_agent.dfy): the BitMEX adapter. It covers the inverse / quanto / linear classification and contract-value arithmetic of `fill_instrument`, discovery, positions, trade history, the open-order cache and the order payloads.
- `BybitJson`, `BybitPaging` and `BybitAgent` (bybit_json.dfy, bybit_paging.dfy, bybit_agent.dfy): the Bybit adapter. It covers the nested key search `find_value_by_key`, the `while cursor:` pagination and instrument filling with duplicate-free settlement lists. It also covers the user id, trade history, open orders, the wallet table and the position table.
- `Api` (api.dfy): the memoising exchange registry `MetaMarket.__getitem__` and the bootstrap `WS.start_ws`, with its early returns and first-error reduction.
- `Connect` (connect.dfy): the per-tick decision of `refresh`, the `setup_market` retry loop and the F9 `trade_state` switch.

Replies of the exchange are parameters of the operations. A single reply is a value. A paged listing is a script of pages, and a per-query listing is a function from the query to its reply. The fan-out threads of `start_ws` appear as their joined outcomes. Each reconnect attempt of `setup_market` is given as the severity and loading flags it produced, the ticker it read and the severity its post-connect loading left.

Two behaviours of the source are easy to misread:

- On success the decorator resets the severity to 0 only when it is negative; a positive severity, fatal included, is kept (api/bybit/errors.py:20-21).
- An exception name the table does not know leaves the severity unchanged; it does not default to a reconnect (api/bybit/errors.py:189-194).

## Model

| member | source | states |
|---|---|---|
| BybitErrors.InvalidRequest | api/bybit/errors.py:34-180 | the intended status-code table never lets an exception escape the handler |
| BybitErrors.InvalidRequestAgreesWhereDecided | api/bybit/errors.py:34-180 | wherever the written table decides, the intended one agrees with it; the written one escapes exactly on the codes no arm lists |
| BybitErrors.InvalidRequestAsWrittenEscapes | api/bybit/errors.py:175-180 | as written, code 40004 and an unlisted code such as 12345 raise inside the handler; as intended, 40004 is ignored and 12345 sets 1001 |
| BybitErrors.Classify | api/bybit/errors.py:26-194 | classifying any exception never raises |
| BybitErrors.ClassifyByName | api/bybit/errors.py:26-33 | ConnectionError, SSLError, ReadTimeout, FailedRequestError and the three pybit websocket errors set 1001 (reconnect band); InvalidChannelTypeError sets 2002 (frozen band); any other name leaves the severity as it was |
| BybitErrors.InvalidRequestBands | api/bybit/errors.py:35-56 | codes 10000/10002/10016 set 1001; 10003-10010, 10028, 10029, 100028 and 110018 set 2001 |
| BybitErrors.InvalidRequestBusinessBands | api/bybit/errors.py:57-80 | the insufficient-funds codes set 2; 181001 sets 3 |
| BybitErrors.IgnoredCodesLeaveSeverity | api/bybit/errors.py:41-42 | every listed business-rule code, including the duplicates 10001, 170135 and 110023 caught by an earlier arm, leaves the severity unchanged |
| BybitErrors.OneLineFlattens | api/bybit/errors.py:195-197 | the notice text has the message's length, every newline becomes a space and every other character is kept in place |
| BybitErrors.Guard | api/bybit/errors.py:16-205 | success returns the call's value, turns a negative severity into 0 and keeps any other, and queues nothing; a fault returns None, sets the severity the table decides and queues exactly one warning notice for this market with the flattened message |
| BitmexAgent.CategoryOf | api/bitmex/agent.py:62-84 | exactly one category: inverse iff isInverse, quanto iff quanto and not inverse, linear otherwise |
| BitmexAgent.ValueOfOneContract | api/bitmex/agent.py:62-81 | a linear row whose position multiplier is present but null raises; with the key absent it succeeds iff the settle multiplier is a nonzero value; an absent settle multiplier, where it is read, raises a KeyError; a successful value is nonzero unless the multiplier is |
| BitmexAgent.MinimumTradeAmount | api/bitmex/agent.py:62-84 | a failing contract-value computation fails; quanto's amount is the lot size; any other category's is the contract value times the lot size |
| BitmexAgent.Normalize | api/bitmex/agent.py:57-122 | fails iff the amount cannot be computed or is 0; the record keeps the ticker and category; myMultiplier is the truncated lotSize / amount; minOrderQty is the lot size; settlCurrency, tickSize, state, volume24h and multiplier are copied from the row; precision is 0 iff the quantity is integral; live figures are 0 and the book is [(0,0)]; fundingRate is 0 when the key is absent, None when it is null and the value otherwise; the expiry is Perpetual iff `expire` is absent or empty |
| BitmexAgent.MyMultiplierByCategory | api/bitmex/agent.py:85-89 | the lot size cancels out: myMultiplier is 1 for quanto, truncated underlyingToSettleMultiplier / multiplier for inverse, and for linear the truncated underlyingToPositionMultiplier, or else the settle ratio |
| BitmexAgent.ZeroMultiplierExample | api/bitmex/agent.py:85-89 | an inverse contract worth 2 with lot size 10 gets myMultiplier 0: nothing guards against a zero multiplier |
| BitmexAgent.PlaceLimit | api/bitmex/agent.py:199-214 | a POST of ordType "Limit" carrying the ticker alone, the quantity, the price and the client id |
| BitmexAgent.ReplaceLimit | api/bitmex/agent.py:216-231 | a PUT of ordType "Limit" whose leavesQty is the unsigned quantity, carrying the whole composite key, the price and the order id |
| BitmexAgent.ReplaceLimitIgnoresSide | api/bitmex/agent.py:227 | a buy and a sell replacement of the same size send the same request |
| BitmexAgent.RemoveOrder | api/bitmex/agent.py:233-240 | a DELETE whose body names the order id and nothing else |
| BitmexAgent.Agent.FillInstrument | api/bitmex/agent.py:57-122 | on success the normalised record is stored under (ticker, category, market) and the category returned; on a raised error the table is unchanged |
| BitmexAgent.Agent.GetInstrument | api/bitmex/agent.py:44-55 | an empty reply changes nothing; otherwise the first row is filled and its ticker mapped to its category; a first row whose computation raises changes nothing and returns that error |
| BitmexAgent.Agent.GetActiveInstruments | api/bitmex/agent.py:18-36 | the market holds the severity the request left; skipped iff that severity is nonzero, changing nothing else; otherwise, when every row fills, the instrument table is the old one with each row's normalised record written in order and the ticker map the old one with each row's ticker mapped to its category; a failing row leaves exactly the rows before it written and returns its error; success means every configured key is present; the exit outcome names the first configured key that is missing |
| BitmexAgent.Agent.FillRows | api/bitmex/agent.py:20-26 | fills every row iff every row normalises, and then the table and ticker map are the folds over all rows; otherwise the index of the first failing row is returned and exactly the rows before it are written and mapped |
| BitmexAgent.FilledKeys | api/bitmex/agent.py:87 | storing records adds exactly their (ticker, category, market) keys and leaves every other record as it was |
| BitmexAgent.FilledLastWins | api/bitmex/agent.py:87-122 | a key holds the last record stored under it |
| BitmexAgent.RowLastWins | api/bitmex/agent.py:20-26 | after filling rows that all normalise, a row's key holds the normalised record of the last row with that key |
| BitmexAgent.MappedKeys | api/bitmex/agent.py:26 | the ticker map gains exactly the rows' tickers and keeps every other entry |
| BitmexAgent.MappedLastWins | api/bitmex/agent.py:26 | a ticker is mapped to the category of the last row listing it |
| BitmexAgent.WithKey | api/bitmex/agent.py:180-184 | the order's symbol becomes (ticker, its category, market); the order id and time are kept |
| BitmexAgent.Agent.GetPosition | api/bitmex/agent.py:124-142 | a non-list reply changes nothing; an empty list records POS 0; a non-empty list records the first row's currentQty as POS and mirrors it into the instrument record, leaving the other records alone |
| BitmexAgent.Agent.TradingHistory | api/bitmex/agent.py:156-175 | "error" iff no time is given; otherwise one row per execution in order, each with the market name, the (ticker, category, market) key and the (currency, market) pair; a ticker with no category raises |
| BitmexAgent.Agent.OpenOrders | api/bitmex/agent.py:177-189 | returns iff every cached order's symbol is a known ticker, and then every order is rewritten in place into its composite key and the cache returned; otherwise there is a first order whose symbol is not a known ticker: the orders before it are rewritten and it and all after it are unchanged |
| BybitJson.FindValueByKeySound | api/bybit/agent.py:247-260 | a non-None answer is a value the key really has somewhere in the reply, top level, nested dict or dict in a list; a key that occurs nowhere gives None |
| BybitJson.SearchMembersSound | api/bybit/agent.py:248-254 | whatever the member loop returns is an occurrence of the key |
| BybitJson.SearchFirstWins | api/bybit/agent.py:248 | iteration order decides: later members are searched only when the earlier ones return nothing |
| BybitJson.TopLevelKeyWins | api/bybit/agent.py:249-250 | a matching key returns its value as it is, even a falsy one, unless an earlier member answered |
| BybitJson.FalsyNestedSkipped | api/bybit/agent.py:251-254 | a nested dict whose own search is falsy does not stop the search |
| BybitPaging.CursorsMatchPages | api/bybit/agent.py:104-113 | one request per page read; the first sends "no" and each later one the previous page's cursor; no request sends an empty cursor; the pages read are a prefix ending at the first empty cursor |
| BybitPaging.Paginate | api/bybit/agent.py:104-128 | the loop returns the rows of exactly the pages up to the first empty cursor, in order, and the cursors it sent |
| BybitAgent.Record | api/bybit/agent.py:219-244 | the record keeps the symbol; isInverse iff the category is "inverse"; multiplier, myMultiplier and fundingRate are 1, 1 and 0; volume24h is set, to 0, iff the row has a settle coin, since a row without one raises before that field is written; expiry is None iff there is no deliveryTime; the settlement currency is the settle coin and the lot size the minimum order quantity |
| BybitAgent.AddNewKeepsNoDup | api/bybit/agent.py:240-243 | the coin is in the list afterwards, nothing is lost, a coin already present changes nothing, and a duplicate-free list stays duplicate-free |
| BybitAgent.DecorateExec | api/bybit/agent.py:79-93 | an execution gets the (symbol, category) key, its category, the instrument's settlement currency, the market name, foreignNotional 0 and its own execution time |
| BybitAgent.SortByTimeSortsAndPermutes | api/bybit/agent.py:95 | the history comes out ordered by time and holds every row as often as the input did |
| BybitAgent.SortByTimeStable | api/bybit/agent.py:95 | the sort is stable: for every time, the rows carrying it appear in the same order as in the input |
| BybitAgent.HistoryAsWrittenRepeats | api/bybit/agent.py:94 | as written, a category answering two executions yields them twice each; as intended, once each |
| BybitAgent.HistoryIntendedOnce | api/bybit/agent.py:76-94 | the intended history is exactly as long as all replies together and contains every reply |
| BybitAgent.DecorateOrder | api/bybit/agent.py:114-126 | an order gets the (symbol, category) key, the queried coin and the account; clOrdID is set iff orderLinkId is present and non-empty, and then equals it |
| BybitAgent.DecorateOrders | api/bybit/agent.py:114-126 | every order of a page is decorated, in order, none lost |
| BybitAgent.OrdersOfCategoryShape | api/bybit/agent.py:103-128 | every order listed for a category carries that category, a queried coin and the account |
| BybitAgent.AllOrdersShape | api/bybit/agent.py:101-130 | every order listed carries a configured category, a known settlement coin and the account |
| BybitAgent.WithReportedKeys | api/bybit/agent.py:160-164 | reported coins get an entry and no existing entry is removed |
| BybitAgent.WithReportedLastRowWins | api/bybit/agent.py:160-179 | a reported coin holds the figures of its last row |
| BybitAgent.WithReportedKeepsOthers | api/bybit/agent.py:160-179 | a coin no row reports keeps its earlier entry |
| BybitAgent.WithPlaceholdersFacts | api/bybit/agent.py:183-191 | every configured currency gets an entry; an existing entry is kept; a missing one becomes a placeholder of None figures |
| BybitAgent.WalletBalanceFacts | api/bybit/agent.py:155-191 | after the update every configured currency has an entry and nothing is removed; a currency neither held nor reported by the first UNIFIED account is a placeholder |
| BybitAgent.WalletBalanceReported | api/bybit/agent.py:158-180 | a coin of the first UNIFIED account keeps the figures of its last row through the placeholder pass |
| BybitAgent.ApplyRowsKeys | api/bybit/agent.py:206-214 | applying position rows never adds or removes a symbol, and symbols of other categories keep their figures |
| BybitAgent.ApplyCoinsKeys | api/bybit/agent.py:195-214 | the same over all settlement coins of one category |
| BybitAgent.PositionInfoKeepsSymbols | api/bybit/agent.py:193-214 | the position table keeps exactly its symbols, and a symbol of a category not queried keeps its figures |
| BybitAgent.UnconfiguredCoinIgnored | api/bybit/agent.py:196 | replies for settlement coins outside the configured currencies do not affect the positions |
| BybitAgent.Agent.GetUser | api/bybit/agent.py:42-54 | the reply is kept; a truthy uid found in it becomes the user id and the severity is kept; otherwise the user id is kept and the severity becomes 10001 (frozen band) |
| BybitAgent.Agent.FillInstrument | api/bybit/agent.py:219-244 | the record is stored under (symbol, category), without volume24h when the row has no settle coin; succeeds iff the row has a settle coin, which is then added to both settlement lists unless present, and otherwise leaves both lists unchanged; both lists stay duplicate-free |
| BybitAgent.Agent.FillCategory | api/bybit/agent.py:18-21 | one category's rows are filled in order; all succeed iff every row has a settle coin, and then the table and both lists are the folds over all rows; otherwise the index of the first row without one is returned, the table holds the rows up to and including it and the lists the coins of the rows before it |
| BybitAgent.Agent.GetActiveInstruments | api/bybit/agent.py:17-40 | raises iff some listed row lacks a settle coin; otherwise the table, `settleCoin_list` and `settlCurrency_list` are the old ones with every row of every configured category filled in order; on a raise, there is a first row without a settle coin, the table holds every row up to and including it and both settlement lists the coins of the rows before it; the lists stay duplicate-free; success means every configured symbol is present, and the exit outcome names the first that is missing |
| BybitAgent.StoreRowsKeys | api/bybit/agent.py:19-21 | filling one category adds exactly its rows' (symbol, category) keys and leaves every other record as it was |
| BybitAgent.StoreRowsOtherCategory | api/bybit/agent.py:19-21 | filling one category leaves the records of every other category alone |
| BybitAgent.StoreRowsLastWins | api/bybit/agent.py:219-220 | a key holds the record of the last row with that symbol |
| BybitAgent.StoreAllLastWins | api/bybit/agent.py:18-21 | after the whole discovery a key holds the record of its last row in the reply for the last listing of its category |
| BybitAgent.AddCoinsNoDup | api/bybit/agent.py:240-243 | adding a category's coins keeps the list duplicate-free and its old contents as a prefix |
| BybitAgent.AddCoinsMembers | api/bybit/agent.py:240-243 | adding a category's coins loses nothing, adds every row's coin, and adds nothing else |
| BybitAgent.CoinsAllNoDup | api/bybit/agent.py:18-21 | after the whole discovery `settleCoin_list` is duplicate-free and starts with its old contents |
| BybitAgent.CoinsAllMembers | api/bybit/agent.py:18-21 | after the whole discovery `settleCoin_list` holds every listed row's coin and nothing else besides its old contents |
| BybitAgent.SettlAllFacts | api/bybit/agent.py:240-241 | each listed category's settlement list holds the coin of every row listed for it; the lists of unlisted categories are unchanged |
| BybitAgent.Agent.TradingHistory | api/bybit/agent.py:71-97 | each configured category is asked in order for min(100, histCount) executions; the call raises iff some category's reply has a row whose instrument is not in the table or has no settlement currency, and then the requests stop at the first such category; otherwise the result is every decorated row of every reply, once, sorted by time |
| BybitAgent.Agent.ListOrders | api/bybit/agent.py:104-128 | one coin's listing is read from "no" at 50 a page, never with an empty cursor, and its orders decorated in order |
| BybitAgent.Agent.ListCategoryOrders | api/bybit/agent.py:103-128 | one category's orders over every known settlement coin, in order |
| BybitAgent.Agent.OpenOrders | api/bybit/agent.py:99-130 | every configured category and every known settlement coin is paged at 50 a page; the orders are collected in request order |
| BybitAgent.Agent.GetWalletBalance | api/bybit/agent.py:155-191 | the first UNIFIED account's coins are written into the margin table, then placeholders are added for missing currencies; the facts above then hold of the table |
| BybitAgent.Agent.UpdatePositions | api/bybit/agent.py:206-214 | each row overwrites the position of a symbol already in the table with its figures; rows of other symbols are ignored |
| BybitAgent.Agent.GetPositionInfo | api/bybit/agent.py:193-214 | the table is updated as all configured categories' pages dictate and keeps exactly its symbols; every request asks for 200 rows of a configured category and a configured currency, with a non-empty cursor |
| Api.KindOf | api/api.py:20-22 | a market class exists exactly for Bitmex, Bybit, Deribit and Fake |
| Api.MetaMarket.Get | api/api.py:24-35 | a cached name returns its instance and changes nothing; a known new name creates a fresh instance of its class and caches it; an unknown name raises and leaves the cache unchanged |
| Api.LookupTwice | api/api.py:24-35 | two lookups of one name give the same answer, which exists iff the name was cached or is known |
| Api.Prelude | api/api.py:80-109 | as intended, the steps before the fan-out go on iff instruments and orders return "" and funding returns, and otherwise return an error or a nonzero severity; they never crash |
| Api.PreludeAgreesUnlessHandlerRuns | api/api.py:80-109 | without a raised step the written and intended steps agree; a raising instruments or funding step crashes as written, and a raising `open_orders` crashes iff the severity that step left is 0 |
| Api.PreludeAsWrittenCrashes | api/api.py:84-91 | on a healthy market whose instrument loading raises the written handler raises, while the intended one returns "Bybit Instruments not loaded." |
| Api.PreludeAsWrittenCrashesOnOrders | api/api.py:102-109 | on a market whose instrument loading left the severity at 0 (an unconnected market the decorator cleared), a raising `open_orders` crashes as written, while the intended handler returns "Bybit Orders not loaded. Reboot." |
| Api.AdapterListsStopBootstrap | api/api.py:80-104 | when the loaders return what they loaded, as Bybit `get_active_instruments` and both adapters' `open_orders` do, written and intended handlers agree and the bootstrap goes on to the fan-out iff no instrument was returned and no order is open; otherwise the returned collection is `start_ws`'s result |
| Api.Entry | api/api.py:66-76 | a loader that raised leaves "FATAL"; one that returned leaves its error, "" for success |
| Api.FirstError | api/api.py:131-137 | the index of the first non-empty entry, or the length when all are empty |
| Api.StartWs | api/api.py:49-149 | each step's handler reads the severity that step left; an early error or severity is returned before the fan-out, leaving the severity of the last step run and the queue unchanged; otherwise the first non-empty entry in the order get_user, get_wallet_balance, get_position_info is returned; with none, a nonzero severity is returned as it is; a healthy market queues one "Connected to websocket." notice with no warning flag and returns "" |
| Connect.SetupRunFirstDecisive | connect.py:49-58 | the loop ends live at the first attempt that succeeds, closed at the first that is fatal, whichever comes first, and keeps retrying while neither has happened |
| Connect.SetupMarket | connect.py:44-83 | the result is that of the retry loop; the API is active iff the market ended live, with severity 0; a closed market is frozen; a pending one is not healthy; the loading after loaded timeframes leaves its own severity, and the loop retries on a nonzero one; the ticker is the one read by the last attempt that ran the full loading, which is the final attempt when the market ends live with robots |
| Connect.LoadingFaultRetries | connect.py:49-75 | an attempt whose loading leaves 1001 is followed by another attempt, and the ticker it read stays when the next attempt loads no robots |
| Connect.DecideByBand | connect.py:90-101 | freeze iff frozen; restart iff not frozen and either in the reconnect band or after a timeout; stop trading iff a business fault without timeout; healthy and unconnected markets run |
| Connect.RefreshMarket | connect.py:86-111 | the action follows the decision; a restart runs the retry loop and leaves the severity, activity and ticker that loop leaves (healthy when live, frozen when closed, not healthy when still retrying; the ticker read by the last attempt that ran the full loading, else unchanged) with the F9 switch and the shown messages untouched; a frozen market gets its freeze message once and nothing else; a business fault shows its stop message once, adds a balance notice at severity 2, and forces F9 off; every market not frozen or restarted reads the new ticker; the severity changes only through a restart |
| Connect.FrozenShownOnce | connect.py:90-96 | two ticks on a frozen market show at most one message and leave its severity alone |
| Connect.ToggleTwice | connect.py:140-143 | pressing F9 twice restores the switch |
| Connect.TradeState | connect.py:139-146 | F9 swaps "ON" and "OFF" and keeps any other value; switching on clears the display's stop message and makes the market healthy; the market's own stop message is never cleared |
| Connect.StopMessageNotRepeated | connect.py:101-109 | after switching trading back on, a new business fault stops trading again without showing any message, because the market's stop message was not cleared |

## Left out

- Network I/O (`Send.request`, `self.session.*`, the websocket `start`/`exit`) is replaced by the replies it produced, given as parameters.
- The threads of `start_ws` and `robots_thread` are modelled as already joined; `sleep` and clocks are not modelled.
- Display, logging, database loading and robot initialisation in `setup_market` and `refresh` appear only as the flags and severities of an attempt and as shown messages.
- `exit(1)` and `close()` are outcomes (`UnknownSymbol`, `Closed`), not process termination.
- `service.time_converter` is not modelled: times keep the exchange's value, and the conversion is monotone, so sorting is unaffected.
- Floating point is exact reals; `float(...)` parsing of exchange strings is not modelled.
- BitmexAgent.Normalize: the digit count of a non-integral precision (`str(qty - int(qty))`) is left as None, because it depends on float printing.
- BitmexAgent.Normalize: the expiry converts the `expiry` field while the guard tests `expire`; this is modelled as written, without the conversion.
- BybitPaging.Paginate: requires that the exchange ends the listing with an empty cursor; a listing that never ends would loop forever in the program.
- Connect.SetupMarket: `Pending` means the given attempts ran out while the loop would still retry. The post-connect loading (history, balances, orders, ticker) is one severity per attempt; which of its calls set it is not modelled.
- Connect.RefreshMarket: models one market's turn; the outer loop over all markets repeats it per market.
- Trivial adapter entry points are not modelled: Bybit `get_instrument`, `get_position`, `get_ticker` and the printing stubs; BitMEX `get_user`, `trade_bucketed`, `urgent_announcement`, and the empty `get_wallet_balance` / `get_position_info`.
- Api.StartWs: each step's outcome is a parameter, as the wrappers document it ("" on success); it is not derived from what the adapters return, which the api/api.py:80-104 finding covers.
- `services.exceptions_manager` and the websocket classes are not part of this model; the Bybit decorator is modelled from api/bybit/errors.py alone.
- The `WS.*` forwarding wrappers of api/api.py, `backtest` and `config` are not part of this model.

## Findings

| source | as written | input that shows it | evidently intended | confidence | as-written member | corrected member |
|---|---|---|---|---|---|---|
| api/bybit/errors.py:175-180 | `exception.status_code in 40004` tests membership in an int, which raises a TypeError inside the handler, so the default 1001 is never reached | InvalidRequestError with status code 40004, or with 12345 | ignore 40004 and set 1001 for every other unlisted code | high, not executed | BybitErrors.InvalidRequestAsWrittenEscapes | BybitErrors.InvalidRequest |
| api/bybit/agent.py:94 | `trade_history += result` sits inside the loop over the rows, so a reply of n rows is appended n times | one category answering two executions a, b gives a, b, a, b | append each category's reply once | high, not executed | BybitAgent.HistoryAsWrittenRepeats | BybitAgent.HistoryIntendedOnce |
| api/api.py:84-109 | the handlers raise themselves: `self.logger.error()` has no message, the funding handler uses an unbound `exception`, the orders handler returns an unbound `message` | instrument loading raises on a market with severity 0 | log, then return the severity or the handler's own message | high, not executed | Api.PreludeAsWrittenCrashes | Api.Prelude |
| api/api.py:80-104 | `if error: return error` takes the loaders' results for errors, but Bybit `get_active_instruments` returns its instrument table (api/bybit/agent.py:40), Bybit `open_orders` its order list (api/bybit/agent.py:130) and BitMEX `open_orders` its order view (api/bitmex/agent.py:189), each truthy once non-empty | a Bybit market with one listed instrument, or any market with one open order | return "" on success, as the wrappers at api/api.py:157-175 and :250-267 document, so the bootstrap goes on to the fan-out | high, not executed | Api.AdapterListsStopBootstrap | Api.Prelude |
