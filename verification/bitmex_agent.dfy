/**
 * The BitMEX adapter: instrument normalisation (the inverse / quanto /
 * linear classification and its contract-value arithmetic), discovery,
 * positions, trade history, the open-order cache and the order payloads.
 * Quantities are exact reals; floating-point rounding is not modelled.
 */
module BitmexAgent {
  import opened Common
  import opened Market

  datatype Category = Inverse | Quanto | Linear

  function CategoryName(c: Category): string
  {
    match c
    case Inverse => "inverse"
    case Quanto => "quanto"
    case Linear => "linear"
  }

  /** The composite instrument key: (ticker, category, exchange name). */
  type InstKey = (string, Category, string)

  /** A field of an exchange row: the key is absent, present with null, or
      present with a value. */
  datatype Field<T> = Absent | Null | Value(v: T)

  /** One row of the exchange's instrument listing. `settlCurrency` and
      `expire` are None when the key is absent or null, which the code
      treats alike. */
  datatype RawInstrument = RawInstrument(
    symbol: string,
    isInverse: bool,
    isQuanto: bool,
    multiplier: real,
    underlyingToSettleMultiplier: Field<real>,
    underlyingToPositionMultiplier: Field<real>,
    lotSize: real,
    settlCurrency: Option<string>,
    tickSize: real,
    state: string,
    volume24h: real,
    expire: Option<string>,
    expiry: string,
    fundingRate: Field<real>)

  datatype Expiry = Perpetual | Expires(at: string)

  /** The canonical instrument record. `precision` is None where the source
      counts the digits of a float's text, which is not modelled. */
  datatype Instrument = Instrument(
    symbol: string,
    category: Category,
    myMultiplier: int,
    multiplier: real,
    settlCurrency: Option<string>,
    tickSize: real,
    minOrderQty: real,
    precision: Option<nat>,
    state: string,
    volume24h: real,
    expire: Expiry,
    fundingRate: Option<real>,
    avgEntryPrice: real,
    marginCallPrice: real,
    currentQty: real,
    unrealisedPnl: real,
    asks: seq<(real, real)>,
    bids: seq<(real, real)>)

  /** The Python exceptions the arithmetic of `fill_instrument` can raise. */
  datatype FillError =
    | ZeroDivision     // ZeroDivisionError
    | NullOperand      // TypeError: arithmetic on None
    | MissingKey       // KeyError: no settlement currency or no divisor for it
    | Unbound          // UnboundLocalError: linear without either multiplier

  datatype Result<T> = Ok(value: T) | Err(error: FillError)

  /** Python's `int(x)`: truncation toward zero. */
  function Trunc(x: real): int
  {
    if x >= 0.0 then x.Floor else -((-x).Floor)
  }

  predicate IsIntegral(x: real)
  {
    x == Trunc(x) as real
  }

  /** Exactly one category: inverse wins over quanto, linear is the rest. */
  function CategoryOf(raw: RawInstrument): (c: Category)
    ensures c == Inverse <==> raw.isInverse
    ensures c == Quanto <==> !raw.isInverse && raw.isQuanto
    ensures c == Linear <==> !raw.isInverse && !raw.isQuanto
  {
    if raw.isInverse then Inverse else if raw.isQuanto then Quanto else Linear
  }

  /** The value of one contract, or the exception its computation raises. A
      linear row tests whether the position multiplier's key is present, so
      a present null raises where an absent key falls back to the settle
      multiplier. */
  function ValueOfOneContract(raw: RawInstrument, divisors: map<string, real>): (r: Result<real>)
    ensures CategoryOf(raw) == Linear && raw.underlyingToPositionMultiplier.Null? ==> r == Err(NullOperand)
    ensures CategoryOf(raw) == Linear && raw.underlyingToPositionMultiplier.Absent? ==>
              (r.Ok? <==> raw.underlyingToSettleMultiplier.Value? && raw.underlyingToSettleMultiplier.v != 0.0)
    ensures CategoryOf(raw) != Quanto && raw.underlyingToSettleMultiplier.Absent? ==>
              (r == Err(MissingKey) <==> CategoryOf(raw) == Inverse || raw.underlyingToPositionMultiplier.Absent?)
    ensures r.Ok? ==> r.value != 0.0 || raw.multiplier == 0.0
  {
    match CategoryOf(raw)
    case Inverse =>
      (match raw.underlyingToSettleMultiplier
       case Absent => Err(MissingKey)
       case Null => Err(NullOperand)
       case Value(u) => if u == 0.0 then Err(ZeroDivision) else Ok(raw.multiplier / u))
    case Quanto =>
      (match raw.settlCurrency
       case None => Err(MissingKey)
       case Some(c) =>
         if c !in divisors then Err(MissingKey)
         else if divisors[c] == 0.0 then Err(ZeroDivision)
         else Ok(raw.multiplier / divisors[c]))
    case Linear =>
      (match raw.underlyingToPositionMultiplier
       case Value(p) => if p == 0.0 then Err(ZeroDivision) else Ok(1.0 / p)
       case Null => Err(NullOperand)
       case Absent =>
         (match raw.underlyingToSettleMultiplier
          case Value(u) => if u != 0.0 then Ok(raw.multiplier / u) else Err(Unbound)
          case Null => Err(Unbound)
          case Absent => Err(MissingKey)))
  }

  /** The minimal tradable amount: the contract value times the lot size,
      except for quanto instruments, where it is the lot size itself. */
  function MinimumTradeAmount(raw: RawInstrument, divisors: map<string, real>): (r: Result<real>)
    ensures ValueOfOneContract(raw, divisors).Err? ==> r.Err?
    ensures r.Ok? && CategoryOf(raw) == Quanto ==> r.value == raw.lotSize
    ensures r.Ok? && CategoryOf(raw) != Quanto ==> r.value == ValueOfOneContract(raw, divisors).value * raw.lotSize
    ensures r.Ok? && r.value != 0.0 ==> raw.lotSize != 0.0
  {
    match ValueOfOneContract(raw, divisors)
    case Err(e) => Err(e)
    case Ok(v) => if CategoryOf(raw) == Quanto then Ok(raw.lotSize) else Ok(v * raw.lotSize)
  }

  /**
   * `fill_instrument` as a value: the category, the truncated multiplier
   * `lotSize / minimumTradeAmount`, the precision of `minOrderQty /
   * myMultiplier`, and the live fields reset to zero.
   */
  function Normalize(raw: RawInstrument, divisors: map<string, real>): (r: Result<Instrument>)
    ensures r.Err? <==> MinimumTradeAmount(raw, divisors).Err? || MinimumTradeAmount(raw, divisors).value == 0.0
    ensures r.Ok? ==> r.value.category == CategoryOf(raw) && r.value.symbol == raw.symbol
    ensures r.Ok? ==> r.value.myMultiplier == Trunc(raw.lotSize / MinimumTradeAmount(raw, divisors).value)
    ensures r.Ok? ==> r.value.minOrderQty == raw.lotSize && r.value.multiplier == raw.multiplier
    ensures r.Ok? ==> r.value.settlCurrency == raw.settlCurrency && r.value.tickSize == raw.tickSize &&
                      r.value.state == raw.state && r.value.volume24h == raw.volume24h
    ensures r.Ok? ==> (r.value.precision == Some(0) <==> IsIntegral(MinimumTradeAmount(raw, divisors).value))
    ensures r.Ok? ==> r.value.avgEntryPrice == 0.0 && r.value.marginCallPrice == 0.0 &&
                      r.value.currentQty == 0.0 && r.value.unrealisedPnl == 0.0 &&
                      r.value.asks == [(0.0, 0.0)] && r.value.bids == [(0.0, 0.0)]
    ensures r.Ok? && raw.fundingRate.Absent? ==> r.value.fundingRate == Some(0.0)
    ensures r.Ok? && raw.fundingRate.Null? ==> r.value.fundingRate == None
    ensures r.Ok? && raw.fundingRate.Value? ==> r.value.fundingRate == Some(raw.fundingRate.v)
    ensures r.Ok? ==> (r.value.expire == Perpetual <==> raw.expire.None? || raw.expire.value == "")
  {
    match MinimumTradeAmount(raw, divisors)
    case Err(e) => Err(e)
    case Ok(minimumTradeAmount) =>
      if minimumTradeAmount == 0.0 then Err(ZeroDivision)
      else
        var myMultiplier := raw.lotSize / minimumTradeAmount;
        assert myMultiplier != 0.0;
        var qty := raw.lotSize / myMultiplier;
        assert qty == minimumTradeAmount;
        Ok(Instrument(
          raw.symbol, CategoryOf(raw), Trunc(myMultiplier), raw.multiplier, raw.settlCurrency,
          raw.tickSize, raw.lotSize,
          if IsIntegral(qty) then Some(0) else None,
          raw.state, raw.volume24h,
          if raw.expire.Some? && raw.expire.value != "" then Expires(raw.expiry) else Perpetual,
          match raw.fundingRate
          case Absent => Some(0.0)
          case Null => None
          case Value(f) => Some(f),
          0.0, 0.0, 0.0, 0.0, [(0.0, 0.0)], [(0.0, 0.0)]))
  }

  /** The lot size cancels out of myMultiplier: it is 1 for every quanto
      instrument and the reciprocal of the contract value otherwise. */
  lemma MyMultiplierByCategory(raw: RawInstrument, divisors: map<string, real>)
    requires Normalize(raw, divisors).Ok?
    ensures CategoryOf(raw) == Quanto ==> Normalize(raw, divisors).value.myMultiplier == 1
    ensures CategoryOf(raw) == Inverse ==>
              Normalize(raw, divisors).value.myMultiplier
                == Trunc(raw.underlyingToSettleMultiplier.v / raw.multiplier)
    ensures CategoryOf(raw) == Linear && raw.underlyingToPositionMultiplier.Value? ==>
              Normalize(raw, divisors).value.myMultiplier == Trunc(raw.underlyingToPositionMultiplier.v)
    ensures CategoryOf(raw) == Linear && !raw.underlyingToPositionMultiplier.Value? ==>
              Normalize(raw, divisors).value.myMultiplier
                == Trunc(raw.underlyingToSettleMultiplier.v / raw.multiplier)
  {
    if CategoryOf(raw) == Quanto {
      QuantoMultiplier(raw, divisors);
    } else {
      ContractValueMultiplier(raw, divisors);
      if CategoryOf(raw) == Linear && raw.underlyingToPositionMultiplier.Value? {
        Reciprocal(1.0, raw.underlyingToPositionMultiplier.v);
      } else {
        Reciprocal(raw.multiplier, raw.underlyingToSettleMultiplier.v);
      }
    }
  }

  lemma QuantoMultiplier(raw: RawInstrument, divisors: map<string, real>)
    requires Normalize(raw, divisors).Ok? && CategoryOf(raw) == Quanto
    ensures Normalize(raw, divisors).value.myMultiplier == 1
  {
    var m := MinimumTradeAmount(raw, divisors).value;
    assert m == raw.lotSize && m != 0.0;
    LotSizeCancels(1.0, raw.lotSize, m);
    assert Trunc(1.0) == 1;
  }

  lemma ContractValueMultiplier(raw: RawInstrument, divisors: map<string, real>)
    requires Normalize(raw, divisors).Ok? && CategoryOf(raw) != Quanto
    ensures ValueOfOneContract(raw, divisors).Ok? && ValueOfOneContract(raw, divisors).value != 0.0
    ensures Normalize(raw, divisors).value.myMultiplier == Trunc(1.0 / ValueOfOneContract(raw, divisors).value)
  {
    var m := MinimumTradeAmount(raw, divisors).value;
    LotSizeCancels(ValueOfOneContract(raw, divisors).value, raw.lotSize, m);
  }

  /** The lot size cancels: l / (v * l) == 1 / v. */
  lemma LotSizeCancels(v: real, l: real, m: real)
    requires m != 0.0 && m == v * l
    ensures v != 0.0 && l / m == 1.0 / v
  {
  }

  /** 1 / (a / u) == u / a */
  lemma Reciprocal(a: real, u: real)
    requires u != 0.0 && a / u != 0.0
    ensures 1.0 / (a / u) == u / a
  {
  }

  /** An inverse contract worth 100 / 50 = 2 with lot size 10 has a minimal
      tradable amount of 20, so its myMultiplier truncates 0.5 down to 0:
      the source has no guard against a zero multiplier. */
  lemma ZeroMultiplierExample()
    ensures var raw := RawInstrument("XBTUSD", true, false, 100.0, Value(50.0), Absent, 10.0,
                                     Some("XBt"), 0.5, "Open", 0.0, None, "", Absent);
            && MinimumTradeAmount(raw, map[]) == Ok(20.0)
            && Normalize(raw, map[]).Ok?
            && Normalize(raw, map[]).value.myMultiplier == 0
            && Normalize(raw, map[]).value.precision == Some(0)
  {
    var raw := RawInstrument("XBTUSD", true, false, 100.0, Value(50.0), Absent, 10.0,
                             Some("XBt"), 0.5, "Open", 0.0, None, "", Absent);
    assert ValueOfOneContract(raw, map[]) == Ok(2.0);
    assert 10.0 / 20.0 == 0.5;
    assert Trunc(0.5) == 0;
    assert Trunc(20.0) == 20;
  }

  /** A record not yet filled, as the table creates it on first access. */
  function Blank(key: InstKey): Instrument
  {
    Instrument(key.0, key.1, 0, 0.0, None, 0.0, 0.0, None, "", 0.0, Perpetual, Some(0.0),
               0.0, 0.0, 0.0, 0.0, [(0.0, 0.0)], [(0.0, 0.0)])
  }

  /** The outcome of `get_active_instruments`. `UnknownSymbol` is the
      `exit(1)` for a configured symbol the exchange did not list, and
      `FillFailed` an exception raised while filling a row. */
  datatype Discovery = Skipped | Loaded | UnknownSymbol(key: InstKey) | FillFailed(error: FillError)

  /** The composite key a row is stored under by a given market. */
  function KeyFor(raw: RawInstrument, market: string): (key: InstKey)
    ensures key.0 == raw.symbol && key.1 == CategoryOf(raw) && key.2 == market
  {
    (raw.symbol, CategoryOf(raw), market)
  }

  predicate AllNormalize(rows: seq<RawInstrument>, divisors: map<string, real>)
  {
    forall k :: 0 <= k < |rows| ==> Normalize(rows[k], divisors).Ok?
  }

  /** The normalised records of rows that all normalise, in order. */
  function Normalized(rows: seq<RawInstrument>, divisors: map<string, real>): (r: seq<Instrument>)
    requires AllNormalize(rows, divisors)
    ensures |r| == |rows|
    ensures forall k :: 0 <= k < |rows| ==> r[k] == Normalize(rows[k], divisors).value
    decreases |rows|
  {
    if rows == [] then []
    else Normalized(rows[..|rows| - 1], divisors) + [Normalize(rows[|rows| - 1], divisors).value]
  }

  /** The key a market stores a record under. */
  function RecordKey(rec: Instrument, market: string): InstKey
  {
    (rec.symbol, rec.category, market)
  }

  /** The instrument table after storing `records` in order: each record
      overwrites whatever its key held. */
  function Filled(table: map<InstKey, Instrument>, records: seq<Instrument>, market: string): map<InstKey, Instrument>
    decreases |records|
  {
    if records == [] then table
    else
      var last := records[|records| - 1];
      Filled(table, records[..|records| - 1], market)[RecordKey(last, market) := last]
  }

  /** The ticker-to-category map after recording `rows` in order. */
  function Mapped(categories: map<string, Category>, rows: seq<RawInstrument>): map<string, Category>
    decreases |rows|
  {
    if rows == [] then categories
    else
      var last := rows[|rows| - 1];
      Mapped(categories, rows[..|rows| - 1])[last.symbol := CategoryOf(last)]
  }

  /** One more row filled: the folds over a prefix one row longer. */
  lemma DiscoveryStep(table: map<InstKey, Instrument>, categories: map<string, Category>,
                      rows: seq<RawInstrument>, divisors: map<string, real>, market: string, i: nat)
    requires i < |rows| && AllNormalize(rows[..i], divisors) && Normalize(rows[i], divisors).Ok?
    ensures AllNormalize(rows[..i + 1], divisors)
    ensures Filled(table, Normalized(rows[..i + 1], divisors), market)
              == Filled(table, Normalized(rows[..i], divisors), market)[KeyFor(rows[i], market) := Normalize(rows[i], divisors).value]
    ensures Mapped(categories, rows[..i + 1]) == Mapped(categories, rows[..i])[rows[i].symbol := CategoryOf(rows[i])]
  {
    assert rows[..i + 1][..i] == rows[..i];
    var recs := Normalized(rows[..i + 1], divisors);
    assert recs[..i] == Normalized(rows[..i], divisors);
  }

  /** Storing adds exactly the records' keys and leaves every other entry as it was. */
  lemma {:induction false} FilledKeys(table: map<InstKey, Instrument>, records: seq<Instrument>, market: string)
    ensures forall key :: key in Filled(table, records, market) <==>
              key in table || exists k :: 0 <= k < |records| && RecordKey(records[k], market) == key
    ensures forall key :: key in table && (forall k :: 0 <= k < |records| ==> RecordKey(records[k], market) != key) ==>
              Filled(table, records, market)[key] == table[key]
    decreases |records|
  {
    if records != [] {
      var init := records[..|records| - 1];
      FilledKeys(table, init, market);
      forall key | key in Filled(table, records, market) && key !in table
        ensures exists k :: 0 <= k < |records| && RecordKey(records[k], market) == key
      {
        if key != RecordKey(records[|records| - 1], market) {
          var k :| 0 <= k < |init| && RecordKey(init[k], market) == key;
          assert records[k] == init[k];
        }
      }
      forall key | exists k :: 0 <= k < |records| && RecordKey(records[k], market) == key
        ensures key in Filled(table, records, market)
      {
        var k :| 0 <= k < |records| && RecordKey(records[k], market) == key;
        if k < |init| {
          assert init[k] == records[k];
        }
      }
      forall key | key in table && (forall k :: 0 <= k < |records| ==> RecordKey(records[k], market) != key)
        ensures Filled(table, records, market)[key] == table[key]
      {
        forall k | 0 <= k < |init| ensures RecordKey(init[k], market) != key {
          assert init[k] == records[k];
        }
      }
    }
  }

  /** A key holds the last record stored under it. */
  lemma {:induction false} FilledLastWins(table: map<InstKey, Instrument>, records: seq<Instrument>,
                                          market: string, k: nat)
    requires k < |records|
    requires forall j :: k < j < |records| ==> RecordKey(records[j], market) != RecordKey(records[k], market)
    ensures RecordKey(records[k], market) in Filled(table, records, market)
    ensures Filled(table, records, market)[RecordKey(records[k], market)] == records[k]
    decreases |records|
  {
    var init := records[..|records| - 1];
    if k < |init| {
      assert init[k] == records[k];
      forall j | k < j < |init| ensures RecordKey(init[j], market) != RecordKey(init[k], market) {
        assert init[j] == records[j];
      }
      FilledLastWins(table, init, market, k);
    }
  }

  /** After filling rows that all normalise, a row's (ticker, category,
      market) key holds the normalised record of the last row with that key. */
  lemma RowLastWins(table: map<InstKey, Instrument>, rows: seq<RawInstrument>,
                    divisors: map<string, real>, market: string, k: nat)
    requires AllNormalize(rows, divisors) && k < |rows|
    requires forall j :: k < j < |rows| ==> KeyFor(rows[j], market) != KeyFor(rows[k], market)
    ensures KeyFor(rows[k], market) in Filled(table, Normalized(rows, divisors), market)
    ensures Filled(table, Normalized(rows, divisors), market)[KeyFor(rows[k], market)] == Normalize(rows[k], divisors).value
  {
    var recs := Normalized(rows, divisors);
    assert RecordKey(recs[k], market) == KeyFor(rows[k], market);
    forall j | k < j < |recs| ensures RecordKey(recs[j], market) != RecordKey(recs[k], market) {
      assert RecordKey(recs[j], market) == KeyFor(rows[j], market);
    }
    FilledLastWins(table, recs, market, k);
  }

  /** Recording maps exactly the rows' tickers and keeps every other ticker. */
  lemma {:induction false} MappedKeys(categories: map<string, Category>, rows: seq<RawInstrument>)
    ensures forall t :: t in Mapped(categories, rows) <==>
              t in categories || exists k :: 0 <= k < |rows| && rows[k].symbol == t
    ensures forall t :: t in categories && (forall k :: 0 <= k < |rows| ==> rows[k].symbol != t) ==>
              Mapped(categories, rows)[t] == categories[t]
    decreases |rows|
  {
    if rows != [] {
      var init := rows[..|rows| - 1];
      MappedKeys(categories, init);
      forall t | t in Mapped(categories, rows) && t !in categories
        ensures exists k :: 0 <= k < |rows| && rows[k].symbol == t
      {
        if t != rows[|rows| - 1].symbol {
          var k :| 0 <= k < |init| && init[k].symbol == t;
          assert rows[k] == init[k];
        }
      }
      forall t | exists k :: 0 <= k < |rows| && rows[k].symbol == t
        ensures t in Mapped(categories, rows)
      {
        var k :| 0 <= k < |rows| && rows[k].symbol == t;
        if k < |init| {
          assert init[k] == rows[k];
        }
      }
      forall t | t in categories && (forall k :: 0 <= k < |rows| ==> rows[k].symbol != t)
        ensures Mapped(categories, rows)[t] == categories[t]
      {
        forall k | 0 <= k < |init| ensures init[k].symbol != t {
          assert init[k] == rows[k];
        }
      }
    }
  }

  /** A ticker is mapped to the category of the last row that lists it. */
  lemma {:induction false} MappedLastWins(categories: map<string, Category>, rows: seq<RawInstrument>, k: nat)
    requires k < |rows|
    requires forall j :: k < j < |rows| ==> rows[j].symbol != rows[k].symbol
    ensures rows[k].symbol in Mapped(categories, rows)
    ensures Mapped(categories, rows)[rows[k].symbol] == CategoryOf(rows[k])
    decreases |rows|
  {
    var init := rows[..|rows| - 1];
    if k < |init| {
      assert init[k] == rows[k];
      forall j | k < j < |init| ensures init[j].symbol != init[k].symbol {
        assert init[j] == rows[j];
      }
      MappedLastWins(categories, init, k);
    }
  }

  /** The reply to a position query: a list of rows, or anything else. */
  datatype PositionReply = NotAList | Rows(rows: seq<PositionRow>)
  datatype PositionRow = PositionRow(currentQty: real)

  /** One execution row as the exchange sends it. */
  datatype RawTrade = RawTrade(symbol: string, settlCurrency: string, transactTime: string,
                               execID: string, lastQty: real, lastPx: real)

  /** One execution row after decoration. */
  datatype Trade = Trade(market: string, symbol: InstKey, settlCurrency: (string, string),
                         transactTime: string, execID: string, lastQty: real, lastPx: real)

  /** `trading_history`: `NoTime` is the "error" string returned without a
      start time, `UnknownTicker` the KeyError of a ticker with no category. */
  datatype History = NoTime | Trades(rows: seq<Trade>) | UnknownTicker(symbol: string)

  /** The symbol field of a cached order: the exchange's ticker, or the
      composite key once `open_orders` has decorated it in place. */
  datatype OrderSymbol = Ticker(ticker: string) | Keyed(key: InstKey)
  datatype CachedOrder = CachedOrder(symbol: OrderSymbol, orderID: string, transactTime: string)

  /** An order whose symbol is still a ticker with a known category. */
  predicate KnownTicker(order: CachedOrder, categories: map<string, Category>)
  {
    order.symbol.Ticker? && order.symbol.ticker in categories
  }

  /** The order with its ticker replaced by the composite key. */
  function WithKey(order: CachedOrder, categories: map<string, Category>, market: string): (r: CachedOrder)
    requires KnownTicker(order, categories)
    ensures r.symbol.Keyed? && r.symbol.key.0 == order.symbol.ticker
    ensures r.symbol.key.1 == categories[order.symbol.ticker] && r.symbol.key.2 == market
    ensures r.orderID == order.orderID && r.transactTime == order.transactTime
  {
    var t := order.symbol.ticker;
    order.(symbol := Keyed((t, categories[t], market)))
  }

  datatype Verb = GET | POST | PUT | DELETE

  /** The body of an order request. A replace sends the whole composite key
      as its symbol, where a new order sends the ticker alone. */
  datatype Payload =
    | NewLimit(symbol: string, orderQty: real, price: real, clOrdID: string, ordType: string)
    | MoveLimit(key: InstKey, price: real, orderID: string, leavesQty: real, ordType: string)
    | Cancel(orderID: string)

  /** An order request against the order-actions endpoint. */
  datatype OrderRequest = OrderRequest(verb: Verb, body: Payload)

  function Abs(x: real): real { if x < 0.0 then -x else x }

  /** `place_limit`: a POST of a limit order for the ticker of `key`. */
  function PlaceLimit(quantity: real, price: real, clOrdID: string, key: InstKey): (r: OrderRequest)
    ensures r.verb == POST && r.body.NewLimit? && r.body.ordType == "Limit"
    ensures r.body.symbol == key.0 && r.body.orderQty == quantity && r.body.price == price
    ensures r.body.clOrdID == clOrdID
  {
    OrderRequest(POST, NewLimit(key.0, quantity, price, clOrdID, "Limit"))
  }

  /** `replace_limit`: a PUT that moves a limit order, with the remaining
      quantity sent unsigned. */
  function ReplaceLimit(quantity: real, price: real, orderID: string, key: InstKey): (r: OrderRequest)
    ensures r.verb == PUT && r.body.MoveLimit? && r.body.ordType == "Limit"
    ensures r.body.leavesQty >= 0.0 && (r.body.leavesQty == quantity || r.body.leavesQty == -quantity)
    ensures r.body.key == key && r.body.price == price && r.body.orderID == orderID
  {
    OrderRequest(PUT, MoveLimit(key, price, orderID, Abs(quantity), "Limit"))
  }

  /** Buy and sell replacements of the same size send the same request. */
  lemma ReplaceLimitIgnoresSide(quantity: real, price: real, orderID: string, key: InstKey)
    ensures ReplaceLimit(quantity, price, orderID, key) == ReplaceLimit(-quantity, price, orderID, key)
  {
  }

  /** `remove_order`: a DELETE that names the order id and nothing else. */
  function RemoveOrder(orderID: string): (r: OrderRequest)
    ensures r.verb == DELETE && r.body == Cancel(orderID)
  {
    OrderRequest(DELETE, Cancel(orderID))
  }

  class Agent {
    const conn: Connection
    const currencyDivisor: map<string, real>
    /** The configured instruments (`symbol_list`). */
    const symbolList: seq<InstKey>
    var instrument: map<InstKey, Instrument>
    var symbolCategory: map<string, Category>
    /** `positions[key]["POS"]` */
    var positions: map<InstKey, real>
    /** The values of the order cache `data["order"]`, kept up to date by the feed. */
    var orderCache: seq<CachedOrder>

    constructor (conn: Connection, currencyDivisor: map<string, real>, symbolList: seq<InstKey>)
      ensures this.conn == conn && this.currencyDivisor == currencyDivisor && this.symbolList == symbolList
      ensures instrument == map[] && symbolCategory == map[] && positions == map[] && orderCache == []
    {
      this.conn := conn;
      this.currencyDivisor := currencyDivisor;
      this.symbolList := symbolList;
      instrument := map[];
      symbolCategory := map[];
      positions := map[];
      orderCache := [];
    }

    /** `fill_instrument`: writes the normalised record under its composite
        key and returns the category; a failing computation raises before
        anything is written. */
    method FillInstrument(raw: RawInstrument) returns (r: Result<Category>)
      modifies this`instrument
      ensures Normalize(raw, currencyDivisor).Ok? ==>
                r == Ok(CategoryOf(raw)) &&
                instrument == old(instrument)[KeyFor(raw, conn.name) := Normalize(raw, currencyDivisor).value]
      ensures Normalize(raw, currencyDivisor).Err? ==>
                r == Err(Normalize(raw, currencyDivisor).error) && instrument == old(instrument)
    {
      match Normalize(raw, currencyDivisor)
      case Err(e) =>
        r := Err(e);
      case Ok(rec) =>
        instrument := instrument[(raw.symbol, rec.category, conn.name) := rec];
        r := Ok(rec.category);
    }

    /** `get_instrument`: fills the first row of the reply, if any. */
    method GetInstrument(reply: seq<RawInstrument>) returns (r: Result<()>)
      modifies this`instrument, this`symbolCategory
      ensures reply == [] ==> r == Ok(()) && instrument == old(instrument) && symbolCategory == old(symbolCategory)
      ensures reply != [] && Normalize(reply[0], currencyDivisor).Ok? ==>
                r == Ok(()) &&
                instrument == old(instrument)[KeyFor(reply[0], conn.name) := Normalize(reply[0], currencyDivisor).value] &&
                symbolCategory == old(symbolCategory)[reply[0].symbol := CategoryOf(reply[0])]
      ensures reply != [] && Normalize(reply[0], currencyDivisor).Err? ==>
                && r == Err(Normalize(reply[0], currencyDivisor).error)
                && instrument == old(instrument) && symbolCategory == old(symbolCategory)
    {
      if reply == [] {
        return Ok(());
      }
      var c := FillInstrument(reply[0]);
      if c.Err? {
        return Err(c.error);
      }
      symbolCategory := symbolCategory[reply[0].symbol := c.value];
      r := Ok(());
    }

    /** The first loop of `get_active_instruments`: fills the listed rows in
        order and maps each ticker to its category, stopping at the first
        row whose computation raises, whose index is returned. */
    method FillRows(result: seq<RawInstrument>) returns (failed: Option<nat>)
      modifies this`instrument, this`symbolCategory
      ensures failed.None? <==> AllNormalize(result, currencyDivisor)
      ensures failed.None? ==>
                && instrument == Filled(old(instrument), Normalized(result, currencyDivisor), conn.name)
                && symbolCategory == Mapped(old(symbolCategory), result)
      ensures failed.Some? ==>
                && failed.value < |result|
                && AllNormalize(result[..failed.value], currencyDivisor)
                && Normalize(result[failed.value], currencyDivisor).Err?
                && instrument == Filled(old(instrument), Normalized(result[..failed.value], currencyDivisor), conn.name)
                && symbolCategory == Mapped(old(symbolCategory), result[..failed.value])
    {
      for i := 0 to |result|
        invariant AllNormalize(result[..i], currencyDivisor)
        invariant instrument == Filled(old(instrument), Normalized(result[..i], currencyDivisor), conn.name)
        invariant symbolCategory == Mapped(old(symbolCategory), result[..i])
      {
        var c := FillInstrument(result[i]);
        if c.Err? {
          return Some(i);
        }
        symbolCategory := symbolCategory[result[i].symbol := c.value];
        DiscoveryStep(old(instrument), old(symbolCategory), result, currencyDivisor, conn.name, i);
      }
      assert result[..|result|] == result;
      failed := None;
    }

    /**
     * `get_active_instruments`: the request's reply and the severity the
     * request leaves on the market are given. Skipped when that severity
     * is nonzero; otherwise every listed instrument is filled and its ticker mapped to
     * its category, and a configured instrument that is still missing ends
     * the process.
     */
    method GetActiveInstruments(result: seq<RawInstrument>, severityAfterRequest: int) returns (o: Discovery)
      modifies this`instrument, this`symbolCategory, conn`logNumFatal
      ensures conn.logNumFatal == severityAfterRequest
      ensures severityAfterRequest != 0 <==> o == Skipped
      ensures o == Skipped ==> instrument == old(instrument) && symbolCategory == old(symbolCategory)
      ensures o.Loaded? || o.UnknownSymbol? ==>
                && AllNormalize(result, currencyDivisor)
                && instrument == Filled(old(instrument), Normalized(result, currencyDivisor), conn.name)
                && symbolCategory == Mapped(old(symbolCategory), result)
      ensures o.FillFailed? ==>
                exists i :: 0 <= i < |result|
                  && AllNormalize(result[..i], currencyDivisor)
                  && Normalize(result[i], currencyDivisor) == Err(o.error)
                  && instrument == Filled(old(instrument), Normalized(result[..i], currencyDivisor), conn.name)
                  && symbolCategory == Mapped(old(symbolCategory), result[..i])
      ensures o.Loaded? ==> forall s :: s in symbolList ==> s in instrument
      ensures o.UnknownSymbol? ==>
                exists j :: 0 <= j < |symbolList| && symbolList[j] == o.key && o.key !in instrument
                  && forall k :: 0 <= k < j ==> symbolList[k] in instrument
    {
      conn.logNumFatal := severityAfterRequest;
      if conn.logNumFatal != 0 {
        return Skipped;
      }
      var failed := FillRows(result);
      if failed.Some? {
        o := FillFailed(Normalize(result[failed.value], currencyDivisor).error);
        return;
      }
      for j := 0 to |symbolList|
        invariant forall k :: 0 <= k < j ==> symbolList[k] in instrument
      {
        if symbolList[j] !in instrument {
          return UnknownSymbol(symbolList[j]);
        }
      }
      o := Loaded;
    }

    /** `get_position`: an empty list records a flat position, a non-empty
        one records the first row's quantity in both tables, and any other
        reply changes nothing. */
    method GetPosition(key: InstKey, reply: PositionReply)
      modifies this`positions, this`instrument
      ensures reply.NotAList? ==> positions == old(positions) && instrument == old(instrument)
      ensures reply.Rows? && reply.rows == [] ==>
                positions == old(positions)[key := 0.0] && instrument == old(instrument)
      ensures reply.Rows? && reply.rows != [] ==>
                && positions == old(positions)[key := reply.rows[0].currentQty]
                && instrument.Keys == old(instrument).Keys + {key}
                && instrument[key].currentQty == reply.rows[0].currentQty
                && (key in old(instrument) ==> instrument[key] == old(instrument)[key].(currentQty := reply.rows[0].currentQty))
                && (forall k :: k in old(instrument) && k != key ==> instrument[k] == old(instrument)[k])
    {
      match reply
      case NotAList =>
      case Rows(rows) =>
        if rows != [] {
          positions := positions[key := rows[0].currentQty];
          var rec := if key in instrument then instrument[key] else Blank(key);
          instrument := instrument[key := rec.(currentQty := rows[0].currentQty)];
        } else {
          positions := positions[key := 0.0];
        }
    }

    /** `trading_history`: without a start time the answer is "error";
        otherwise each row gets the market name, its composite key and its
        (currency, market) pair, in the order received. */
    method TradingHistory(histCount: int, time: Option<string>, result: seq<RawTrade>) returns (h: History)
      ensures time.None? <==> h == NoTime
      ensures h.UnknownTicker? ==> h.symbol !in symbolCategory &&
                                   exists k :: 0 <= k < |result| && result[k].symbol == h.symbol
      ensures time.Some? && (forall k :: 0 <= k < |result| ==> result[k].symbol in symbolCategory) ==> h.Trades?
      ensures h.Trades? ==>
                && |h.rows| == |result|
                && forall k :: 0 <= k < |result| ==>
                     && result[k].symbol in symbolCategory
                     && h.rows[k].market == conn.name
                     && h.rows[k].symbol == (result[k].symbol, symbolCategory[result[k].symbol], conn.name)
                     && h.rows[k].settlCurrency == (result[k].settlCurrency, conn.name)
                     && h.rows[k].transactTime == result[k].transactTime
                     && h.rows[k].execID == result[k].execID
                     && h.rows[k].lastQty == result[k].lastQty && h.rows[k].lastPx == result[k].lastPx
    {
      if time.None? {
        return NoTime;
      }
      var rows: seq<Trade> := [];
      for i := 0 to |result|
        invariant |rows| == i
        invariant forall k :: 0 <= k < i ==>
                    && result[k].symbol in symbolCategory
                    && rows[k] == Trade(conn.name, (result[k].symbol, symbolCategory[result[k].symbol], conn.name),
                                        (result[k].settlCurrency, conn.name), result[k].transactTime,
                                        result[k].execID, result[k].lastQty, result[k].lastPx)
      {
        var row := result[i];
        if row.symbol !in symbolCategory {
          return UnknownTicker(row.symbol);
        }
        rows := rows + [Trade(conn.name, (row.symbol, symbolCategory[row.symbol], conn.name),
                              (row.settlCurrency, conn.name), row.transactTime,
                              row.execID, row.lastQty, row.lastPx)];
      }
      h := Trades(rows);
    }

    /**
     * `open_orders`: rewrites the symbol of every cached order, in place,
     * into its composite key and returns the cache. An order whose symbol is
     * not a known ticker (an unknown one, or one already rewritten by an
     * earlier call) raises a KeyError; the orders before it stay rewritten.
     */
    method OpenOrders() returns (r: Option<seq<CachedOrder>>)
      modifies this`orderCache
      ensures |orderCache| == |old(orderCache)|
      ensures r.Some? <==> forall k :: 0 <= k < |old(orderCache)| ==> KnownTicker(old(orderCache)[k], symbolCategory)
      ensures r.Some? ==>
                && r.value == orderCache
                && forall k :: 0 <= k < |orderCache| ==>
                     orderCache[k] == WithKey(old(orderCache)[k], symbolCategory, conn.name)
      ensures r.None? ==>
                exists i :: 0 <= i < |orderCache|
                  && !KnownTicker(old(orderCache)[i], symbolCategory)
                  && (forall k :: 0 <= k < i ==>
                        && KnownTicker(old(orderCache)[k], symbolCategory)
                        && orderCache[k] == WithKey(old(orderCache)[k], symbolCategory, conn.name))
                  && (forall k :: i <= k < |orderCache| ==> orderCache[k] == old(orderCache)[k])
    {
      for i := 0 to |orderCache|
        invariant |orderCache| == |old(orderCache)|
        invariant forall k :: 0 <= k < i ==>
                    && KnownTicker(old(orderCache)[k], symbolCategory)
                    && orderCache[k] == WithKey(old(orderCache)[k], symbolCategory, conn.name)
        invariant forall k :: i <= k < |orderCache| ==> orderCache[k] == old(orderCache)[k]
      {
        var order := orderCache[i];
        if !KnownTicker(order, symbolCategory) {
          return None;
        }
        orderCache := orderCache[i := WithKey(order, symbolCategory, conn.name)];
      }
      r := Some(orderCache);
    }
  }
}
