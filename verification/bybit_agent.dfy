/**
 * The Bybit adapter: instrument discovery with duplicate-free settlement
 * lists, the user id, trade history, open orders, the wallet table and the
 * position table. Replies of the exchange are inputs: a function from the
 * query (category, coin) to the script of pages the exchange answers with.
 */
module BybitAgent {
  import opened Common
  import opened Market
  import opened BybitJson
  import opened BybitPaging

  /** A Bybit instrument key: (symbol, category). */
  type SymKey = (string, string)

  /** One row of the instrument listing. */
  datatype RawInstrument = RawInstrument(symbol: string, settleCoin: Option<string>,
                                         deliveryTime: Option<string>, tickSize: real,
                                         minOrderQty: real, status: string)

  /** The record kept in the instrument table. */
  datatype Instrument = Instrument(
    symbol: string,
    settlCurrency: Option<string>,
    expiry: Option<string>,
    tickSize: real,
    lotSize: real,
    state: string,
    multiplier: int,
    myMultiplier: int,
    fundingRate: real,
    isInverse: bool,
    volume24h: Option<real>)

  /** The record `fill_instrument` leaves in the table for a row of
      `category`. A row without a settlement coin raises before the last
      field, the 24-hour volume, is written, so that field stays unset. */
  function Record(raw: RawInstrument, category: string): (r: Instrument)
    ensures r.symbol == raw.symbol && (r.isInverse <==> category == "inverse")
    ensures r.multiplier == 1 && r.myMultiplier == 1 && r.fundingRate == 0.0
    ensures r.volume24h.Some? <==> raw.settleCoin.Some?
    ensures r.volume24h.Some? ==> r.volume24h.value == 0.0
    ensures r.expiry.None? <==> raw.deliveryTime.None?
    ensures r.settlCurrency == raw.settleCoin && r.lotSize == raw.minOrderQty
  {
    Instrument(raw.symbol, raw.settleCoin, raw.deliveryTime, raw.tickSize, raw.minOrderQty,
               raw.status, 1, 1, 0.0, category == "inverse",
               if raw.settleCoin.Some? then Some(0.0) else None)
  }

  /** A list append that skips an element already present. */
  function AddNew(s: seq<string>, x: string): (r: seq<string>)
  {
    if x in s then s else s + [x]
  }

  /** The element is in the list afterwards, nothing is lost, and a
      duplicate-free list stays duplicate-free. */
  lemma AddNewKeepsNoDup(s: seq<string>, x: string)
    requires NoDup(s)
    ensures NoDup(AddNew(s, x))
    ensures x in AddNew(s, x) && forall y :: y in s ==> y in AddNew(s, x)
    ensures x in s ==> AddNew(s, x) == s
  {
    if x !in s {
      AppendFreshNoDup(s, x);
    }
  }

  /** The outcome of `get_active_instruments`: the filled table, the
      `exit(1)` for a configured symbol the exchange did not list, or the
      KeyError of a row without a settlement coin. */
  datatype Discovery = Loaded | UnknownSymbol(key: SymKey) | MissingSettleCoin(key: SymKey)

  /** Every row has a settlement coin. */
  predicate Settled(rows: seq<RawInstrument>)
  {
    forall m :: 0 <= m < |rows| ==> rows[m].settleCoin.Some?
  }

  /** Every row listed for every category has a settlement coin. */
  predicate AllSettled(categories: seq<string>, replies: string -> seq<RawInstrument>)
  {
    forall k :: 0 <= k < |categories| ==> Settled(replies(categories[k]))
  }

  /** The instrument table after filling the rows of one category in order. */
  function StoreRows(table: map<SymKey, Instrument>, rows: seq<RawInstrument>, category: string): map<SymKey, Instrument>
    decreases |rows|
  {
    if rows == [] then table
    else
      var last := rows[|rows| - 1];
      StoreRows(table, rows[..|rows| - 1], category)[(last.symbol, category) := Record(last, category)]
  }

  /** The instrument table after filling every category's rows in order. */
  function StoreAll(table: map<SymKey, Instrument>, categories: seq<string>,
                    replies: string -> seq<RawInstrument>): map<SymKey, Instrument>
    decreases |categories|
  {
    if categories == [] then table
    else
      var last := categories[|categories| - 1];
      StoreRows(StoreAll(table, categories[..|categories| - 1], replies), replies(last), last)
  }

  /** A coin list after adding the settlement coin of each row, skipping repeats. */
  function AddCoins(coins: seq<string>, rows: seq<RawInstrument>): seq<string>
    requires Settled(rows)
    decreases |rows|
  {
    if rows == [] then coins
    else AddNew(AddCoins(coins, rows[..|rows| - 1]), rows[|rows| - 1].settleCoin.value)
  }

  /** `settleCoin_list` after filling every category's rows in order. */
  function CoinsAll(coins: seq<string>, categories: seq<string>, replies: string -> seq<RawInstrument>): seq<string>
    requires AllSettled(categories, replies)
    decreases |categories|
  {
    if categories == [] then coins
    else
      var last := categories[|categories| - 1];
      AddCoins(CoinsAll(coins, categories[..|categories| - 1], replies), replies(last))
  }

  /** `settlCurrency_list` after filling every category's rows in order:
      each category's list gains the coins of that category's rows. */
  function SettlAll(lists: map<string, seq<string>>, categories: seq<string>,
                    replies: string -> seq<RawInstrument>): (r: map<string, seq<string>>)
    requires AllSettled(categories, replies)
    requires forall k :: 0 <= k < |categories| ==> categories[k] in lists
    ensures r.Keys == lists.Keys
    decreases |categories|
  {
    if categories == [] then lists
    else
      var last := categories[|categories| - 1];
      var before := SettlAll(lists, categories[..|categories| - 1], replies);
      before[last := AddCoins(before[last], replies(last))]
  }

  /** The state a discovery leaves when row `j` listed for category `i` is
      the first without a settlement coin: every row up to and including it
      is stored, and the coins of the rows before it are listed in both
      settlement lists. */
  predicate StoppedAt(categories: seq<string>, replies: string -> seq<RawInstrument>, i: nat, j: nat,
                      table0: map<SymKey, Instrument>, coins0: seq<string>, lists0: map<string, seq<string>>,
                      key: SymKey, table: map<SymKey, Instrument>, coins: seq<string>, lists: map<string, seq<string>>)
  {
    && i < |categories| && j < |replies(categories[i])|
    && (forall k :: 0 <= k < |categories| ==> categories[k] in lists0)
    && AllSettled(categories[..i], replies)
    && Settled(replies(categories[i])[..j])
    && replies(categories[i])[j].settleCoin.None?
    && key == (replies(categories[i])[j].symbol, categories[i])
    && table == StoreRows(StoreAll(table0, categories[..i], replies), replies(categories[i])[..j + 1], categories[i])
    && coins == AddCoins(CoinsAll(coins0, categories[..i], replies), replies(categories[i])[..j])
    && var before := SettlAll(lists0, categories[..i], replies);
       lists == before[categories[i] := AddCoins(before[categories[i]], replies(categories[i])[..j])]
  }

  /** One more category filled: the folds over a prefix one category longer. */
  lemma DiscoveryStep(table: map<SymKey, Instrument>, coins: seq<string>, lists: map<string, seq<string>>,
                      categories: seq<string>, replies: string -> seq<RawInstrument>, i: nat)
    requires i < |categories| && AllSettled(categories[..i], replies) && Settled(replies(categories[i]))
    requires forall k :: 0 <= k < |categories| ==> categories[k] in lists
    ensures AllSettled(categories[..i + 1], replies)
    ensures StoreAll(table, categories[..i + 1], replies)
              == StoreRows(StoreAll(table, categories[..i], replies), replies(categories[i]), categories[i])
    ensures CoinsAll(coins, categories[..i + 1], replies)
              == AddCoins(CoinsAll(coins, categories[..i], replies), replies(categories[i]))
    ensures var before := SettlAll(lists, categories[..i], replies);
            SettlAll(lists, categories[..i + 1], replies)
              == before[categories[i] := AddCoins(before[categories[i]], replies(categories[i]))]
  {
    assert categories[..i + 1][..i] == categories[..i];
  }

  /** Filling one category's rows adds exactly their keys and leaves every
      other entry as it was. */
  lemma {:induction false} StoreRowsKeys(table: map<SymKey, Instrument>, rows: seq<RawInstrument>, category: string)
    ensures forall key :: key in StoreRows(table, rows, category) <==>
              key in table || exists m :: 0 <= m < |rows| && (rows[m].symbol, category) == key
    ensures forall key :: key in table && (forall m :: 0 <= m < |rows| ==> (rows[m].symbol, category) != key) ==>
              StoreRows(table, rows, category)[key] == table[key]
    decreases |rows|
  {
    if rows != [] {
      var init := rows[..|rows| - 1];
      StoreRowsKeys(table, init, category);
      forall key | key in StoreRows(table, rows, category) && key !in table
        ensures exists m :: 0 <= m < |rows| && (rows[m].symbol, category) == key
      {
        if key != (rows[|rows| - 1].symbol, category) {
          var m :| 0 <= m < |init| && (init[m].symbol, category) == key;
          assert rows[m] == init[m];
        }
      }
      forall key | exists m :: 0 <= m < |rows| && (rows[m].symbol, category) == key
        ensures key in StoreRows(table, rows, category)
      {
        var m :| 0 <= m < |rows| && (rows[m].symbol, category) == key;
        if m < |init| {
          assert init[m] == rows[m];
        }
      }
      forall key | key in table && (forall m :: 0 <= m < |rows| ==> (rows[m].symbol, category) != key)
        ensures StoreRows(table, rows, category)[key] == table[key]
      {
        forall m | 0 <= m < |init| ensures (init[m].symbol, category) != key {
          assert init[m] == rows[m];
        }
      }
    }
  }

  /** Filling one category's rows leaves the entries of other categories alone. */
  lemma {:induction false} StoreRowsOtherCategory(table: map<SymKey, Instrument>, rows: seq<RawInstrument>,
                                                  category: string, key: SymKey)
    requires key.1 != category
    ensures key in StoreRows(table, rows, category) <==> key in table
    ensures key in table ==> StoreRows(table, rows, category)[key] == table[key]
    decreases |rows|
  {
    if rows != [] {
      StoreRowsOtherCategory(table, rows[..|rows| - 1], category, key);
    }
  }

  /** The record stored under a row's key is that of the last row with the
      same symbol. */
  lemma {:induction false} StoreRowsLastWins(table: map<SymKey, Instrument>, rows: seq<RawInstrument>,
                                             category: string, m: nat)
    requires m < |rows|
    requires forall j :: m < j < |rows| ==> rows[j].symbol != rows[m].symbol
    ensures (rows[m].symbol, category) in StoreRows(table, rows, category)
    ensures StoreRows(table, rows, category)[(rows[m].symbol, category)] == Record(rows[m], category)
    decreases |rows|
  {
    var init := rows[..|rows| - 1];
    if m < |init| {
      assert init[m] == rows[m];
      forall j | m < j < |init| ensures init[j].symbol != init[m].symbol {
        assert init[j] == rows[j];
      }
      StoreRowsLastWins(table, init, category, m);
    }
  }

  /** After the whole discovery, (symbol, category) holds the record of the
      last row with that symbol in the reply for the category's last
      occurrence in the list. */
  lemma {:induction false} StoreAllLastWins(table: map<SymKey, Instrument>, categories: seq<string>,
                                            replies: string -> seq<RawInstrument>, k: nat, m: nat)
    requires k < |categories|
    requires forall j :: k < j < |categories| ==> categories[j] != categories[k]
    requires m < |replies(categories[k])|
    requires forall j :: m < j < |replies(categories[k])| ==>
               replies(categories[k])[j].symbol != replies(categories[k])[m].symbol
    ensures (replies(categories[k])[m].symbol, categories[k]) in StoreAll(table, categories, replies)
    ensures StoreAll(table, categories, replies)[(replies(categories[k])[m].symbol, categories[k])]
              == Record(replies(categories[k])[m], categories[k])
    decreases |categories|
  {
    var init := categories[..|categories| - 1];
    var last := categories[|categories| - 1];
    if k == |categories| - 1 {
      StoreRowsLastWins(StoreAll(table, init, replies), replies(last), last, m);
    } else {
      assert init[k] == categories[k];
      forall j | k < j < |init| ensures init[j] != init[k] {
        assert init[j] == categories[j];
      }
      StoreAllLastWins(table, init, replies, k, m);
      StoreRowsOtherCategory(StoreAll(table, init, replies), replies(last), last,
                             (replies(categories[k])[m].symbol, categories[k]));
    }
  }

  /** Adding the rows' coins keeps the list duplicate-free and keeps its
      old contents as a prefix. */
  lemma {:induction false} AddCoinsNoDup(coins: seq<string>, rows: seq<RawInstrument>)
    requires NoDup(coins) && Settled(rows)
    ensures NoDup(AddCoins(coins, rows))
    ensures |coins| <= |AddCoins(coins, rows)| && AddCoins(coins, rows)[..|coins|] == coins
    decreases |rows|
  {
    if rows != [] {
      var init := rows[..|rows| - 1];
      var coin := rows[|rows| - 1].settleCoin.value;
      AddCoinsNoDup(coins, init);
      var before := AddCoins(coins, init);
      AddNewKeepsNoDup(before, coin);
      assert AddNew(before, coin)[..|before|] == before;
      assert AddNew(before, coin)[..|coins|] == before[..|coins|];
    }
  }

  /** Adding the rows' coins loses nothing and adds every row's coin and
      nothing else. */
  lemma {:induction false} AddCoinsMembers(coins: seq<string>, rows: seq<RawInstrument>)
    requires Settled(rows)
    ensures forall x :: x in coins ==> x in AddCoins(coins, rows)
    ensures forall m :: 0 <= m < |rows| ==> rows[m].settleCoin.value in AddCoins(coins, rows)
    ensures forall x :: x in AddCoins(coins, rows) ==>
              x in coins || exists m :: 0 <= m < |rows| && rows[m].settleCoin == Some(x)
    decreases |rows|
  {
    if rows != [] {
      var init := rows[..|rows| - 1];
      var coin := rows[|rows| - 1].settleCoin.value;
      AddCoinsMembers(coins, init);
      forall m | 0 <= m < |rows| ensures rows[m].settleCoin.value in AddCoins(coins, rows) {
        if m < |init| {
          assert init[m] == rows[m];
        }
      }
      forall x | x in AddCoins(coins, rows) && x !in coins
        ensures exists m :: 0 <= m < |rows| && rows[m].settleCoin == Some(x)
      {
        if x != coin {
          var m :| 0 <= m < |init| && init[m].settleCoin == Some(x);
          assert rows[m] == init[m];
        }
      }
    }
  }

  /** After the whole discovery `settleCoin_list` is duplicate-free and
      starts with the coins it held before. */
  lemma {:induction false} CoinsAllNoDup(coins: seq<string>, categories: seq<string>,
                                         replies: string -> seq<RawInstrument>)
    requires NoDup(coins) && AllSettled(categories, replies)
    ensures NoDup(CoinsAll(coins, categories, replies))
    ensures |coins| <= |CoinsAll(coins, categories, replies)| && CoinsAll(coins, categories, replies)[..|coins|] == coins
    decreases |categories|
  {
    if categories != [] {
      var init := categories[..|categories| - 1];
      var last := categories[|categories| - 1];
      CoinsAllNoDup(coins, init, replies);
      var before := CoinsAll(coins, init, replies);
      AddCoinsNoDup(before, replies(last));
      assert AddCoins(before, replies(last))[..|coins|] == before[..|coins|];
    }
  }

  /** After the whole discovery `settleCoin_list` holds every listed row's
      coin and nothing else besides what it held before. */
  lemma {:induction false} CoinsAllMembers(coins: seq<string>, categories: seq<string>,
                                           replies: string -> seq<RawInstrument>)
    requires AllSettled(categories, replies)
    ensures forall k, m :: 0 <= k < |categories| && 0 <= m < |replies(categories[k])| ==>
              replies(categories[k])[m].settleCoin.value in CoinsAll(coins, categories, replies)
    ensures forall x :: x in CoinsAll(coins, categories, replies) ==>
              x in coins || exists k, m :: 0 <= k < |categories| && 0 <= m < |replies(categories[k])| &&
                                          replies(categories[k])[m].settleCoin == Some(x)
    decreases |categories|
  {
    if categories != [] {
      var init := categories[..|categories| - 1];
      var last := categories[|categories| - 1];
      CoinsAllMembers(coins, init, replies);
      var before := CoinsAll(coins, init, replies);
      AddCoinsMembers(before, replies(last));
      forall k, m | 0 <= k < |categories| && 0 <= m < |replies(categories[k])|
        ensures replies(categories[k])[m].settleCoin.value in CoinsAll(coins, categories, replies)
      {
        if k < |init| {
          assert init[k] == categories[k];
          assert replies(categories[k])[m].settleCoin.value in before;
        }
      }
      forall x | x in CoinsAll(coins, categories, replies) && x !in coins
        ensures exists k, m :: 0 <= k < |categories| && 0 <= m < |replies(categories[k])| &&
                               replies(categories[k])[m].settleCoin == Some(x)
      {
        if x in before {
          var k, m :| 0 <= k < |init| && 0 <= m < |replies(init[k])| && replies(init[k])[m].settleCoin == Some(x);
          assert categories[k] == init[k];
        } else {
          var m :| 0 <= m < |replies(last)| && replies(last)[m].settleCoin == Some(x);
          assert categories[|categories| - 1] == last;
        }
      }
    }
  }

  /** After the whole discovery each listed category's settlement list holds
      the coin of every row listed for it, and the lists of categories that
      were not listed are unchanged. */
  lemma {:induction false} SettlAllFacts(lists: map<string, seq<string>>, categories: seq<string>,
                                         replies: string -> seq<RawInstrument>)
    requires AllSettled(categories, replies)
    requires forall k :: 0 <= k < |categories| ==> categories[k] in lists
    ensures forall c :: c in lists && c !in categories ==> SettlAll(lists, categories, replies)[c] == lists[c]
    ensures forall k, m :: 0 <= k < |categories| && 0 <= m < |replies(categories[k])| ==>
              replies(categories[k])[m].settleCoin.value in SettlAll(lists, categories, replies)[categories[k]]
    decreases |categories|
  {
    if categories != [] {
      var init := categories[..|categories| - 1];
      var last := categories[|categories| - 1];
      SettlAllFacts(lists, init, replies);
      var before := SettlAll(lists, init, replies);
      forall k, m | 0 <= k < |categories| && 0 <= m < |replies(categories[k])|
        ensures replies(categories[k])[m].settleCoin.value in SettlAll(lists, categories, replies)[categories[k]]
      {
        var coin := replies(categories[k])[m].settleCoin.value;
        if categories[k] == last {
          AddCoinsMembers(before[last], replies(last));
        } else {
          assert init[k] == categories[k];
          assert coin in before[categories[k]];
        }
      }
    }
  }

  /** One execution row as the exchange sends it; `execTime` in milliseconds. */
  datatype RawExec = RawExec(symbol: string, execId: string, orderId: string, execPrice: real,
                             leavesQty: real, execTime: int, execFee: real, orderLinkId: string,
                             orderPrice: real, execQty: real)

  /** One decorated execution. `transactTime` keeps the exchange's clock
      value; the conversion to a datetime is monotone and is not modelled. */
  datatype Exec = Exec(symbol: SymKey, execID: string, orderID: string, category: string,
                       lastPx: real, leavesQty: real, transactTime: int, commission: real,
                       clOrdID: string, price: real, lastQty: real, settlCurrency: string,
                       market: string, foreignNotional: int)

  function DecorateExec(row: RawExec, category: string, settl: string, market: string): (e: Exec)
    ensures e.symbol == (row.symbol, category) && e.category == category
    ensures e.settlCurrency == settl && e.market == market && e.foreignNotional == 0
    ensures e.transactTime == row.execTime
  {
    Exec((row.symbol, category), row.execId, row.orderId, category, row.execPrice, row.leavesQty,
         row.execTime, row.execFee, row.orderLinkId, row.orderPrice, row.execQty, settl, market, 0)
  }

  /** An execution of `key` can be decorated: the instrument is in the
      table and has its settlement currency (otherwise a KeyError). */
  predicate Decorable(table: map<SymKey, Instrument>, key: SymKey)
  {
    key in table && table[key].settlCurrency.Some?
  }

  /** Some execution in the reply for `category` cannot be decorated. */
  predicate HasBadRow(table: map<SymKey, Instrument>, rows: seq<RawExec>, category: string)
  {
    exists m :: 0 <= m < |rows| && !Decorable(table, (rows[m].symbol, category))
  }

  predicate SortedByTime(s: seq<Exec>)
  {
    forall i, j :: 0 <= i < j < |s| ==> s[i].transactTime <= s[j].transactTime
  }

  /** Places `e` before the first row that is not earlier than it. */
  function InsertByTime(e: Exec, s: seq<Exec>): seq<Exec>
  {
    if s == [] then [e]
    else if e.transactTime <= s[0].transactTime then [e] + s
    else [s[0]] + InsertByTime(e, s[1..])
  }

  /** `list.sort(key=lambda x: x["transactTime"])`, stable. */
  function SortByTime(s: seq<Exec>): seq<Exec>
  {
    if s == [] then [] else InsertByTime(s[0], SortByTime(s[1..]))
  }

  lemma {:induction false} InsertByTimePermutes(e: Exec, s: seq<Exec>)
    ensures multiset(InsertByTime(e, s)) == multiset(s) + multiset{e}
  {
    if s != [] && e.transactTime > s[0].transactTime {
      InsertByTimePermutes(e, s[1..]);
      assert s == [s[0]] + s[1..];
    }
  }

  /** The head of a sorted list is not later than any other row. */
  lemma SortedHead(s: seq<Exec>)
    requires SortedByTime(s) && s != []
    ensures forall x :: x in s[1..] ==> s[0].transactTime <= x.transactTime
  {
    forall x | x in s[1..]
      ensures s[0].transactTime <= x.transactTime
    {
      var m :| 0 <= m < |s[1..]| && s[1..][m] == x;
      assert s[1 + m] == x;
    }
  }

  lemma SortedCons(a: Exec, t: seq<Exec>)
    requires SortedByTime(t) && forall x :: x in t ==> a.transactTime <= x.transactTime
    ensures SortedByTime([a] + t)
  {
    forall i, j | 0 <= i < j < |[a] + t|
      ensures ([a] + t)[i].transactTime <= ([a] + t)[j].transactTime
    {
      if i == 0 {
        assert ([a] + t)[j] == t[j - 1] && t[j - 1] in t;
      } else {
        assert ([a] + t)[i] == t[i - 1] && ([a] + t)[j] == t[j - 1];
      }
    }
  }

  lemma {:induction false} InsertByTimeSorted(e: Exec, s: seq<Exec>)
    requires SortedByTime(s)
    ensures SortedByTime(InsertByTime(e, s))
  {
    if s == [] {
    } else if e.transactTime <= s[0].transactTime {
      SortedHead(s);
      forall x | x in s
        ensures e.transactTime <= x.transactTime
      {
        if x != s[0] {
          assert s == [s[0]] + s[1..];
          assert x in s[1..];
        }
      }
      SortedCons(e, s);
    } else {
      var t := InsertByTime(e, s[1..]);
      assert SortedByTime(s[1..]);
      InsertByTimeSorted(e, s[1..]);
      InsertByTimePermutes(e, s[1..]);
      SortedHead(s);
      forall x | x in t
        ensures s[0].transactTime <= x.transactTime
      {
        assert x in multiset(t);
        if x != e {
          assert x in multiset(s[1..]);
        }
      }
      SortedCons(s[0], t);
    }
  }

  /** The history comes out ordered by time and holds every row exactly as
      often as the input did. */
  lemma {:induction false} SortByTimeSortsAndPermutes(s: seq<Exec>)
    ensures SortedByTime(SortByTime(s))
    ensures multiset(SortByTime(s)) == multiset(s)
  {
    if s != [] {
      SortByTimeSortsAndPermutes(s[1..]);
      InsertByTimeSorted(s[0], SortByTime(s[1..]));
      InsertByTimePermutes(s[0], SortByTime(s[1..]));
      assert s == [s[0]] + s[1..];
    }
  }

  /** The rows stamped with time `t`, in their order. */
  function AtTime(s: seq<Exec>, t: int): seq<Exec>
  {
    if s == [] then []
    else (if s[0].transactTime == t then [s[0]] else []) + AtTime(s[1..], t)
  }

  lemma AtTimeCons(x: Exec, rest: seq<Exec>, t: int)
    ensures AtTime([x] + rest, t) == (if x.transactTime == t then [x] else []) + AtTime(rest, t)
  {
    assert ([x] + rest)[1..] == rest;
  }

  /** Inserting a row keeps the order of the rows with any one time and
      puts the new row first among those with its own time. */
  lemma {:induction false} InsertByTimeStable(e: Exec, s: seq<Exec>, t: int)
    ensures AtTime(InsertByTime(e, s), t) == (if e.transactTime == t then [e] else []) + AtTime(s, t)
  {
    if s == [] {
      AtTimeCons(e, [], t);
    } else if e.transactTime <= s[0].transactTime {
      AtTimeCons(e, s, t);
    } else {
      InsertByTimeStable(e, s[1..], t);
      AtTimeCons(s[0], InsertByTime(e, s[1..]), t);
      AtTimeCons(s[0], s[1..], t);
      assert [s[0]] + s[1..] == s;
    }
  }

  /** The sort is stable: the rows with any one time keep their input order. */
  lemma {:induction false} SortByTimeStable(s: seq<Exec>, t: int)
    ensures AtTime(SortByTime(s), t) == AtTime(s, t)
  {
    if s != [] {
      SortByTimeStable(s[1..], t);
      InsertByTimeStable(s[0], SortByTime(s[1..]), t);
    }
  }

  /** The rows of one category's reply, decorated, as `trading_history`
      evidently intends to collect them: each row once. */
  function HistoryIntended(pages: seq<seq<Exec>>): seq<Exec>
  {
    if pages == [] then [] else HistoryIntended(pages[..|pages| - 1]) + pages[|pages| - 1]
  }

  /** `n` copies of a list. */
  function Repeat(s: seq<Exec>, n: nat): seq<Exec>
  {
    if n == 0 then [] else Repeat(s, n - 1) + s
  }

  /** As written: `trade_history += result` sits inside the loop over the
      rows, so a reply of n rows is appended n times. */
  function HistoryAsWritten(pages: seq<seq<Exec>>): seq<Exec>
  {
    if pages == [] then []
    else HistoryAsWritten(pages[..|pages| - 1]) + Repeat(pages[|pages| - 1], |pages[|pages| - 1]|)
  }

  /** A single category that answers two executions: the written loop
      returns four rows (each twice), the intended one two. */
  lemma HistoryAsWrittenRepeats(a: Exec, b: Exec)
    ensures |HistoryAsWritten([[a, b]])| == 4
    ensures HistoryAsWritten([[a, b]]) == [a, b, a, b]
    ensures HistoryIntended([[a, b]]) == [a, b]
  {
    assert [[a, b]][..0] == [];
    assert Repeat([a, b], 2) == Repeat([a, b], 1) + [a, b];
    assert Repeat([a, b], 1) == [] + [a, b];
  }

  /** The intended history holds every decorated row exactly once. */
  lemma {:induction false} HistoryIntendedOnce(pages: seq<seq<Exec>>)
    ensures |HistoryIntended(pages)| == SumLengths(pages)
    ensures forall k :: 0 <= k < |pages| ==> multiset(pages[k]) <= multiset(HistoryIntended(pages))
  {
    if pages != [] {
      var init := pages[..|pages| - 1];
      HistoryIntendedOnce(init);
      forall k | 0 <= k < |pages|
        ensures multiset(pages[k]) <= multiset(HistoryIntended(pages))
      {
        if k < |pages| - 1 {
          assert pages[k] == init[k];
        }
      }
    }
  }

  function SumLengths(pages: seq<seq<Exec>>): nat
  {
    if pages == [] then 0 else SumLengths(pages[..|pages| - 1]) + |pages[|pages| - 1]|
  }

  /** One open order as the exchange sends it. `orderLinkId` is None when
      the key is absent. */
  datatype RawOrder = RawOrder(symbol: string, orderId: string, orderLinkId: Option<string>,
                               qty: real, price: real, orderType: string, orderStatus: string,
                               leavesQty: real, updatedTime: int)

  datatype Order = Order(symbol: SymKey, orderID: string, clOrdID: Option<string>, account: Json,
                         orderQty: real, price: real, settlCurrency: string, ordType: string,
                         ordStatus: string, leavesQty: real, transactTime: int)

  /** The order after `open_orders` decorated it: the client id is set only
      for a non-empty `orderLinkId`. */
  function DecorateOrder(o: RawOrder, category: string, coin: string, account: Json): (r: Order)
    ensures r.symbol == (o.symbol, category) && r.settlCurrency == coin && r.account == account
    ensures r.clOrdID.Some? <==> o.orderLinkId.Some? && o.orderLinkId.value != ""
    ensures r.clOrdID.Some? ==> r.clOrdID == o.orderLinkId
  {
    Order((o.symbol, category), o.orderId,
          if o.orderLinkId.Some? && o.orderLinkId.value != "" then o.orderLinkId else None,
          account, o.qty, o.price, coin, o.orderType, o.orderStatus, o.leavesQty, o.updatedTime)
  }

  function DecorateOrders(rows: seq<RawOrder>, category: string, coin: string, account: Json): (r: seq<Order>)
    ensures |r| == |rows|
    ensures forall k :: 0 <= k < |rows| ==> r[k] == DecorateOrder(rows[k], category, coin, account)
  {
    if rows == [] then []
    else [DecorateOrder(rows[0], category, coin, account)] + DecorateOrders(rows[1..], category, coin, account)
  }

  type OrderReplies = (string, string) -> seq<Page<RawOrder>>

  /** The open orders of one category, coin by coin. */
  function OrdersOfCategory(category: string, coins: seq<string>, replies: OrderReplies, account: Json): seq<Order>
  {
    if coins == [] then []
    else
      var coin := coins[|coins| - 1];
      OrdersOfCategory(category, coins[..|coins| - 1], replies, account)
        + DecorateOrders(Rows(Consumed(replies(category, coin))), category, coin, account)
  }

  /** `open_orders` as a value: category by category, coin by coin. */
  function AllOrders(categories: seq<string>, coins: seq<string>, replies: OrderReplies, account: Json): seq<Order>
  {
    if categories == [] then []
    else
      AllOrders(categories[..|categories| - 1], coins, replies, account)
        + OrdersOfCategory(categories[|categories| - 1], coins, replies, account)
  }

  /** Every order returned carries a queried category and a queried coin. */
  lemma {:induction false} OrdersOfCategoryShape(category: string, coins: seq<string>, replies: OrderReplies, account: Json)
    ensures forall o :: o in OrdersOfCategory(category, coins, replies, account) ==>
              o.symbol.1 == category && o.settlCurrency in coins && o.account == account
  {
    if coins != [] {
      OrdersOfCategoryShape(category, coins[..|coins| - 1], replies, account);
    }
  }

  lemma {:induction false} AllOrdersShape(categories: seq<string>, coins: seq<string>, replies: OrderReplies, account: Json)
    ensures forall o :: o in AllOrders(categories, coins, replies, account) ==>
              o.symbol.1 in categories && o.settlCurrency in coins && o.account == account
  {
    if categories != [] {
      AllOrdersShape(categories[..|categories| - 1], coins, replies, account);
      OrdersOfCategoryShape(categories[|categories| - 1], coins, replies, account);
    }
  }

  /** A request of a listing: category, coin, cursor and page size. */
  datatype Query = Query(category: string, coin: string, cursor: string, limit: int)

  /** One wallet row of the UNIFIED account. */
  datatype CoinRow = CoinRow(coin: string, walletBalance: real, unrealisedPnl: real,
                             equity: real, availableToWithdraw: real)
  datatype Account = Account(accountType: string, coins: seq<CoinRow>)

  /** A margin entry; all five figures are None in a placeholder. */
  datatype Balance = Balance(currency: string, walletBalance: Option<real>, unrealisedPnl: Option<real>,
                             marginBalance: Option<real>, availableMargin: Option<real>,
                             withdrawableMargin: Option<real>)

  function Reported(c: CoinRow): Balance
  {
    Balance(c.coin, Some(c.walletBalance), Some(c.unrealisedPnl), Some(c.equity),
            Some(c.availableToWithdraw), Some(c.availableToWithdraw))
  }

  function Placeholder(currency: string): Balance
  {
    Balance(currency, None, None, None, None, None)
  }

  /** The coins of the first UNIFIED account; later accounts are ignored. */
  function UnifiedCoins(accounts: seq<Account>): seq<CoinRow>
  {
    if accounts == [] then []
    else if accounts[0].accountType == "UNIFIED" then accounts[0].coins
    else UnifiedCoins(accounts[1..])
  }

  function WithReported(margin: map<string, Balance>, coins: seq<CoinRow>): map<string, Balance>
  {
    if coins == [] then margin
    else WithReported(margin, coins[..|coins| - 1])[coins[|coins| - 1].coin := Reported(coins[|coins| - 1])]
  }

  function WithPlaceholders(margin: map<string, Balance>, currencies: seq<string>): map<string, Balance>
  {
    if currencies == [] then margin
    else
      var m := WithPlaceholders(margin, currencies[..|currencies| - 1]);
      var c := currencies[|currencies| - 1];
      if c in m then m else m[c := Placeholder(c)]
  }

  /** Reported coins get an entry and no key is lost. */
  lemma {:induction false} WithReportedKeys(margin: map<string, Balance>, coins: seq<CoinRow>)
    ensures WithReported(margin, coins).Keys == margin.Keys + set k | 0 <= k < |coins| :: coins[k].coin
  {
    if coins != [] {
      WithReportedKeys(margin, coins[..|coins| - 1]);
    }
  }

  /** A reported coin has the figures of its last row. */
  lemma {:induction false} WithReportedLastRowWins(margin: map<string, Balance>, coins: seq<CoinRow>, k: nat)
    requires k < |coins| && forall j :: k < j < |coins| ==> coins[j].coin != coins[k].coin
    ensures coins[k].coin in WithReported(margin, coins)
    ensures WithReported(margin, coins)[coins[k].coin] == Reported(coins[k])
  {
    if k < |coins| - 1 {
      WithReportedLastRowWins(margin, coins[..|coins| - 1], k);
    }
  }

  /** An entry no row reports is kept as it was. */
  lemma {:induction false} WithReportedKeepsOthers(margin: map<string, Balance>, coins: seq<CoinRow>, c: string)
    requires c in margin && forall k :: 0 <= k < |coins| ==> coins[k].coin != c
    ensures c in WithReported(margin, coins) && WithReported(margin, coins)[c] == margin[c]
  {
    if coins != [] {
      WithReportedKeepsOthers(margin, coins[..|coins| - 1], c);
    }
  }

  /** Every configured currency gets an entry; an existing entry is kept. */
  lemma {:induction false} WithPlaceholdersFacts(margin: map<string, Balance>, currencies: seq<string>)
    ensures WithPlaceholders(margin, currencies).Keys == margin.Keys + set c | c in currencies
    ensures forall c :: c in margin ==> WithPlaceholders(margin, currencies)[c] == margin[c]
    ensures forall c :: c in currencies && c !in margin ==> WithPlaceholders(margin, currencies)[c] == Placeholder(c)
  {
    if currencies != [] {
      WithPlaceholdersFacts(margin, currencies[..|currencies| - 1]);
      assert forall c :: c in currencies ==> c in currencies[..|currencies| - 1] || c == currencies[|currencies| - 1];
    }
  }

  /** After `get_wallet_balance` every configured currency has an entry
      and nothing is removed; a currency neither held before nor reported
      has a placeholder of None figures, and a reported coin has the figures
      of its last row in the first UNIFIED account. */
  lemma WalletBalanceFacts(margin: map<string, Balance>, accounts: seq<Account>, currencies: seq<string>)
    ensures var r := WithPlaceholders(WithReported(margin, UnifiedCoins(accounts)), currencies);
            && (forall c :: c in currencies ==> c in r)
            && margin.Keys <= r.Keys
            && (forall c :: c in currencies && c !in margin && c !in ReportedNames(UnifiedCoins(accounts)) ==>
                  r[c] == Placeholder(c))
  {
    var coins := UnifiedCoins(accounts);
    WithReportedKeys(margin, coins);
    WithPlaceholdersFacts(WithReported(margin, coins), currencies);
  }

  /** The coin names of some wallet rows. */
  function ReportedNames(coins: seq<CoinRow>): set<string>
  {
    set k | 0 <= k < |coins| :: coins[k].coin
  }

  /** A coin of the first UNIFIED account keeps the figures of its last row
      through the placeholder pass. */
  lemma WalletBalanceReported(margin: map<string, Balance>, accounts: seq<Account>, currencies: seq<string>, k: nat)
    requires k < |UnifiedCoins(accounts)|
    requires forall j :: k < j < |UnifiedCoins(accounts)| ==> UnifiedCoins(accounts)[j].coin != UnifiedCoins(accounts)[k].coin
    ensures var r := WithPlaceholders(WithReported(margin, UnifiedCoins(accounts)), currencies);
            UnifiedCoins(accounts)[k].coin in r && r[UnifiedCoins(accounts)[k].coin] == Reported(UnifiedCoins(accounts)[k])
  {
    var coins := UnifiedCoins(accounts);
    WithReportedLastRowWins(margin, coins, k);
    WithPlaceholdersFacts(WithReported(margin, coins), currencies);
  }

  /** One position row as the exchange sends it. */
  datatype RawPosition = RawPosition(symbol: string, positionValue: real, avgPrice: real,
                                     unrealisedPnl: real, liqPrice: string, positionStatus: string)

  /** The POS, ENTRY, PNL, MCALL and STATE figures of a position. */
  datatype Position = Position(pos: real, entry: real, pnl: real, mcall: string, state: string)

  function PositionOf(row: RawPosition): Position
  {
    Position(row.positionValue, row.avgPrice, row.unrealisedPnl, row.liqPrice, row.positionStatus)
  }

  type PositionReplies = (string, string) -> seq<Page<RawPosition>>

  /** The rows of one reply applied in order; only known symbols change. */
  function ApplyRows(positions: map<SymKey, Position>, rows: seq<RawPosition>, category: string): map<SymKey, Position>
  {
    if rows == [] then positions
    else
      var p := ApplyRows(positions, rows[..|rows| - 1], category);
      var row := rows[|rows| - 1];
      if (row.symbol, category) in p then p[(row.symbol, category) := PositionOf(row)] else p
  }

  /** The settlement currencies of one category, each paged only when it is
      one of the configured currencies. */
  function ApplyCoins(positions: map<SymKey, Position>, category: string, coins: seq<string>,
                      currencies: seq<string>, replies: PositionReplies): map<SymKey, Position>
  {
    if coins == [] then positions
    else
      var p := ApplyCoins(positions, category, coins[..|coins| - 1], currencies, replies);
      var coin := coins[|coins| - 1];
      if coin in currencies then ApplyRows(p, Rows(Consumed(replies(category, coin))), category) else p
  }

  /** `get_position_info` as a value. */
  function ApplyCategories(positions: map<SymKey, Position>, categories: seq<string>,
                           settl: map<string, seq<string>>, currencies: seq<string>,
                           replies: PositionReplies): map<SymKey, Position>
  {
    if categories == [] then positions
    else
      var p := ApplyCategories(positions, categories[..|categories| - 1], settl, currencies, replies);
      var category := categories[|categories| - 1];
      if category in settl then ApplyCoins(p, category, settl[category], currencies, replies) else p
  }

  lemma {:induction false} ApplyRowsKeys(positions: map<SymKey, Position>, rows: seq<RawPosition>, category: string)
    ensures ApplyRows(positions, rows, category).Keys == positions.Keys
    ensures forall s :: s in positions && s.1 != category ==> ApplyRows(positions, rows, category)[s] == positions[s]
  {
    if rows != [] {
      ApplyRowsKeys(positions, rows[..|rows| - 1], category);
    }
  }

  lemma {:induction false} ApplyCoinsKeys(positions: map<SymKey, Position>, category: string, coins: seq<string>,
                                          currencies: seq<string>, replies: PositionReplies)
    ensures ApplyCoins(positions, category, coins, currencies, replies).Keys == positions.Keys
    ensures forall s :: s in positions && s.1 != category ==>
              ApplyCoins(positions, category, coins, currencies, replies)[s] == positions[s]
  {
    if coins != [] {
      var p := ApplyCoins(positions, category, coins[..|coins| - 1], currencies, replies);
      ApplyCoinsKeys(positions, category, coins[..|coins| - 1], currencies, replies);
      ApplyRowsKeys(p, Rows(Consumed(replies(category, coins[|coins| - 1]))), category);
    }
  }

  /** `get_position_info` never adds or removes a symbol, and a symbol of a
      category that is not queried keeps its figures. */
  lemma {:induction false} PositionInfoKeepsSymbols(positions: map<SymKey, Position>, categories: seq<string>,
                                                    settl: map<string, seq<string>>, currencies: seq<string>,
                                                    replies: PositionReplies)
    ensures ApplyCategories(positions, categories, settl, currencies, replies).Keys == positions.Keys
    ensures forall s :: s in positions && s.1 !in categories ==>
              ApplyCategories(positions, categories, settl, currencies, replies)[s] == positions[s]
  {
    if categories != [] {
      var init := categories[..|categories| - 1];
      var p := ApplyCategories(positions, init, settl, currencies, replies);
      PositionInfoKeepsSymbols(positions, init, settl, currencies, replies);
      var category := categories[|categories| - 1];
      if category in settl {
        ApplyCoinsKeys(p, category, settl[category], currencies, replies);
      }
      assert forall s: SymKey :: s.1 !in categories ==> s.1 !in init;
    }
  }

  /** A settlement currency that is not configured is never consulted: the
      answers for it do not matter. */
  lemma {:induction false} UnconfiguredCoinIgnored(positions: map<SymKey, Position>, category: string,
                                                   coins: seq<string>, currencies: seq<string>,
                                                   r1: PositionReplies, r2: PositionReplies)
    requires forall coin :: coin in currencies ==> r1(category, coin) == r2(category, coin)
    ensures ApplyCoins(positions, category, coins, currencies, r1) == ApplyCoins(positions, category, coins, currencies, r2)
  {
    if coins != [] {
      UnconfiguredCoinIgnored(positions, category, coins[..|coins| - 1], currencies, r1, r2);
    }
  }

  class Agent {
    const conn: Connection
    /** `category_list`, `symbol_list` and `currencies` of the configuration. */
    const categoryList: seq<string>
    const symbolList: seq<SymKey>
    const currencies: seq<string>
    var instruments: map<SymKey, Instrument>
    /** `settlCurrency_list[category]` */
    var settlCurrencyList: map<string, seq<string>>
    var settleCoinList: seq<string>
    var user: seq<Member>
    var userId: Json
    /** `data["margin"]` */
    var margin: map<string, Balance>
    var positions: map<SymKey, Position>

    /** The settlement lists are duplicate-free and every configured
        category has one. */
    predicate Valid()
      reads this
    {
      && NoDup(settleCoinList)
      && (forall c :: c in settlCurrencyList ==> NoDup(settlCurrencyList[c]))
      && (forall c :: c in categoryList ==> c in settlCurrencyList)
    }

    constructor (conn: Connection, categoryList: seq<string>, symbolList: seq<SymKey>, currencies: seq<string>)
      ensures this.conn == conn && this.categoryList == categoryList
      ensures this.symbolList == symbolList && this.currencies == currencies
      ensures instruments == map[] && settleCoinList == [] && margin == map[] && positions == map[]
      ensures settlCurrencyList == map c | c in categoryList :: []
      ensures user == [] && userId == JNull
      ensures Valid()
    {
      this.conn := conn;
      this.categoryList := categoryList;
      this.symbolList := symbolList;
      this.currencies := currencies;
      instruments := map[];
      settlCurrencyList := map c | c in categoryList :: [];
      settleCoinList := [];
      user := [];
      userId := JNull;
      margin := map[];
      positions := map[];
    }

    /** `get_user`: keeps the reply, and takes the first `uid` found in it
        as the user id when it is truthy; otherwise the market is marked
        with severity 10001. */
    method GetUser(reply: seq<Member>)
      modifies this`user, this`userId, conn`logNumFatal
      ensures user == reply
      ensures Truthy(FindValueByKey(reply, "uid")) ==>
                userId == FindValueByKey(reply, "uid") && conn.logNumFatal == old(conn.logNumFatal)
      ensures !Truthy(FindValueByKey(reply, "uid")) ==>
                userId == old(userId) && conn.logNumFatal == 10001 && IsFrozen(conn.logNumFatal)
    {
      user := reply;
      var id := FindValueByKey(reply, "uid");
      if Truthy(id) {
        userId := id;
      } else {
        conn.logNumFatal := 10001;
      }
    }

    /** `fill_instrument`: stores the record under (symbol, category) and
        records its settlement coin in both lists unless already there. A
        row without a settlement coin is stored, then raises a KeyError. */
    method FillInstrument(raw: RawInstrument, category: string) returns (ok: bool)
      requires Valid() && category in settlCurrencyList
      modifies this`instruments, this`settlCurrencyList, this`settleCoinList
      ensures Valid()
      ensures instruments == old(instruments)[(raw.symbol, category) := Record(raw, category)]
      ensures ok <==> raw.settleCoin.Some?
      ensures !ok ==> settlCurrencyList == old(settlCurrencyList) && settleCoinList == old(settleCoinList)
      ensures ok ==> settlCurrencyList == old(settlCurrencyList)[category := AddNew(old(settlCurrencyList)[category], raw.settleCoin.value)]
      ensures ok ==> settleCoinList == AddNew(old(settleCoinList), raw.settleCoin.value)
    {
      instruments := instruments[(raw.symbol, category) := Record(raw, category)];
      if raw.settleCoin.None? {
        return false;
      }
      var coin := raw.settleCoin.value;
      AddNewKeepsNoDup(settlCurrencyList[category], coin);
      AddNewKeepsNoDup(settleCoinList, coin);
      if coin !in settlCurrencyList[category] {
        settlCurrencyList := settlCurrencyList[category := settlCurrencyList[category] + [coin]];
      }
      if coin !in settleCoinList {
        settleCoinList := settleCoinList + [coin];
      }
      ok := true;
    }

    /** The inner loop of `get_active_instruments`: fills the rows listed for
        one category in order, stopping at the first row without a
        settlement coin, whose index is returned. */
    method FillCategory(category: string, rows: seq<RawInstrument>) returns (failed: Option<nat>)
      requires Valid() && category in settlCurrencyList
      modifies this`instruments, this`settlCurrencyList, this`settleCoinList
      ensures Valid()
      ensures failed.None? <==> Settled(rows)
      ensures failed.None? ==>
                && instruments == StoreRows(old(instruments), rows, category)
                && settleCoinList == AddCoins(old(settleCoinList), rows)
                && settlCurrencyList == old(settlCurrencyList)[category := AddCoins(old(settlCurrencyList)[category], rows)]
      ensures failed.Some? ==>
                && failed.value < |rows|
                && Settled(rows[..failed.value])
                && rows[failed.value].settleCoin.None?
                && instruments == StoreRows(old(instruments), rows[..failed.value + 1], category)
                && settleCoinList == AddCoins(old(settleCoinList), rows[..failed.value])
                && settlCurrencyList == old(settlCurrencyList)[category := AddCoins(old(settlCurrencyList)[category], rows[..failed.value])]
    {
      for j := 0 to |rows|
        invariant Valid() && category in settlCurrencyList
        invariant Settled(rows[..j])
        invariant instruments == StoreRows(old(instruments), rows[..j], category)
        invariant settleCoinList == AddCoins(old(settleCoinList), rows[..j])
        invariant settlCurrencyList == old(settlCurrencyList)[category := AddCoins(old(settlCurrencyList)[category], rows[..j])]
      {
        var ok := FillInstrument(rows[j], category);
        assert rows[..j + 1][..j] == rows[..j];
        if !ok {
          return Some(j);
        }
      }
      assert rows[..|rows|] == rows;
      failed := None;
    }

    /**
     * `get_active_instruments`: fills every row of every configured
     * category, then ends the process for a configured symbol the exchange
     * did not list. A row without a settlement coin raises a KeyError
     * after its record is stored.
     */
    method GetActiveInstruments(replies: string -> seq<RawInstrument>) returns (o: Discovery)
      requires Valid()
      modifies this`instruments, this`settlCurrencyList, this`settleCoinList
      ensures Valid()
      ensures o.MissingSettleCoin? <==> !AllSettled(categoryList, replies)
      ensures !o.MissingSettleCoin? ==>
                && instruments == StoreAll(old(instruments), categoryList, replies)
                && settleCoinList == CoinsAll(old(settleCoinList), categoryList, replies)
                && settlCurrencyList == SettlAll(old(settlCurrencyList), categoryList, replies)
      ensures o.MissingSettleCoin? ==>
                exists i: nat, j: nat :: StoppedAt(categoryList, replies, i, j, old(instruments), old(settleCoinList),
                                                  old(settlCurrencyList), o.key, instruments, settleCoinList,
                                                  settlCurrencyList)
      ensures o == Loaded ==> forall s :: s in symbolList ==> s in instruments
      ensures o.UnknownSymbol? ==>
                exists j :: 0 <= j < |symbolList| && symbolList[j] == o.key && o.key !in instruments
                  && forall k :: 0 <= k < j ==> symbolList[k] in instruments
    {
      for i := 0 to |categoryList|
        invariant Valid()
        invariant AllSettled(categoryList[..i], replies)
        invariant instruments == StoreAll(old(instruments), categoryList[..i], replies)
        invariant settleCoinList == CoinsAll(old(settleCoinList), categoryList[..i], replies)
        invariant settlCurrencyList == SettlAll(old(settlCurrencyList), categoryList[..i], replies)
      {
        var category := categoryList[i];
        var failed := FillCategory(category, replies(category));
        if failed.Some? {
          var j := failed.value;
          o := MissingSettleCoin((replies(category)[j].symbol, category));
          assert StoppedAt(categoryList, replies, i, j, old(instruments), old(settleCoinList),
                           old(settlCurrencyList), o.key, instruments, settleCoinList, settlCurrencyList);
          return;
        }
        DiscoveryStep(old(instruments), old(settleCoinList), old(settlCurrencyList), categoryList, replies, i);
      }
      assert categoryList[..|categoryList|] == categoryList;
      for i := 0 to |symbolList|
        invariant forall k :: 0 <= k < i ==> symbolList[k] in instruments
      {
        if symbolList[i] !in instruments {
          return UnknownSymbol(symbolList[i]);
        }
      }
      o := Loaded;
    }

    /**
     * `trading_history` with each category's reply appended once: every
     * category is asked for min(100, histCount) executions, each row is
     * decorated with its key, category, settlement currency and market, and
     * the whole list is sorted by time. An execution of an instrument that
     * is not in the table, or whose record has no settlement currency,
     * raises a KeyError (None here) after the categories asked so far.
     */
    method TradingHistory(histCount: int, executions: (string, int) -> seq<RawExec>)
      returns (queries: seq<(string, int)>, h: Option<seq<Exec>>)
      ensures |queries| <= |categoryList|
      ensures forall k :: 0 <= k < |queries| ==> queries[k] == (categoryList[k], if histCount < 100 then histCount else 100)
      ensures h.None? <==> exists k :: 0 <= k < |categoryList| &&
                             HasBadRow(instruments, executions(categoryList[k], if histCount < 100 then histCount else 100), categoryList[k])
      ensures h.None? ==>
                && 1 <= |queries|
                && HasBadRow(instruments, executions(queries[|queries| - 1].0, queries[|queries| - 1].1), queries[|queries| - 1].0)
                && forall k :: 0 <= k < |queries| - 1 ==> !HasBadRow(instruments, executions(queries[k].0, queries[k].1), queries[k].0)
      ensures h.Some? ==> |queries| == |categoryList|
      ensures h.Some? ==> exists pages: seq<seq<Exec>> ::
                && |pages| == |categoryList|
                && (forall k :: 0 <= k < |pages| ==> |pages[k]| == |executions(queries[k].0, queries[k].1)|)
                && (forall k, m :: 0 <= k < |pages| && 0 <= m < |pages[k]| ==>
                      var row := executions(queries[k].0, queries[k].1)[m];
                      && Decorable(instruments, (row.symbol, categoryList[k]))
                      && pages[k][m] == DecorateExec(row, categoryList[k], instruments[(row.symbol, categoryList[k])].settlCurrency.value, conn.name))
                && h.value == SortByTime(HistoryIntended(pages))
    {
      var limit := if histCount < 100 then histCount else 100;
      var history: seq<Exec> := [];
      ghost var pages: seq<seq<Exec>> := [];
      queries := [];
      for i := 0 to |categoryList|
        invariant |queries| == i && |pages| == i
        invariant forall k :: 0 <= k < i ==> queries[k] == (categoryList[k], limit)
        invariant forall k :: 0 <= k < i ==> !HasBadRow(instruments, executions(categoryList[k], limit), categoryList[k])
        invariant forall k :: 0 <= k < i ==> |pages[k]| == |executions(queries[k].0, queries[k].1)|
        invariant forall k, m :: 0 <= k < i && 0 <= m < |pages[k]| ==>
                    var row := executions(queries[k].0, queries[k].1)[m];
                    && Decorable(instruments, (row.symbol, categoryList[k]))
                    && pages[k][m] == DecorateExec(row, categoryList[k], instruments[(row.symbol, categoryList[k])].settlCurrency.value, conn.name)
        invariant history == HistoryIntended(pages)
      {
        var category := categoryList[i];
        queries := queries + [(category, limit)];
        var rows := executions(category, limit);
        var decorated: seq<Exec> := [];
        for j := 0 to |rows|
          invariant |decorated| == j
          invariant forall m :: 0 <= m < j ==>
                      && Decorable(instruments, (rows[m].symbol, category))
                      && decorated[m] == DecorateExec(rows[m], category, instruments[(rows[m].symbol, category)].settlCurrency.value, conn.name)
        {
          var key := (rows[j].symbol, category);
          if !Decorable(instruments, key) {
            return queries, None;
          }
          decorated := decorated + [DecorateExec(rows[j], category, instruments[key].settlCurrency.value, conn.name)];
        }
        history := history + decorated;
        pages := pages + [decorated];
        assert pages[..|pages| - 1] == pages[..i];
      }
      h := Some(SortByTime(history));
    }

    /** The `while cursor:` loop of `open_orders` for one category and one
        coin: 50 orders a page, each decorated as it arrives. */
    method ListOrders(category: string, coin: string, replies: OrderReplies)
      returns (queries: seq<Query>, orders: seq<Order>)
      requires Ends(replies(category, coin))
      ensures orders == DecorateOrders(Rows(Consumed(replies(category, coin))), category, coin, userId)
      ensures |queries| >= 1 && queries[0].cursor == FIRST_CURSOR
      ensures forall q :: q in queries ==> q.limit == 50 && q.category == category && q.coin == coin && q.cursor != ""
    {
      var rows, cursors := Paginate(replies(category, coin));
      CursorsMatchPages(FIRST_CURSOR, replies(category, coin));
      queries := seq(|cursors|, k requires 0 <= k < |cursors| => Query(category, coin, cursors[k], 50));
      orders := DecorateOrders(rows, category, coin, userId);
    }

    /** The coin loop of `open_orders` for one category. */
    method ListCategoryOrders(category: string, replies: OrderReplies) returns (queries: seq<Query>, orders: seq<Order>)
      requires forall c, s :: Ends(replies(c, s))
      ensures orders == OrdersOfCategory(category, settleCoinList, replies, userId)
      ensures forall q :: q in queries ==>
                q.limit == 50 && q.category == category && q.coin in settleCoinList && q.cursor != ""
    {
      orders := [];
      queries := [];
      for j := 0 to |settleCoinList|
        invariant orders == OrdersOfCategory(category, settleCoinList[..j], replies, userId)
        invariant forall q :: q in queries ==>
                    q.limit == 50 && q.category == category && q.coin in settleCoinList && q.cursor != ""
      {
        var qs, os := ListOrders(category, settleCoinList[j], replies);
        queries := queries + qs;
        orders := orders + os;
        assert settleCoinList[..j + 1][..j] == settleCoinList[..j];
      }
      assert settleCoinList[..|settleCoinList|] == settleCoinList;
    }

    /** `open_orders`: every category and every known settlement coin is
        paged from the cursor "no"; the orders are collected in request
        order. */
    method OpenOrders(replies: OrderReplies) returns (queries: seq<Query>, orders: seq<Order>)
      requires forall c, s :: Ends(replies(c, s))
      ensures orders == AllOrders(categoryList, settleCoinList, replies, userId)
      ensures forall q :: q in queries ==>
                q.limit == 50 && q.category in categoryList && q.coin in settleCoinList && q.cursor != ""
    {
      orders := [];
      queries := [];
      for i := 0 to |categoryList|
        invariant orders == AllOrders(categoryList[..i], settleCoinList, replies, userId)
        invariant forall q :: q in queries ==>
                    q.limit == 50 && q.category in categoryList && q.coin in settleCoinList && q.cursor != ""
      {
        var qs, os := ListCategoryOrders(categoryList[i], replies);
        queries := queries + qs;
        orders := orders + os;
        assert categoryList[..i + 1][..i] == categoryList[..i];
      }
      assert categoryList[..|categoryList|] == categoryList;
    }

    /** `get_wallet_balance`: the coins of the first UNIFIED account are
        written into the margin table, then every configured currency still
        missing gets a placeholder. The table is never cleared. */
    method GetWalletBalance(accounts: seq<Account>)
      modifies this`margin
      ensures margin == WithPlaceholders(WithReported(old(margin), UnifiedCoins(accounts)), currencies)
    {
      for i := 0 to |accounts|
        invariant UnifiedCoins(accounts) == UnifiedCoins(accounts[i..])
        invariant margin == old(margin)
      {
        assert accounts[i..][1..] == accounts[i + 1..];
        if accounts[i].accountType == "UNIFIED" {
          var coins := accounts[i].coins;
          for j := 0 to |coins|
            invariant margin == WithReported(old(margin), coins[..j])
          {
            margin := margin[coins[j].coin := Reported(coins[j])];
            assert coins[..j + 1][..j] == coins[..j];
          }
          assert coins[..|coins|] == coins;
          break;
        }
      }
      // falls through with the table unchanged when no UNIFIED account is listed
      ghost var reported := margin;
      for i := 0 to |currencies|
        invariant margin == WithPlaceholders(reported, currencies[..i])
      {
        var currency := currencies[i];
        if currency !in margin {
          margin := margin[currency := Placeholder(currency)];
        }
        assert currencies[..i + 1][..i] == currencies[..i];
      }
      assert currencies[..|currencies|] == currencies;
    }

    /** The row loop of `get_position_info`: each row of a page overwrites
        the position of a symbol already in the table, and other rows are
        ignored. */
    method UpdatePositions(rows: seq<RawPosition>, category: string)
      modifies this`positions
      ensures positions == ApplyRows(old(positions), rows, category)
    {
      for m := 0 to |rows|
        invariant positions == ApplyRows(old(positions), rows[..m], category)
      {
        var key := (rows[m].symbol, category);
        if key in positions {
          positions := positions[key := PositionOf(rows[m])];
        }
        assert rows[..m + 1][..m] == rows[..m];
      }
      assert rows[..|rows|] == rows;
    }

    /** `get_position_info`: for every configured category, every settlement
        currency of it that is also configured is paged from "no" with 200
        rows a page, and each row overwrites the figures of a symbol already
        in the table. */
    method GetPositionInfo(replies: PositionReplies) returns (queries: seq<Query>)
      requires Valid()
      requires forall c, s :: Ends(replies(c, s))
      modifies this`positions
      ensures positions == ApplyCategories(old(positions), categoryList, settlCurrencyList, currencies, replies)
      ensures positions.Keys == old(positions).Keys
      ensures forall q :: q in queries ==>
                q.limit == 200 && q.category in categoryList && q.coin in currencies && q.cursor != ""
    {
      queries := [];
      for i := 0 to |categoryList|
        invariant positions == ApplyCategories(old(positions), categoryList[..i], settlCurrencyList, currencies, replies)
        invariant forall q :: q in queries ==>
                    q.limit == 200 && q.category in categoryList && q.coin in currencies && q.cursor != ""
      {
        var category := categoryList[i];
        var coins := settlCurrencyList[category];
        ghost var before := positions;
        for j := 0 to |coins|
          invariant positions == ApplyCoins(before, category, coins[..j], currencies, replies)
          invariant forall q :: q in queries ==>
                      q.limit == 200 && q.category in categoryList && q.coin in currencies && q.cursor != ""
        {
          var coin := coins[j];
          assert coins[..j + 1][..j] == coins[..j];
          if coin in currencies {
            var rows, cursors := Paginate(replies(category, coin));
            CursorsMatchPages(FIRST_CURSOR, replies(category, coin));
            queries := queries + seq(|cursors|, k requires 0 <= k < |cursors| => Query(category, coin, cursors[k], 200));
            UpdatePositions(rows, category);
          }
        }
        assert coins[..|coins|] == coins;
        assert categoryList[..i + 1][..i] == categoryList[..i];
      }
      assert categoryList[..|categoryList|] == categoryList;
      PositionInfoKeepsSymbols(old(positions), categoryList, settlCurrencyList, currencies, replies);
    }
  }
}
