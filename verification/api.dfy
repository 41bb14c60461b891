/**
 * The exchange registry (`MetaMarket.__getitem__`) and the bootstrap of one
 * market (`WS.start_ws`): an ordered sequence of steps with early returns,
 * then three loaders fanned out and joined, whose results are reduced to
 * the first error. The loaders' threads are modelled as already joined.
 */
module Api {
  import opened Common
  import opened Market

  datatype Kind = BitmexKind | BybitKind | DeribitKind | FakeKind

  /** The class `names` maps a market name to, or the Fake market. */
  function KindOf(item: string): (k: Option<Kind>)
    ensures k.Some? <==> item in {"Bitmex", "Bybit", "Deribit", "Fake"}
  {
    if item == "Bitmex" then Some(BitmexKind)
    else if item == "Bybit" then Some(BybitKind)
    else if item == "Deribit" then Some(DeribitKind)
    else if item == "Fake" then Some(FakeKind)
    else None
  }

  /** A market instance. */
  class Exchange {
    const name: string
    const kind: Kind

    constructor (name: string, kind: Kind)
      ensures this.name == name && this.kind == kind
    {
      this.name := name;
      this.kind := kind;
    }
  }

  /** The class-level cache of market instances. */
  class MetaMarket {
    var dictionary: map<string, Exchange>

    constructor ()
      ensures dictionary == map[]
    {
      dictionary := map[];
    }

    /**
     * `Markets[item]`: a cached instance is returned as it is; otherwise a
     * known name gets a new instance, which is cached. An unknown name
     * raises a KeyError (None here), which the `except ValueError` does not
     * catch, and the cache is unchanged.
     */
    method Get(item: string) returns (r: Option<Exchange>)
      modifies this
      ensures item in old(dictionary) ==> r == Some(old(dictionary)[item]) && dictionary == old(dictionary)
      ensures item !in old(dictionary) && KindOf(item).Some? ==>
                && r.Some? && fresh(r.value) && r.value.kind == KindOf(item).value
                && dictionary == old(dictionary)[item := r.value]
      ensures item !in old(dictionary) && KindOf(item).None? ==> r.None? && dictionary == old(dictionary)
    {
      if item !in dictionary {
        if item != "Fake" {
          var kind := KindOf(item);
          if kind.None? {
            return None;
          }
          var e := new Exchange(item, kind.value);
          dictionary := dictionary[item := e];
        } else {
          var e := new Exchange(item, FakeKind);
          dictionary := dictionary[item := e];
        }
        r := Some(dictionary[item]);
      } else {
        r := Some(dictionary[item]);
      }
    }
  }

  /** Two lookups of the same name give the same answer: the first one
      creates and caches the instance, the second finds it. */
  method LookupTwice(registry: MetaMarket, item: string) returns (first: Option<Exchange>, second: Option<Exchange>)
    modifies registry
    ensures first == second
    ensures first.Some? <==> item in old(registry.dictionary) || KindOf(item).Some?
    ensures item in old(registry.dictionary) ==> first == Some(old(registry.dictionary)[item])
  {
    first := registry.Get(item);
    second := registry.Get(item);
  }

  /** What a step of `start_ws` did: returned a value (its truthiness is
      what counts: "" stands for any falsy value) or raised. */
  datatype Outcome = Returned(value: string) | Raised

  /** A step before the fan-out: what it did, and the severity it left on
      the market (the error decorator around it may have changed it). */
  datatype Step = Step(outcome: Outcome, severity: int)

  /** The three fanned-out loaders after the join, and the severity they
      leave behind on the market. */
  datatype Joined = Joined(user: Outcome, walletBalance: Outcome, positionInfo: Outcome, severity: int)

  /** What `start_ws` returns: an error value, the severity, or "" after a
      successful connection. `Crashed` is an exception raised inside one of
      its own handlers, which leaves `start_ws`. */
  datatype Start = Failed(error: string) | Severity(level: int) | Connected | Crashed(reason: string)

  /** The steps before the fan-out exactly as written. The first handler
      calls `logger.error()` without a message, the second names an
      `exception` that is not bound, the third returns a `message` that is
      not bound; each of these raises inside the handler. The third handler
      reads the severity the orders step left. */
  function PreludeAsWritten(name: string, instruments: Step, funding: Step, orders: Step): Option<Start>
  {
    match instruments.outcome
    case Raised => Some(Crashed("TypeError: error() missing 'msg'"))
    case Returned(v) =>
      if v != "" then Some(Failed(v))
      else if funding.outcome.Raised? then Some(Crashed("UnboundLocalError: exception"))
      else
        match orders.outcome
        case Raised =>
          if orders.severity != 0 then Some(Severity(orders.severity)) else Some(Crashed("UnboundLocalError: message"))
        case Returned(w) => if w != "" then Some(Failed(w)) else None
  }

  /** The same steps as evidently intended: each handler logs and returns
      the severity its step left when that is nonzero, or its own message. */
  function Prelude(name: string, instruments: Step, funding: Step, orders: Step): (r: Option<Start>)
    ensures r.Some? ==> !r.value.Crashed? && !r.value.Connected?
    ensures r.Some? && r.value.Severity? ==> r.value.level != 0
    ensures r.None? <==> instruments.outcome == Returned("") && funding.outcome.Returned? &&
                         orders.outcome == Returned("")
  {
    match instruments.outcome
    case Raised =>
      if instruments.severity != 0 then Some(Severity(instruments.severity))
      else Some(Failed(name + " Instruments not loaded."))
    case Returned(v) =>
      if v != "" then Some(Failed(v))
      else if funding.outcome.Raised? then Some(Failed(name + " Error calling activate_funding_thread()."))
      else
        match orders.outcome
        case Raised =>
          if orders.severity != 0 then Some(Severity(orders.severity))
          else Some(Failed(name + " Orders not loaded. Reboot."))
        case Returned(w) => if w != "" then Some(Failed(w)) else None
  }

  /** The written and the intended prelude agree whenever no step raises or
      a raising `open_orders` left a nonzero severity; a raising
      `get_active_instruments` or funding step always crashes as written. */
  lemma PreludeAgreesUnlessHandlerRuns(name: string, instruments: Step, funding: Step, orders: Step)
    ensures !instruments.outcome.Raised? && !funding.outcome.Raised? && !orders.outcome.Raised? ==>
              PreludeAsWritten(name, instruments, funding, orders) == Prelude(name, instruments, funding, orders)
    ensures instruments.outcome.Raised? ==> PreludeAsWritten(name, instruments, funding, orders).value.Crashed?
    ensures instruments.outcome == Returned("") && funding.outcome.Raised? ==>
              PreludeAsWritten(name, instruments, funding, orders).value.Crashed?
    ensures instruments.outcome == Returned("") && funding.outcome.Returned? && orders.outcome.Raised? ==>
              (PreludeAsWritten(name, instruments, funding, orders).value.Crashed? <==> orders.severity == 0)
  {
  }

  /** Concrete inputs: instrument loading raises on a market whose severity
      is 0. As written the handler itself raises; as intended `start_ws`
      reports that the instruments were not loaded. */
  lemma PreludeAsWrittenCrashes()
    ensures PreludeAsWritten("Bybit", Step(Raised, 0), Step(Returned(""), 0), Step(Returned(""), 0)).value.Crashed?
    ensures Prelude("Bybit", Step(Raised, 0), Step(Returned(""), 0), Step(Returned(""), 0))
              == Some(Failed("Bybit Instruments not loaded."))
  {
    assert "Bybit" + " Instruments not loaded." == "Bybit Instruments not loaded.";
  }

  /** Concrete inputs: a market entered at -1 whose instruments load (the
      decorator clears the -1 to 0) and whose `open_orders` then raises. As
      written the handler raises on the unbound `message`; as intended the
      orders are reported not loaded. */
  lemma PreludeAsWrittenCrashesOnOrders()
    ensures PreludeAsWritten("Bybit", Step(Returned(""), 0), Step(Returned(""), 0), Step(Raised, 0))
              == Some(Crashed("UnboundLocalError: message"))
    ensures Prelude("Bybit", Step(Returned(""), 0), Step(Returned(""), 0), Step(Raised, 0))
              == Some(Failed("Bybit Orders not loaded. Reboot."))
  {
    assert "Bybit" + " Orders not loaded. Reboot." == "Bybit Orders not loaded. Reboot.";
  }

  /** What a loader hands `start_ws` when it returns a collection of `n`
      items: only its truthiness counts, so an empty one stands as "" and
      any other as a non-empty stand-in for its text. */
  function ListReturned(n: nat): (o: Outcome)
    ensures o.Returned? && (o.value == "" <==> n == 0)
  {
    if n == 0 then Returned("") else Returned("[...]")
  }

  /** The adapters return what they loaded instead of "": Bybit's
      `get_active_instruments` its instrument table (BitMEX's returns
      None), and both `open_orders` the orders they hold. With either
      handler set, `start_ws` takes any non-empty one for an error, so a
      market reaches the fan-out only when it loaded no instrument and
      holds no open order. */
  lemma AdapterListsStopBootstrap(name: string, instruments: nat, orders: nat, s1: int, s2: int, s3: int)
    ensures var i, f, o := Step(ListReturned(instruments), s1), Step(Returned(""), s2), Step(ListReturned(orders), s3);
            && PreludeAsWritten(name, i, f, o) == Prelude(name, i, f, o)
            && (Prelude(name, i, f, o).None? <==> instruments == 0 && orders == 0)
            && (instruments > 0 ==> Prelude(name, i, f, o) == Some(Failed(ListReturned(instruments).value)))
            && (instruments == 0 && orders > 0 ==> Prelude(name, i, f, o) == Some(Failed(ListReturned(orders).value)))
  {
  }

  /** The entry `get_in_thread` leaves in the pre-seeded `success` dict. */
  function Entry(o: Outcome): (e: string)
    ensures o.Raised? ==> e == "FATAL"
    ensures o.Returned? ==> e == o.value
  {
    match o
    case Raised => "FATAL"
    case Returned(v) => v
  }

  /** The `success` dict in insertion order. */
  function Entries(j: Joined): seq<(string, string)>
  {
    [("get_user", Entry(j.user)), ("get_wallet_balance", Entry(j.walletBalance)),
     ("get_position_info", Entry(j.positionInfo))]
  }

  /** The index of the first non-empty entry, or the length when there is
      none. */
  method FirstError(entries: seq<(string, string)>) returns (k: nat)
    ensures k <= |entries|
    ensures forall j :: 0 <= j < k ==> entries[j].1 == ""
    ensures k < |entries| ==> entries[k].1 != ""
  {
    k := 0;
    while k < |entries| && entries[k].1 == ""
      invariant k <= |entries|
      invariant forall j :: 0 <= j < k ==> entries[j].1 == ""
    {
      k := k + 1;
    }
  }

  /** The severity the market holds after the steps before the fan-out:
      the one left by the last step that ran. */
  function PreludeSeverity(instruments: Step, funding: Step, orders: Step): int
  {
    if instruments.outcome != Returned("") then instruments.severity
    else if funding.outcome.Raised? then funding.severity
    else orders.severity
  }

  /**
   * `start_ws` with the intended handlers. Each step leaves its severity on
   * the market, and a handler reads the severity as it is after its step.
   * An error from the steps before the fan-out is returned at once and
   * nothing is queued. Otherwise the fan-out's first error in the order
   * get_user, get_wallet_balance, get_position_info is returned ("FATAL"
   * for a loader that raised); with no error a nonzero severity is returned
   * as it is, and a healthy market queues "Connected to websocket." and
   * returns "".
   */
  method StartWs(conn: Connection, queue: NoticeQueue, instruments: Step, funding: Step,
                 orders: Step, joined: Joined) returns (r: Start)
    modifies conn`logNumFatal, queue
    ensures var early := Prelude(conn.name, instruments, funding, orders);
            early.Some? ==> && r == early.value
                            && conn.logNumFatal == PreludeSeverity(instruments, funding, orders)
                            && queue.items == old(queue.items)
    ensures Prelude(conn.name, instruments, funding, orders).None? ==>
              conn.logNumFatal == joined.severity
    ensures Prelude(conn.name, instruments, funding, orders).None? ==>
              && (r.Failed? <==> exists j :: 0 <= j < 3 && Entries(joined)[j].1 != "")
              && (r.Failed? ==> exists j :: 0 <= j < 3 && r.error == Entries(joined)[j].1 != "" &&
                                  forall i :: 0 <= i < j ==> Entries(joined)[i].1 == "")
              && (!r.Failed? && joined.severity != 0 <==> r == Severity(joined.severity))
              && (r == Connected <==> !r.Failed? && joined.severity == 0)
              && (r == Connected ==> queue.items == old(queue.items) + [Notice(conn.name, "Connected to websocket.", None)])
              && (r != Connected ==> queue.items == old(queue.items))
  {
    // get_active_instruments
    conn.logNumFatal := instruments.severity;
    match instruments.outcome {
      case Raised =>
        if conn.logNumFatal != 0 {
          return Severity(conn.logNumFatal);
        }
        return Failed(conn.name + " Instruments not loaded.");
      case Returned(v) =>
        if v != "" {
          return Failed(v);
        }
    }
    // activate_funding_thread
    conn.logNumFatal := funding.severity;
    if funding.outcome.Raised? {
      return Failed(conn.name + " Error calling activate_funding_thread().");
    }
    // open_orders
    conn.logNumFatal := orders.severity;
    match orders.outcome {
      case Raised =>
        if conn.logNumFatal != 0 {
          return Severity(conn.logNumFatal);
        }
        return Failed(conn.name + " Orders not loaded. Reboot.");
      case Returned(w) =>
        if w != "" {
          return Failed(w);
        }
    }
    // the fan-out, joined
    conn.logNumFatal := joined.severity;
    var entries := Entries(joined);
    var k := FirstError(entries);
    if k < |entries| {
      return Failed(entries[k].1);
    }
    if conn.logNumFatal != 0 {
      return Severity(conn.logNumFatal);
    }
    queue.Put(Notice(conn.name, "Connected to websocket.", None));
    r := Connected;
  }
}
