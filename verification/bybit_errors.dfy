/**
 * The Bybit fault classifier: the `exception` decorator that wraps every
 * Bybit adapter call, turns a raised exception (its class name and, for
 * `InvalidRequestError`, its `status_code`) into an update of the market's
 * severity, and queues exactly one warning notice per fault.
 */
module BybitErrors {
  import opened Common
  import opened Market

  /** A raised exception as the decorator sees it. */
  datatype Fault = Fault(name: string, statusCode: int, text: string)

  /** What one classification does to the severity. `Escapes` is a new
      exception raised inside the handler itself, which leaves the decorator. */
  datatype Effect = SetTo(level: int) | Leave | Escapes

  /** The `InvalidRequestError` branch exactly as written, arm by arm in
      source order (the first arm that lists the code wins). A code that no
      arm lists reaches `status_code in 40004`, which raises a TypeError for
      an int, so the `else` that would set 1001 is never reached. */
  function InvalidRequestAsWritten(code: int): (e: Effect)
  {
    // server timeout or error
    if code == 10000 || code == 10002 || code == 10016 then SetTo(1001)
    // request parameter error
    else if code == 10001 then Leave
    // bad signature or invalid symbol
    else if code == 10003 || code == 10004 || code == 10005 || code == 10006 || code == 10007 ||
            code == 10008 || code == 10009 || code == 10010 || code == 10028 || code == 10029 ||
            code == 100028 || code == 110018 then SetTo(2001)
    // insufficient balance or margin
    else if code == 110004 || code == 110006 || code == 110007 || code == 110012 ||
            code == 110014 || code == 110015 || code == 110045 || code == 110047 ||
            code == 110052 || code == 170033 || code == 170131 || code == 175003 ||
            code == 175006 || code == 176015 || code == 110013 || code == 110021 then SetTo(2)
    // category not supported
    else if code == 181001 then SetTo(3)
    // quantity out of bounds
    else if code == 170135 || code == 170136 || code == 170140 then Leave
    // order amount too large (170135 never reached: see the previous arm)
    else if code == 170124 || code == 170135 || code == 170197 || code == 170198 ||
            code == 170199 || code == 170200 then Leave
    // trigger price
    else if code == 170203 || code == 170204 then Leave
    // stop-limit on newly launched pairs
    else if code == 170206 then Leave
    // price below minimum
    else if code == 170133 then Leave
    // decimal too long
    else if code == 170134 || code == 170137 || code == 170148 then Leave
    // contracts over the limit (never reached: see the second arm)
    else if code == 10001 then Leave
    // buy price too high
    else if code == 170132 || code == 170192 || code == 170193 then Leave
    // price too low
    else if code == 170194 then Leave
    // risk control
    else if code == 170195 || code == 170196 then Leave
    // below minimum order value
    else if code == 110094 then Leave
    // price out of range
    else if code == 110003 then Leave
    // order does not exist
    else if code == 110001 || code == 110008 || code == 110010 || code == 170139 ||
            code == 170142 || code == 170213 then Leave
    // too many stop orders
    else if code == 110009 || code == 170341 then Leave
    // too many active orders
    else if code == 110020 then Leave
    // quantity restricted
    else if code == 110022 then Leave
    // reduce-only contract
    else if code == 110023 then Leave
    // position mode error (110023 never reached)
    else if code == 110023 || code == 110024 then Leave
    // duplicate client order id
    else if code == 110072 || code == 170141 then Leave
    // not on the order book
    else if code == 170143 then Leave
    // new order rejected
    else if code == 170210 then Leave
    // `status_code in 40004` raises a TypeError for an int code
    else Escapes
  }

  /** The codes that report insufficient available balance or margin. */
  const InsufficientFunds: set<int> := {110004, 110006, 110007, 110012, 110014, 110015, 110045, 110047,
                                        110052, 170033, 170131, 175003, 175006, 176015, 110013, 110021}

  /** The business-rule codes that the table deliberately ignores. */
  const IgnoredCodes: set<int> := {10001, 170135, 170136, 170140, 170124, 170197, 170198, 170199, 170200,
                                   170203, 170204, 170206, 170133, 170134, 170137, 170148, 170132,
                                   170192, 170193, 170194, 170195, 170196, 110094, 110003, 110001,
                                   110008, 110010, 170139, 170142, 170213, 110009, 170341, 110020,
                                   110022, 110023, 110024, 110072, 170141, 170143, 170210}

  /** The `InvalidRequestError` branch as evidently intended: 40004 is
      ignored and every other unlisted code asks for a reconnect. */
  function InvalidRequest(code: int): (e: Effect)
    ensures !e.Escapes?
  {
    match InvalidRequestAsWritten(code)
    case Escapes => if code == 40004 then Leave else SetTo(1001)
    case other => other
  }

  /** Where the written table decides, the intended one agrees with it; it
      escapes exactly on the codes the table does not list. */
  lemma InvalidRequestAgreesWhereDecided(code: int)
    ensures !InvalidRequestAsWritten(code).Escapes? ==> InvalidRequest(code) == InvalidRequestAsWritten(code)
    ensures InvalidRequestAsWritten(code).Escapes? <==>
              code !in [10000, 10002, 10016, 10003, 10004, 10005, 10006, 10007, 10008, 10009, 10010,
                        10028, 10029, 100028, 110018, 181001] && code !in InsufficientFunds && code !in IgnoredCodes
  {
  }

  /** A concrete input that shows the discrepancy: code 40004 itself, which
      the last arm was written for, and an unlisted code such as 12345 both
      make the handler raise instead of being classified. */
  lemma InvalidRequestAsWrittenEscapes()
    ensures InvalidRequestAsWritten(40004) == Escapes
    ensures InvalidRequestAsWritten(12345) == Escapes
    ensures InvalidRequest(40004) == Leave
    ensures InvalidRequest(12345) == SetTo(1001)
  {
  }

  /** The whole decision table over the exception's class name. */
  function Classify(f: Fault): (e: Effect)
    ensures !e.Escapes?
  {
    if f.name in ["ConnectionError", "SSLError", "ReadTimeout", "FailedRequestError"] then SetTo(1001)
    else if f.name == "InvalidRequestError" then InvalidRequest(f.statusCode)
    else if f.name == "InvalidChannelTypeError" then SetTo(2002)
    else if f.name in ["UnauthorizedExceptionError", "TopicMismatchError", "WebSocketTimeoutException"] then SetTo(1001)
    else Leave
  }

  /** The severity after an effect. */
  function Apply(e: Effect, level: int): int
  {
    match e
    case SetTo(n) => n
    case Leave => level
    case Escapes => level
  }

  /** The decision by exception name: transport and websocket faults ask
      for a reconnect whatever their status code, a wrong channel type
      freezes the market, and a name the table does not know leaves the
      severity as it was. */
  lemma ClassifyByName(f: Fault, level: int)
    ensures f.name in ["ConnectionError", "SSLError", "ReadTimeout", "FailedRequestError",
                       "UnauthorizedExceptionError", "TopicMismatchError", "WebSocketTimeoutException"] ==>
              Apply(Classify(f), level) == 1001 && NeedsReconnect(Apply(Classify(f), level))
    ensures f.name == "InvalidChannelTypeError" ==>
              Apply(Classify(f), level) == 2002 && IsFrozen(Apply(Classify(f), level))
    ensures f.name !in ["ConnectionError", "SSLError", "ReadTimeout", "FailedRequestError",
                        "InvalidRequestError", "InvalidChannelTypeError",
                        "UnauthorizedExceptionError", "TopicMismatchError", "WebSocketTimeoutException"] ==>
              Apply(Classify(f), level) == level
  {
  }

  /** The transport bands of `InvalidRequestError`: server faults ask for
      a reconnect, bad credentials or symbols freeze the market. */
  lemma InvalidRequestBands(code: int, level: int)
    ensures code in [10000, 10002, 10016] ==> Apply(InvalidRequest(code), level) == 1001
    ensures code in [10003, 10004, 10005, 10006, 10007, 10008, 10009, 10010, 10028, 10029, 100028, 110018] ==>
              Apply(InvalidRequest(code), level) == 2001
  {
  }

  /** The business bands of `InvalidRequestError`: insufficient funds (2)
      and an unsupported category (3). */
  lemma InvalidRequestBusinessBands(code: int, level: int)
    ensures code in InsufficientFunds ==> Apply(InvalidRequest(code), level) == 2
    ensures code == 181001 ==> Apply(InvalidRequest(code), level) == 3
  {
  }

  /** Every ignored business-rule code leaves the severity as it was. */
  lemma IgnoredCodesLeaveSeverity(code: int, level: int)
    requires code in IgnoredCodes
    ensures InvalidRequest(code) == Leave
    ensures Apply(InvalidRequest(code), level) == level
  {
    if code < 170000 {
      IgnoredGeneralCodes(code);
    } else {
      IgnoredOrderCodes(code);
    }
  }

  /** The ignored codes below 170000 (request and order-state codes). */
  lemma IgnoredGeneralCodes(code: int)
    requires code in IgnoredCodes && code < 170000
    ensures InvalidRequestAsWritten(code) == Leave
  {
    // the table evaluated at each listed code
    match code
    case 10001 =>
    case 110094 =>
    case 110003 =>
    case 110001 =>
    case 110008 =>
    case 110010 =>
    case 110009 =>
    case 110020 =>
    case 110022 =>
    case 110023 =>
    case 110024 =>
    case 110072 =>
    case _ => assert false;
  }

  /** The ignored codes from 170000 on (spot order-rule codes). */
  lemma IgnoredOrderCodes(code: int)
    requires code in IgnoredCodes && code >= 170000
    ensures InvalidRequestAsWritten(code) == Leave
  {
    // the table evaluated at each listed code
    match code
    case 170135 =>
    case 170136 =>
    case 170140 =>
    case 170124 =>
    case 170197 =>
    case 170198 =>
    case 170199 =>
    case 170200 =>
    case 170203 =>
    case 170204 =>
    case 170206 =>
    case 170133 =>
    case 170134 =>
    case 170137 =>
    case 170148 =>
    case 170132 =>
    case 170192 =>
    case 170193 =>
    case 170194 =>
    case 170195 =>
    case 170196 =>
    case 170139 =>
    case 170142 =>
    case 170213 =>
    case 170341 =>
    case 170141 =>
    case 170143 =>
    case 170210 =>
    case _ => assert false;
  }

  /** Python's `message.replace("\n", " ")`. */
  function OneLine(s: string): (r: string)
  {
    if s == [] then [] else [if s[0] == '\n' then ' ' else s[0]] + OneLine(s[1..])
  }

  /** The notice text keeps its length and holds no newline; every other
      character is kept in place. */
  lemma {:induction false} OneLineFlattens(s: string)
    ensures |OneLine(s)| == |s|
    ensures forall i :: 0 <= i < |s| ==> OneLine(s)[i] == (if s[i] == '\n' then ' ' else s[i])
    ensures '\n' !in OneLine(s)
  {
    if s != [] {
      OneLineFlattens(s[1..]);
    }
  }

  /** The outcome of the wrapped call. */
  datatype CallOutcome<T> = Returned(value: T) | Raised(fault: Fault)

  /** `name + " - " + str(exception)` */
  function FaultMessage(f: Fault): string
  {
    f.name + " - " + f.text
  }

  /**
   * The decorator around one adapter call. On success a negative severity
   * becomes 0 (a positive one, fatal included, is kept) and the call's value
   * is returned. On a fault the table decides the new severity, exactly one
   * warning notice is queued for this market, nothing is re-raised and the
   * wrapper returns None.
   */
  method Guard<T>(conn: Connection, queue: NoticeQueue, call: CallOutcome<T>) returns (r: Option<T>)
    modifies conn`logNumFatal, queue
    ensures call.Returned? ==> r == Some(call.value) && queue.items == old(queue.items)
    ensures call.Returned? ==> conn.logNumFatal == (if old(conn.logNumFatal) < 0 then 0 else old(conn.logNumFatal))
    ensures call.Raised? ==> r == None
    ensures call.Raised? ==> conn.logNumFatal == Apply(Classify(call.fault), old(conn.logNumFatal))
    ensures call.Raised? ==>
              queue.items == old(queue.items) + [Notice(conn.name, OneLine(FaultMessage(call.fault)), Some(true))]
  {
    match call
    case Returned(v) =>
      if conn.logNumFatal < 0 {
        conn.logNumFatal := 0;
      }
      r := Some(v);
    case Raised(f) =>
      var message := FaultMessage(f);
      conn.logNumFatal := Apply(Classify(f), conn.logNumFatal);
      if message != "" {
        queue.Put(Notice(conn.name, OneLine(message), Some(true)));
      }
      r := None;
  }
}
