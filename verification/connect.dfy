/**
 * The lifecycle controller of one market: the per-tick decision on the
 * severity (`refresh`), the reconnect loop (`setup_market`) and the F9
 * trading switch (`trade_state`). Sleeping, logging, database loading and
 * robot initialisation are not modelled; each reconnect attempt is given
 * as the outcome it produced.
 */
module Connect {
  import opened Common
  import opened Market

  /** The display state this controller writes: the F9 switch, the
      display's own stop message, and the messages shown so far. */
  class Display {
    var f9: string
    var messageStopped: string
    var shown: seq<(string, string)>

    constructor (f9: string)
      ensures this.f9 == f9 && messageStopped == "" && shown == []
    {
      this.f9 := f9;
      messageStopped := "";
      shown := [];
    }

    /** `info_display(name, message)` */
    method Show(name: string, message: string)
      modifies this`shown
      ensures shown == old(shown) + [(name, message)]
    {
      shown := shown + [(name, message)];
    }
  }

  /** The outcome of one pass of the reconnect loop: the severity left by
      start_ws and the three loaders, whether robots were loaded, whether
      their timeframes were loaded, the ticker then read, and the severity
      left by the loading that follows (trading history, balances, orders
      and the ticker go through the adapters, whose error handling may set
      it). */
  datatype Attempt = Attempt(severity: int, robotsLoaded: bool, timeframesLoaded: bool, ticker: int, afterLoad: int)

  /** The attempt runs the full post-connect loading, which reads the
      ticker. */
  predicate Loads(a: Attempt)
  {
    a.severity == 0 && a.robotsLoaded && a.timeframesLoaded
  }

  /** The attempt leaves the market healthy and the loop ends: the loaders
      left 0, and either no robots were loaded or the loading after them
      left 0 too. */
  predicate Succeeds(a: Attempt)
  {
    a.severity == 0 && (!a.robotsLoaded || (a.timeframesLoaded && a.afterLoad == 0))
  }

  /** The attempt leaves a fatal severity and `close()` ends the process. */
  predicate Closes(a: Attempt)
  {
    a.severity > 2000
  }

  /** How `setup_market` ends: live after `n` attempts, closed by the n-th
      attempt, or still retrying when the attempts given run out. */
  datatype Setup = Live(n: nat) | Closed(n: nat) | Pending

  /** The reconnect loop over a script of attempts. */
  function SetupRun(attempts: seq<Attempt>): (r: Setup)
    ensures r.Live? || r.Closed? ==> 1 <= r.n <= |attempts|
  {
    if attempts == [] then Pending
    else if Succeeds(attempts[0]) then Live(1)
    else if Closes(attempts[0]) then Closed(1)
    else
      match SetupRun(attempts[1..])
      case Live(n) => Live(n + 1)
      case Closed(n) => Closed(n + 1)
      case Pending => Pending
  }

  /** The loop ends live exactly at the first attempt that succeeds, and
      closed exactly at the first that is fatal, whichever comes first; it
      keeps retrying while neither has happened. */
  lemma {:induction false} SetupRunFirstDecisive(attempts: seq<Attempt>)
    ensures SetupRun(attempts).Live? ==>
              && 1 <= SetupRun(attempts).n <= |attempts|
              && Succeeds(attempts[SetupRun(attempts).n - 1])
              && forall j :: 0 <= j < SetupRun(attempts).n - 1 ==> !Succeeds(attempts[j]) && !Closes(attempts[j])
    ensures SetupRun(attempts).Closed? ==>
              && 1 <= SetupRun(attempts).n <= |attempts|
              && Closes(attempts[SetupRun(attempts).n - 1]) && !Succeeds(attempts[SetupRun(attempts).n - 1])
              && forall j :: 0 <= j < SetupRun(attempts).n - 1 ==> !Succeeds(attempts[j]) && !Closes(attempts[j])
    ensures SetupRun(attempts).Pending? <==> forall j :: 0 <= j < |attempts| ==> !Succeeds(attempts[j]) && !Closes(attempts[j])
  {
    if attempts != [] && !Succeeds(attempts[0]) && !Closes(attempts[0]) {
      SetupRunFirstDecisive(attempts[1..]);
      assert forall j :: 1 <= j < |attempts| ==> attempts[j] == attempts[1..][j - 1];
    }
  }

  /**
   * `setup_market`: starts from severity -1 with the API inactive and
   * retries while the severity is nonzero. A fatal severity closes the
   * terminal; a timeframe failure resets the severity to -1 and retries;
   * the loading after loaded timeframes reads the ticker and leaves its
   * own severity, on which the loop retries again without closing the
   * connection. Only a live market is marked active; the ticker is the one
   * read by the last attempt that ran the full loading.
   */
  method SetupMarket(ws: Connection, attempts: seq<Attempt>) returns (o: Setup)
    modifies ws`logNumFatal, ws`apiIsActive, ws`ticker
    ensures o == SetupRun(attempts)
    ensures ws.apiIsActive <==> o.Live?
    ensures o.Live? ==> ws.logNumFatal == 0 && 1 <= o.n <= |attempts|
    ensures o.Closed? ==> IsFrozen(ws.logNumFatal)
    ensures o.Pending? ==> ws.logNumFatal != 0
    ensures ws.ticker == TickerAfter(attempts[..Ran(o, |attempts|)], old(ws.ticker))
    ensures o.Live? && attempts[o.n - 1].robotsLoaded ==> ws.ticker == attempts[o.n - 1].ticker
  {
    ws.logNumFatal := NOT_CONNECTED;
    ws.apiIsActive := false;
    var i := 0;
    while ws.logNumFatal != 0
      invariant 0 <= i <= |attempts|
      invariant ws.logNumFatal != 0 ==> SetupRun(attempts) == Shift(SetupRun(attempts[i..]), i)
      invariant ws.logNumFatal == 0 ==> 1 <= i && SetupRun(attempts) == Live(i) && Succeeds(attempts[i - 1])
      invariant ws.ticker == TickerAfter(attempts[..i], old(ws.ticker))
      invariant !ws.apiIsActive
      decreases |attempts| - i, if ws.logNumFatal == 0 then 0 else 1
    {
      if i == |attempts| {
        return Pending;
      }
      var a := attempts[i];
      assert attempts[i..][1..] == attempts[i + 1..];
      assert attempts[..i + 1][..i] == attempts[..i];
      i := i + 1;
      ws.logNumFatal := a.severity;
      if ws.logNumFatal != 0 {
        if ws.logNumFatal > 2000 {
          return Closed(i);
        }
      } else if a.robotsLoaded {
        if a.timeframesLoaded {
          ws.ticker := a.ticker;
          ws.logNumFatal := a.afterLoad;
        } else {
          ws.logNumFatal := NOT_CONNECTED;
        }
      }
    }
    ws.apiIsActive := true;
    o := Live(i);
  }

  /** How many attempts of the script the loop ran. */
  function Ran(o: Setup, total: nat): nat
  {
    match o
    case Live(n) => n
    case Closed(n) => n
    case Pending => total
  }

  /** The ticker after running `run`, starting from `t`: the one read by
      the last attempt that ran the full loading, or `t` when none did. */
  function TickerAfter(run: seq<Attempt>, t: int): (r: int)
    ensures (forall j :: 0 <= j < |run| ==> !Loads(run[j])) ==> r == t
    ensures r != t ==> exists j :: 0 <= j < |run| && Loads(run[j]) && r == run[j].ticker
  {
    if run == [] then t
    else if Loads(run[|run| - 1]) then run[|run| - 1].ticker
    else TickerAfter(run[..|run| - 1], t)
  }

  /** A first attempt connects and loads its robots, but the loading after
      it leaves 1001 (a reconnect fault caught by the error decorator); the
      loop runs a second attempt, which connects without robots and ends
      live. The ticker is the one the first attempt read. */
  lemma LoadingFaultRetries()
    ensures var run := [Attempt(0, true, true, 5, 1001), Attempt(0, false, false, 7, 0)];
            SetupRun(run) == Live(2) && TickerAfter(run[..2], 3) == 5
  {
    var run := [Attempt(0, true, true, 5, 1001), Attempt(0, false, false, 7, 0)];
    assert run[1..] == [Attempt(0, false, false, 7, 0)];
    assert run[..2][..1] == [Attempt(0, true, true, 5, 1001)];
  }

  /** A result of the script's tail, counted from the start of the script. */
  function Shift(s: Setup, i: nat): Setup
  {
    match s
    case Live(n) => Live(n + i)
    case Closed(n) => Closed(n + i)
    case Pending => Pending
  }

  /** What a tick of `refresh` does to one market. */
  datatype Action = Freeze | Restart | StopTrading | Run

  /** The per-tick decision on the severity and the timeout flag. */
  function Decide(level: int, timeoutOccurred: string): Action
  {
    if level > 2000 then Freeze
    else if level >= 1000 || timeoutOccurred != "" then Restart
    else if 0 < level <= 10 then StopTrading
    else Run
  }

  /** The decision follows the severity bands: a frozen market is never
      restarted, even after a timeout; a reconnect band or a timeout
      restarts; a business fault stops trading; anything else runs. */
  lemma DecideByBand(level: int, timeoutOccurred: string)
    ensures Decide(level, timeoutOccurred) == Freeze <==> IsFrozen(level)
    ensures Decide(level, timeoutOccurred) == Restart <==>
              !IsFrozen(level) && (NeedsReconnect(level) || timeoutOccurred != "")
    ensures Decide(level, timeoutOccurred) == StopTrading <==> IsBusinessFault(level) && timeoutOccurred == ""
    ensures level == HEALTHY && timeoutOccurred == "" ==> Decide(level, timeoutOccurred) == Run
    ensures level == NOT_CONNECTED && timeoutOccurred == "" ==> Decide(level, timeoutOccurred) == Run
  {
  }

  /** The freeze message of a severity. */
  function FrozenMessage(level: int): string
  {
    "Fatal error=" + IntToString(level) + ". Terminal is frozen"
  }

  /** The stop message of a severity. */
  function StoppedMessage(level: int): string
  {
    "Error=" + IntToString(level) + ". Trading stopped"
  }

  /**
   * One market's turn in `refresh`. A frozen market gets its freeze message
   * once and nothing else; a market that needs a reconnect, or saw a
   * timeout, runs `setup_market`; a business fault shows the stop message
   * once (and a balance notice for severity 2) and forces F9 off; every
   * market that is neither frozen nor restarted reads a new ticker.
   */
  method RefreshMarket(ws: Connection, disp: Display, attempts: seq<Attempt>, latestTicker: int)
    returns (action: Action, setup: Option<Setup>)
    modifies ws`message2000, ws`messageStopped, ws`logNumFatal, ws`apiIsActive, ws`ticker
    modifies disp`f9, disp`shown
    ensures action == Decide(old(ws.logNumFatal), old(ws.timeoutOccurred))
    ensures setup.Some? <==> action == Restart
    ensures action == Restart ==> setup == Some(SetupRun(attempts)) && (ws.apiIsActive <==> SetupRun(attempts).Live?)
    ensures action == Restart ==>
              && (SetupRun(attempts).Live? ==> ws.logNumFatal == HEALTHY)
              && (SetupRun(attempts).Closed? ==> IsFrozen(ws.logNumFatal))
              && (SetupRun(attempts).Pending? ==> ws.logNumFatal != HEALTHY)
              && disp.f9 == old(disp.f9) && disp.shown == old(disp.shown)
    ensures action == Restart ==>
              ws.ticker == TickerAfter(attempts[..Ran(SetupRun(attempts), |attempts|)], old(ws.ticker))
    ensures action != Restart ==>
              ws.logNumFatal == old(ws.logNumFatal) && ws.apiIsActive == old(ws.apiIsActive)
    ensures action == Freeze ==>
              && ws.ticker == old(ws.ticker) && disp.f9 == old(disp.f9)
              && ws.message2000 == (if old(ws.message2000) == "" then FrozenMessage(old(ws.logNumFatal)) else old(ws.message2000))
              && disp.shown == old(disp.shown) + (if old(ws.message2000) == "" then [(ws.name, ws.message2000)] else [])
    ensures action == StopTrading ==>
              && disp.f9 == "OFF" && ws.ticker == latestTicker
              && ws.messageStopped == (if old(ws.messageStopped) == "" then StoppedMessage(old(ws.logNumFatal)) else old(ws.messageStopped))
              && disp.shown == old(disp.shown) +
                   (if old(ws.messageStopped) != "" then []
                    else [(ws.name, ws.messageStopped)] +
                         (if old(ws.logNumFatal) == 2 then [(ws.name, "Insufficient available balance!")] else []))
    ensures action == Run ==> ws.ticker == latestTicker && disp.f9 == old(disp.f9) && disp.shown == old(disp.shown)
    ensures action != Freeze ==> ws.message2000 == old(ws.message2000)
    ensures action != StopTrading ==> ws.messageStopped == old(ws.messageStopped)
  {
    setup := None;
    action := Decide(ws.logNumFatal, ws.timeoutOccurred);
    if ws.logNumFatal > 2000 {
      if ws.message2000 == "" {
        ws.message2000 := FrozenMessage(ws.logNumFatal);
        disp.Show(ws.name, ws.message2000);
      }
    } else if ws.logNumFatal >= 1000 || ws.timeoutOccurred != "" {
      var s := SetupMarket(ws, attempts);
      setup := Some(s);
    } else {
      if ws.logNumFatal > 0 && ws.logNumFatal <= 10 {
        if ws.messageStopped == "" {
          ws.messageStopped := StoppedMessage(ws.logNumFatal);
          disp.Show(ws.name, ws.messageStopped);
          if ws.logNumFatal == 2 {
            disp.Show(ws.name, "Insufficient available balance!");
          }
        }
        disp.f9 := "OFF";
      }
      ws.ticker := latestTicker;
    }
  }

  /** Two ticks on a frozen market show its freeze message at most once. */
  method FrozenShownOnce(ws: Connection, disp: Display, attempts: seq<Attempt>, t1: int, t2: int)
    requires IsFrozen(ws.logNumFatal)
    modifies ws`message2000, ws`messageStopped, ws`logNumFatal, ws`apiIsActive, ws`ticker
    modifies disp`f9, disp`shown
    ensures |disp.shown| <= |old(disp.shown)| + 1
    ensures ws.logNumFatal == old(ws.logNumFatal) && ws.message2000 != ""
  {
    var a1, s1 := RefreshMarket(ws, disp, attempts, t1);
    assert FrozenMessage(old(ws.logNumFatal))[0] == 'F';
    var a2, s2 := RefreshMarket(ws, disp, attempts, t2);
  }

  /** The F9 switch: "ON" and "OFF" swap, any other value is kept. */
  function Toggle(f9: string): string
  {
    if f9 == "ON" then "OFF" else if f9 == "OFF" then "ON" else f9
  }

  /** Pressing F9 twice restores the switch. */
  lemma ToggleTwice(f9: string)
    ensures Toggle(Toggle(f9)) == f9
  {
  }

  /**
   * `trade_state`: switching trading on also sets the current market's
   * severity to 0 and clears the display's stop message. The market's own
   * `messageStopped` is not cleared, so a later business fault on it shows
   * no new stop message.
   */
  method TradeState(disp: Display, ws: Connection)
    modifies disp`f9, disp`messageStopped, ws`logNumFatal
    ensures disp.f9 == Toggle(old(disp.f9))
    ensures old(disp.f9) == "OFF" ==> disp.messageStopped == "" && ws.logNumFatal == HEALTHY
    ensures old(disp.f9) != "OFF" ==>
              disp.messageStopped == old(disp.messageStopped) && ws.logNumFatal == old(ws.logNumFatal)
    ensures ws.messageStopped == old(ws.messageStopped)
  {
    if disp.f9 == "ON" {
      disp.f9 := "OFF";
    } else if disp.f9 == "OFF" {
      disp.f9 := "ON";
      disp.messageStopped := "";
      ws.logNumFatal := 0;
    }
  }

  /** Switching trading back on after a stop does not clear the market's
      stop message, so the next business fault stops trading again without
      showing any message. */
  method StopMessageNotRepeated(disp: Display, ws: Connection, attempts: seq<Attempt>, latestTicker: int)
    requires disp.f9 == "OFF" && ws.messageStopped != "" && ws.timeoutOccurred == ""
    modifies disp`f9, disp`messageStopped, disp`shown
    modifies ws`message2000, ws`messageStopped, ws`logNumFatal, ws`apiIsActive, ws`ticker
    ensures disp.f9 == "OFF" && disp.shown == old(disp.shown)
  {
    TradeState(disp, ws);
    // an insufficient-balance fault caught by the error decorator
    ws.logNumFatal := 2;
    var action, setup := RefreshMarket(ws, disp, attempts, latestTicker);
  }
}
