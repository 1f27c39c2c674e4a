/**
 * The live BTC price widget (components/BTCPriceTicker.tsx): a WebSocket connection
 * with a consecutive-failure counter, reconnect-after-close, a one-way switch to REST
 * polling, and the ticker transform written into the store.
 *
 * The connection logic is given twice: as a pure transition function `Step` over a
 * `Conn` value, which the lemmas reason about, and as the class `BtcPriceTicker`, whose
 * event methods update fields one by one and are proved to follow `Step`. Sockets, timers
 * and fetches are not run: the transitions report them as `Action`s.
 */
module BtcTicker {
  import opened Wrappers
  import opened Json
  import opened Http
  import opened Validation
  import opened Store

  /** Consecutive failures after which the widget gives up on the WebSocket. */
  const FailureLimit: nat := 3
  const ReconnectDelayMs: nat := 5000
  const PollIntervalMs: nat := 3000

  datatype ReadyState = Connecting | Open | Closing | Closed

  /** Effects a transition asks of the outside world. */
  datatype Action =
    | CreateSocket
    | CloseSocket
    | ScheduleReconnect(delayMs: nat)
    | CancelReconnect
    | FetchNow
    | StartPolling(intervalMs: nat)
    | StopPolling

  /** The widget's connection state: whether it is mounted, the `useRestApi` flag, the
      effect's `failureCount`, the socket in `wsRef` (None for null), whether a reconnect
      timer is pending, and whether the REST interval is running. */
  datatype Conn = Conn(mounted: bool, useRestApi: bool, failureCount: nat,
                       socket: Option<ReadyState>, reconnectPending: bool, polling: bool)

  datatype Transition = Transition(next: Conn, actions: seq<Action>)

  /** What the browser reports; `constructed` says whether `new WebSocket` succeeds when the
      timer's `connectWebSocket` runs. */
  datatype Event =
    | SocketOpened
    | SocketErrored
    | SocketClosed
    | ReconnectTimerFired(constructed: bool)
    | Unmounted

  const Rendered: Conn := Conn(true, false, 0, None, false, false)

  /** A socket that teardown would close (OPEN or CONNECTING). */
  predicate Live(s: Option<ReadyState>) {
    s == Some(Connecting) || s == Some(Open)
  }

  /** `setUseRestApi(true)`: React ignores it on an unmounted widget or when the flag is
      already set; otherwise the WebSocket effect's teardown runs (the pending timer is
      cleared, a live socket closed) and the REST effect fetches at once and then polls. */
  function SwitchToRest(c: Conn): (t: Transition)
    ensures !c.mounted || c.useRestApi ==> t == Transition(c, [])
    ensures c.mounted && !c.useRestApi ==>
      t.next.useRestApi && t.next.polling && !t.next.reconnectPending && !Live(t.next.socket)
    ensures c.mounted && !c.useRestApi ==>
      |t.actions| >= 2 && t.actions[|t.actions| - 2..] == [FetchNow, StartPolling(PollIntervalMs)]
  {
    if !c.mounted || c.useRestApi then Transition(c, [])
    else
      var cancel := if c.reconnectPending then [CancelReconnect] else [];
      var close := if Live(c.socket) then [CloseSocket] else [];
      Transition(
        c.(useRestApi := true, reconnectPending := false, polling := true,
           socket := if Live(c.socket) then Some(Closing) else c.socket),
        cancel + close + [FetchNow, StartPolling(PollIntervalMs)])
  }

  /** The switch runs the WebSocket effect's teardown: it clears exactly a pending timer and
      closes exactly a live socket, and never opens or schedules anything. */
  lemma SwitchTearsDownWebSocket(c: Conn)
    requires c.mounted && !c.useRestApi
    ensures var t := SwitchToRest(c);
            (CancelReconnect in t.actions <==> c.reconnectPending) &&
            (CloseSocket in t.actions <==> Live(c.socket)) &&
            CreateSocket !in t.actions && forall d :: ScheduleReconnect(d) !in t.actions
  {
    var a := SwitchToRest(c).actions;
    var tail := [FetchNow, StartPolling(PollIntervalMs)];
    if c.reconnectPending && Live(c.socket) {
      assert a == [CancelReconnect, CloseSocket] + tail;
    } else if c.reconnectPending {
      assert a == [CancelReconnect] + tail;
    } else if Live(c.socket) {
      assert a == [CloseSocket] + tail;
    } else {
      assert a == tail;
    }
  }

  /** `connectWebSocket`: a new socket, or, when the constructor throws, one more failure
      followed by the switch to REST or a reconnect in 5 seconds. */
  function Connect(c: Conn, constructed: bool): (t: Transition)
    ensures constructed ==>
      t.next == c.(socket := Some(Connecting)) && t.actions == [CreateSocket]
    ensures !constructed ==> t.next.failureCount == c.failureCount + 1 && CreateSocket !in t.actions
    ensures !constructed && c.failureCount + 1 < FailureLimit ==>
      t.next.reconnectPending && t.actions == [ScheduleReconnect(ReconnectDelayMs)]
    ensures !constructed && c.failureCount + 1 >= FailureLimit && c.mounted && !c.useRestApi ==>
      t.next.useRestApi && t.next.polling && !t.next.reconnectPending
  {
    if constructed then Transition(c.(socket := Some(Connecting)), [CreateSocket])
    else
      var c1 := c.(failureCount := c.failureCount + 1);
      if c1.failureCount >= FailureLimit then SwitchToRest(c1)
      else Transition(c1.(reconnectPending := true), [ScheduleReconnect(ReconnectDelayMs)])
  }

  /** The WebSocket effect on mount: nothing in REST mode; otherwise a fresh counter and a
      first connection attempt. */
  function Mount(constructed: bool): (t: Transition)
    ensures t.next.mounted && !t.next.useRestApi && !t.next.polling
    ensures constructed ==> t.next.socket == Some(Connecting) && t.next.failureCount == 0
    ensures !constructed ==>
      t.next.socket.None? && t.next.failureCount == 1 && t.next.reconnectPending
  {
    Connect(Rendered, constructed)
  }

  /** `onopen`: the counter restarts, so only consecutive failures count. */
  function OnOpen(c: Conn): (t: Transition)
    ensures c.socket == Some(Connecting) ==>
      t.next == c.(socket := Some(Open), failureCount := 0) && t.actions == []
    ensures c.socket != Some(Connecting) ==> t == Transition(c, [])
  {
    if c.socket == Some(Connecting) then Transition(c.(socket := Some(Open), failureCount := 0), [])
    else Transition(c, [])
  }

  /** `onerror`: the failed socket is closed, the counter grows, and at the limit the widget
      switches to REST. */
  function OnError(c: Conn): (t: Transition)
    ensures !Live(c.socket) ==> t == Transition(c, [])
    ensures Live(c.socket) ==> t.next.failureCount == c.failureCount + 1 && !Live(t.next.socket)
    ensures Live(c.socket) && c.mounted && !c.useRestApi ==>
      (t.next.useRestApi <==> c.failureCount + 1 >= FailureLimit)
    ensures CreateSocket !in t.actions
  {
    if !Live(c.socket) then Transition(c, [])
    else
      var c1 := c.(socket := Some(Closed), failureCount := c.failureCount + 1);
      if c1.failureCount >= FailureLimit then SwitchToRest(c1) else Transition(c1, [])
  }

  /** `onclose` as written: `wsRef` is cleared and, while the counter is below the limit, a
      reconnect is scheduled, even when the widget has already been torn down. */
  function OnCloseAsWritten(c: Conn): (t: Transition)
    ensures c.socket.None? ==> t == Transition(c, [])
    ensures c.socket.Some? ==> t.next.socket.None? && t.next.mounted == c.mounted
    ensures c.socket.Some? ==>
      (t.actions == [ScheduleReconnect(ReconnectDelayMs)] <==> c.failureCount < FailureLimit)
  {
    if c.socket.None? then Transition(c, [])
    else
      var c1 := c.(socket := None);
      if c1.failureCount < FailureLimit then
        Transition(c1.(reconnectPending := true), [ScheduleReconnect(ReconnectDelayMs)])
      else Transition(c1, [])
  }

  /** `onclose` as intended: a torn-down widget does not reconnect. */
  function OnClose(c: Conn): (t: Transition)
    ensures c.socket.None? ==> t == Transition(c, [])
    ensures c.socket.Some? ==> t.next.socket.None? && t.next.mounted == c.mounted
    ensures c.socket.Some? ==>
      (t.actions == [ScheduleReconnect(ReconnectDelayMs)] <==> c.mounted && c.failureCount < FailureLimit)
  {
    if c.socket.None? then Transition(c, [])
    else
      var c1 := c.(socket := None);
      if c1.failureCount < FailureLimit && c.mounted then
        Transition(c1.(reconnectPending := true), [ScheduleReconnect(ReconnectDelayMs)])
      else Transition(c1, [])
  }

  /** The reconnect timer runs `connectWebSocket` again; a cleared timer never fires. */
  function OnReconnectTimer(c: Conn, constructed: bool): (t: Transition)
    ensures !c.reconnectPending ==> t == Transition(c, [])
    ensures c.reconnectPending ==> (CreateSocket in t.actions <==> constructed)
    ensures c.reconnectPending && constructed ==>
      t.next.socket == Some(Connecting) && !t.next.reconnectPending
    ensures c.reconnectPending && !constructed ==> t.next.failureCount == c.failureCount + 1
  {
    if !c.reconnectPending then Transition(c, [])
    else Connect(c.(reconnectPending := false), constructed)
  }

  /** Teardown: in REST mode the interval is cleared; otherwise the pending reconnect timer is
      cleared and the socket closed if it is OPEN or CONNECTING. */
  function OnUnmount(c: Conn): (t: Transition)
    ensures !t.next.mounted
    ensures !c.mounted ==> t == Transition(c, [])
    ensures c.mounted && c.useRestApi ==> !t.next.polling && t.actions == [StopPolling]
    ensures c.mounted && !c.useRestApi ==> !t.next.reconnectPending && !Live(t.next.socket)
    ensures CreateSocket !in t.actions && forall d :: ScheduleReconnect(d) !in t.actions
  {
    if !c.mounted then Transition(c, [])
    else if c.useRestApi then Transition(c.(mounted := false, polling := false), [StopPolling])
    else
      var cancel := if c.reconnectPending then [CancelReconnect] else [];
      var close := if Live(c.socket) then [CloseSocket] else [];
      Transition(c.(mounted := false, reconnectPending := false,
                    socket := if Live(c.socket) then Some(Closing) else c.socket),
                 cancel + close)
  }

  function Step(c: Conn, e: Event): (t: Transition)
    ensures t.next.mounted <==> c.mounted && !e.Unmounted?
    ensures c.useRestApi ==> t.next.useRestApi
    ensures t.next.failureCount < c.failureCount ==> e.SocketOpened? && t.next.failureCount == 0
  {
    match e
    case SocketOpened => OnOpen(c)
    case SocketErrored => OnError(c)
    case SocketClosed => OnClose(c)
    case ReconnectTimerFired(constructed) => OnReconnectTimer(c, constructed)
    case Unmounted => OnUnmount(c)
  }

  /** The state after a series of events under a transition function, and every action
      the events asked for, in order. */
  function RunWith(step: (Conn, Event) -> Transition, c: Conn, es: seq<Event>): Transition
    decreases |es|
  {
    if |es| == 0 then Transition(c, [])
    else
      var t := step(c, es[0]);
      var rest := RunWith(step, t.next, es[1..]);
      Transition(rest.next, t.actions + rest.actions)
  }

  function Run(c: Conn, es: seq<Event>): Transition {
    RunWith(Step, c, es)
  }

  /** Running two series of events one after the other is running their concatenation. */
  lemma {:induction false} RunSplit(step: (Conn, Event) -> Transition, c: Conn, a: seq<Event>, b: seq<Event>)
    ensures RunWith(step, c, a + b).next == RunWith(step, RunWith(step, c, a).next, b).next
    ensures RunWith(step, c, a + b).actions ==
      RunWith(step, c, a).actions + RunWith(step, RunWith(step, c, a).next, b).actions
    decreases |a|
  {
    if |a| == 0 {
      assert a + b == b;
    } else {
      assert (a + b)[1..] == a[1..] + b;
      RunSplit(step, step(c, a[0]).next, a[1..], b);
    }
  }

  // ---------------------------------------------------------------------------
  // Invariant and properties of the connection logic
  // ---------------------------------------------------------------------------

  /** What every reachable state satisfies. */
  predicate Inv(c: Conn) {
    && (c.reconnectPending ==> c.socket.None? && c.mounted && !c.useRestApi)
    && (c.useRestApi ==> c.failureCount >= FailureLimit && !Live(c.socket))
    && (c.polling <==> c.useRestApi && c.mounted)
    && (!c.mounted ==> !Live(c.socket))
    && (c.mounted && c.failureCount >= FailureLimit ==> c.useRestApi)
  }

  lemma MountEstablishesInv(constructed: bool)
    ensures Inv(Mount(constructed).next)
    ensures constructed ==> Mount(constructed).actions == [CreateSocket]
    ensures !constructed ==> Mount(constructed).actions == [ScheduleReconnect(ReconnectDelayMs)]
  {
  }

  lemma StepPreservesInv(c: Conn, e: Event)
    requires Inv(c)
    ensures Inv(Step(c, e).next)
  {
  }

  lemma {:induction false} RunPreservesInv(c: Conn, es: seq<Event>)
    requires Inv(c)
    ensures Inv(Run(c, es).next)
    decreases |es|
  {
    if |es| > 0 {
      StepPreservesInv(c, es[0]);
      RunPreservesInv(Step(c, es[0]).next, es[1..]);
    }
  }

  /** A successful open resets the counter; every other event leaves it or raises it. */
  lemma OpenResetsFailureCount(c: Conn, e: Event)
    ensures e == SocketOpened && c.socket == Some(Connecting) ==> Step(c, e).next.failureCount == 0
    ensures e != SocketOpened ==> Step(c, e).next.failureCount >= c.failureCount
  {
  }

  /** Each error on a live socket adds one failure; the widget switches to REST exactly when
      that brings a mounted widget's counter to the limit. */
  lemma ErrorCountsFailure(c: Conn)
    requires Inv(c) && Live(c.socket)
    ensures Step(c, SocketErrored).next.failureCount == c.failureCount + 1
    ensures Step(c, SocketErrored).next.useRestApi <==> c.mounted && c.failureCount + 1 >= FailureLimit
  {
  }

  /** On close a reconnect is scheduled, 5 seconds out, iff the counter is below the limit
      and the widget is still mounted. */
  lemma CloseReconnectsBelowLimit(c: Conn)
    requires c.socket.Some?
    ensures var t := Step(c, SocketClosed);
            t.next.socket.None? &&
            (t.actions == [ScheduleReconnect(ReconnectDelayMs)] <==> c.failureCount < FailureLimit && c.mounted) &&
            (t.actions == [] <==> !(c.failureCount < FailureLimit && c.mounted))
  {
  }

  /** A constructor that throws counts as a failure, then switches to REST or retries. */
  lemma FailedConstructionCounts(c: Conn)
    requires Inv(c) && c.reconnectPending
    ensures var t := Step(c, ReconnectTimerFired(false));
            t.next.failureCount == c.failureCount + 1 &&
            (c.failureCount + 1 >= FailureLimit ==> t.next.useRestApi && FetchNow in t.actions) &&
            (c.failureCount + 1 < FailureLimit ==> t.actions == [ScheduleReconnect(ReconnectDelayMs)])
  {
  }

  /** The switch to REST happens only at the limit, and starts an immediate fetch and a
      3-second poll. */
  lemma SwitchOnlyAtLimit(c: Conn, e: Event)
    requires Inv(c) && !c.useRestApi && Step(c, e).next.useRestApi
    ensures c.mounted && Step(c, e).next.failureCount >= FailureLimit
    ensures e == SocketErrored || e.ReconnectTimerFired?
    ensures var a := Step(c, e).actions; |a| >= 2 && a[|a| - 2..] == [FetchNow, StartPolling(PollIntervalMs)]
  {
  }

  /** REST mode is permanent: whatever happens next, the flag stays set and no socket is
      created again. */
  lemma {:induction false} RestModeIsPermanent(c: Conn, es: seq<Event>)
    requires Inv(c) && c.useRestApi
    ensures Run(c, es).next.useRestApi
    ensures CreateSocket !in Run(c, es).actions
    decreases |es|
  {
    if |es| > 0 {
      StepPreservesInv(c, es[0]);
      RestModeIsPermanent(Step(c, es[0]).next, es[1..]);
    }
  }

  /** Teardown cancels exactly a pending timer and closes exactly a live socket. */
  lemma TeardownGuardsClose(c: Conn)
    requires Inv(c) && c.mounted
    ensures var t := Step(c, Unmounted);
            (CancelReconnect in t.actions <==> c.reconnectPending) &&
            (CloseSocket in t.actions <==> Live(c.socket)) &&
            (StopPolling in t.actions <==> c.useRestApi)
  {
  }

  /** After teardown nothing reconnects: no socket is created and no timer scheduled. */
  lemma {:induction false} NothingAfterUnmount(c: Conn, es: seq<Event>)
    requires Inv(c) && !c.mounted
    ensures CreateSocket !in Run(c, es).actions
    ensures forall d :: ScheduleReconnect(d) !in Run(c, es).actions
    ensures !Run(c, es).next.mounted && !Live(Run(c, es).next.socket)
    decreases |es|
  {
    if |es| > 0 {
      StepPreservesInv(c, es[0]);
      NothingAfterUnmount(Step(c, es[0]).next, es[1..]);
    }
  }

  /** The code as written: a socket open at teardown is closed, its close event schedules a
      reconnect, and the timer then opens a new socket for the torn-down widget. */
  lemma OnCloseAsWrittenReconnectsAfterUnmount()
    ensures var t1 := Step(Mount(true).next, SocketOpened);
            var t2 := Step(t1.next, Unmounted);
            var t3 := OnCloseAsWritten(t2.next);
            var t4 := OnReconnectTimer(t3.next, true);
            t2.actions == [CloseSocket] && !t2.next.mounted &&
            t3.actions == [ScheduleReconnect(ReconnectDelayMs)] &&
            t4.actions == [CreateSocket] && !t4.next.mounted
  {
  }

  /** The two close handlers differ only once the widget has been torn down. */
  lemma OnCloseAgreesWhileMounted(c: Conn)
    requires c.mounted
    ensures OnCloseAsWritten(c) == OnClose(c)
  {
  }

  /** The component's event handling as written, with `onclose` unguarded. */
  function StepAsWritten(c: Conn, e: Event): (t: Transition)
    ensures t.next.mounted <==> c.mounted && !e.Unmounted?
    ensures c.useRestApi ==> t.next.useRestApi
    ensures t.next.failureCount < c.failureCount ==> e.SocketOpened? && t.next.failureCount == 0
    ensures e.SocketClosed? && c.socket.Some? ==>
      (t.actions == [ScheduleReconnect(ReconnectDelayMs)] <==> c.failureCount < FailureLimit)
  {
    match e
    case SocketOpened => OnOpen(c)
    case SocketErrored => OnError(c)
    case SocketClosed => OnCloseAsWritten(c)
    case ReconnectTimerFired(constructed) => OnReconnectTimer(c, constructed)
    case Unmounted => OnUnmount(c)
  }

  predicate NoUnmount(es: seq<Event>) {
    forall i :: 0 <= i < |es| ==> es[i] != Unmounted
  }

  /** Only teardown unmounts, and while mounted the two machines take the same step. */
  lemma StepWhileMounted(c: Conn, e: Event)
    requires c.mounted && e != Unmounted
    ensures Step(c, e).next.mounted
    ensures StepAsWritten(c, e) == Step(c, e)
  {
  }

  /** Up to teardown the component as written behaves exactly like the corrected one, so
      every property proved of `Run` on a mounted widget holds of the code as written. */
  lemma {:induction false} AsWrittenAgreesUntilUnmount(c: Conn, es: seq<Event>)
    requires c.mounted && NoUnmount(es)
    ensures RunWith(StepAsWritten, c, es) == Run(c, es)
    decreases |es|
  {
    if |es| > 0 {
      StepWhileMounted(c, es[0]);
      assert NoUnmount(es[1..]) by {
        forall i | 0 <= i < |es[1..]| ensures es[1..][i] != Unmounted {
          assert es[1..][i] == es[i + 1];
        }
      }
      AsWrittenAgreesUntilUnmount(Step(c, es[0]).next, es[1..]);
    }
  }

  /** The invariant holds of the component as written for as long as it stays mounted. */
  lemma AsWrittenPreservesInvUntilUnmount(c: Conn, es: seq<Event>)
    requires Inv(c) && c.mounted && NoUnmount(es)
    ensures Inv(RunWith(StepAsWritten, c, es).next)
  {
    AsWrittenAgreesUntilUnmount(c, es);
    RunPreservesInv(c, es);
  }

  /** A connecting socket that fails: error, close, and the reconnect timer opens the next. */
  const FailedAttempt: seq<Event> := [SocketErrored, SocketClosed, ReconnectTimerFired(true)]

  function Attempting(count: nat): Conn {
    Conn(true, false, count, Some(ReadyState.Connecting), false, false)
  }

  /** Below the limit, a failed attempt adds one failure and leaves a new socket connecting. */
  lemma FailedAttemptCounts(count: nat)
    requires count + 1 < FailureLimit
    ensures Run(Attempting(count), FailedAttempt).next == Attempting(count + 1)
  {
    var errored := Conn(true, false, count + 1, Some(Closed), false, false);
    var waiting := Conn(true, false, count + 1, None, true, false);
    assert Run(waiting, [ReconnectTimerFired(true)]).next == Attempting(count + 1);
    assert Run(errored, [SocketClosed, ReconnectTimerFired(true)]).next == Attempting(count + 1);
  }

  /** Three consecutive failed sockets switch the widget to REST polling. */
  lemma ThreeFailuresSwitchToRest()
    ensures var t := Run(Mount(true).next, FailedAttempt + FailedAttempt + [SocketErrored]);
            t.next.useRestApi && t.next.polling && t.next.failureCount == 3 &&
            FetchNow in t.actions && StartPolling(PollIntervalMs) in t.actions
  {
    assert Mount(true).next == Attempting(0);
    FailedAttemptCounts(0);
    FailedAttemptCounts(1);
    RunSplit(Step, Attempting(0), FailedAttempt, FailedAttempt);
    RunSplit(Step, Attempting(0), FailedAttempt + FailedAttempt, [SocketErrored]);
    var last := Run(Attempting(2), [SocketErrored]);
    assert last.actions == [FetchNow, StartPolling(PollIntervalMs)];
  }

  /** A socket that opens between failures restarts the count, so the widget stays on the
      WebSocket. */
  lemma OpenBetweenFailuresKeepsWebSocket()
    ensures var t := Run(Mount(true).next, FailedAttempt + FailedAttempt + [SocketOpened, SocketErrored, SocketClosed]);
            !t.next.useRestApi && t.next.failureCount == 1 && t.next.reconnectPending
  {
    assert Mount(true).next == Attempting(0);
    FailedAttemptCounts(0);
    FailedAttemptCounts(1);
    RunSplit(Step, Attempting(0), FailedAttempt, FailedAttempt);
    RunSplit(Step, Attempting(0), FailedAttempt + FailedAttempt, [SocketOpened, SocketErrored, SocketClosed]);
    var openState := Conn(true, false, 0, Some(Open), false, false);
    var errored := Conn(true, false, 1, Some(Closed), false, false);
    var waiting := Conn(true, false, 1, None, true, false);
    assert Run(errored, [SocketClosed]).next == waiting;
    assert Run(openState, [SocketErrored, SocketClosed]).next == waiting;
    assert Run(Attempting(2), [SocketOpened, SocketErrored, SocketClosed]).next == waiting;
  }



  /** The two scenarios above are series without teardown, so the code as written runs them
      the same way. */
  lemma ScenariosHoldAsWritten()
    ensures var es := FailedAttempt + FailedAttempt + [SocketErrored];
            RunWith(StepAsWritten, Mount(true).next, es) == Run(Mount(true).next, es)
    ensures var es := FailedAttempt + FailedAttempt + [SocketOpened, SocketErrored, SocketClosed];
            RunWith(StepAsWritten, Mount(true).next, es) == Run(Mount(true).next, es)
  {
    var a := FailedAttempt + FailedAttempt + [SocketErrored];
    var b := FailedAttempt + FailedAttempt + [SocketOpened, SocketErrored, SocketClosed];
    assert a == [SocketErrored, SocketClosed, ReconnectTimerFired(true), SocketErrored, SocketClosed,
                 ReconnectTimerFired(true), SocketErrored];
    assert b == [SocketErrored, SocketClosed, ReconnectTimerFired(true), SocketErrored, SocketClosed,
                 ReconnectTimerFired(true), SocketOpened, SocketErrored, SocketClosed];
    AsWrittenAgreesUntilUnmount(Mount(true).next, a);
    AsWrittenAgreesUntilUnmount(Mount(true).next, b);
  }

  // ---------------------------------------------------------------------------
  // The ticker transform
  // ---------------------------------------------------------------------------

  /** The three raw strings of a validated message: last price, change, percent change. */
  datatype Quote = Quote(price: string, change: string, percent: string)

  /** `parseFloat(s).toFixed(2)`, with `parse` standing for parseFloat (None for NaN) and
      `fmt` for toFixed. */
  function Fixed2(s: string, parse: string -> Option<real>, fmt: (real, nat) -> string): string {
    match parse(s)
    case None => "NaN"
    case Some(x) => fmt(x, 2)
  }

  /** The updater handed to `setBtcTicker`: formatted figures, and `prev?.price || price`. */
  function NextTicker(prev: Option<Ticker>, q: Quote, parse: string -> Option<real>,
                      fmt: (real, nat) -> string): (t: Ticker)
    ensures t.price == Fixed2(q.price, parse, fmt)
    ensures t.priceChange == Fixed2(q.change, parse, fmt)
    ensures t.priceChangePercent == Fixed2(q.percent, parse, fmt)
    ensures prev.Some? && prev.value.price != "" ==> t.prevPrice == prev.value.price
    ensures prev.None? || prev.value.price == "" ==> t.prevPrice == q.price
  {
    Ticker(Fixed2(q.price, parse, fmt), Fixed2(q.change, parse, fmt), Fixed2(q.percent, parse, fmt),
           if prev.Some? && prev.value.price != "" then prev.value.price else q.price)
  }

  /** Consecutive ticks chain: each tick's previous price is the price the last tick stored. */
  lemma PrevPriceCarriesForward(prev: Option<Ticker>, q1: Quote, q2: Quote,
                                parse: string -> Option<real>, fmt: (real, nat) -> string)
    requires Fixed2(q1.price, parse, fmt) != ""
    ensures var t1 := NextTicker(prev, q1, parse, fmt);
            NextTicker(Some(t1), q2, parse, fmt).prevPrice == t1.price
  {
  }

  /** The first tick has no previous ticker, so its previous price is the raw, unformatted
      price of the tick itself. */
  lemma FirstTickUsesRawPrice(q: Quote, parse: string -> Option<real>, fmt: (real, nat) -> string)
    ensures NextTicker(None, q, parse, fmt).prevPrice == q.price
  {
  }

  /** The WebSocket message after validation: its `c`, `p` and `P` strings, or None when the
      message does not conform to the ticker schema. */
  function StreamQuote(raw: Json): (q: Option<Quote>)
    ensures q.Some? <==> StringAt(raw, "c") && StringAt(raw, "p") && StringAt(raw, "P")
    ensures q.Some? ==> q.value == Quote(raw.fields["c"].s, raw.fields["p"].s, raw.fields["P"].s)
  {
    BTCTickerSchemaAccepts(raw);
    match SafeValidate(BTCTickerSchema, raw)
    case Failure(_) => None
    case Success(data) => Some(Quote(data.fields["c"].s, data.fields["p"].s, data.fields["P"].s))
  }

  /** A REST reply after the ok check, body parse and validation. */
  function RestQuote(reply: Reply): (q: Option<Quote>)
    ensures q.Some? <==> (OkBody(reply).Some? &&
      StringAt(reply.body.value, "lastPrice") && StringAt(reply.body.value, "priceChange") &&
      StringAt(reply.body.value, "priceChangePercent"))
    ensures q.Some? ==> var f := reply.body.value.fields;
      q.value == Quote(f["lastPrice"].s, f["priceChange"].s, f["priceChangePercent"].s)
  {
    match OkBody(reply)
    case None => None
    case Some(raw) =>
      BinanceTickerSchemaAccepts(raw);
      match SafeValidate(BinanceTickerSchema, raw) {
        case Failure(_) => None
        case Success(data) =>
          Some(Quote(data.fields["lastPrice"].s, data.fields["priceChange"].s, data.fields["priceChangePercent"].s))
      }
  }

  // ---------------------------------------------------------------------------
  // The widget
  // ---------------------------------------------------------------------------

  class BtcPriceTicker {
    const store: MarketStore
    var mounted: bool
    var useRestApi: bool
    var failureCount: nat
    var socket: Option<ReadyState>
    var reconnectPending: bool
    var polling: bool

    function State(): Conn
      reads this
    {
      Conn(mounted, useRestApi, failureCount, socket, reconnectPending, polling)
    }

    /** Rendered, before its effects run. */
    constructor (store: MarketStore)
      ensures this.store == store && State() == Rendered
    {
      this.store := store;
      mounted := true;
      useRestApi := false;
      failureCount := 0;
      socket := None;
      reconnectPending := false;
      polling := false;
    }

    method SwitchToRestApi() returns (actions: seq<Action>)
      modifies this
      ensures Transition(State(), actions) == SwitchToRest(old(State()))
    {
      actions := [];
      if mounted && !useRestApi {
        useRestApi := true;
        if reconnectPending {
          actions := actions + [CancelReconnect];
          reconnectPending := false;
        }
        if Live(socket) {
          actions := actions + [CloseSocket];
          socket := Some(Closing);
        }
        polling := true;
        actions := actions + [FetchNow, StartPolling(PollIntervalMs)];
      }
    }

    method ConnectWebSocket(constructed: bool) returns (actions: seq<Action>)
      modifies this
      ensures Transition(State(), actions) == Connect(old(State()), constructed)
    {
      if constructed {
        socket := Some(Connecting);
        actions := [CreateSocket];
      } else {
        failureCount := failureCount + 1;
        if failureCount >= FailureLimit {
          actions := SwitchToRestApi();
        } else {
          reconnectPending := true;
          actions := [ScheduleReconnect(ReconnectDelayMs)];
        }
      }
    }

    method HandleOpen() returns (actions: seq<Action>)
      modifies this
      ensures Transition(State(), actions) == Step(old(State()), SocketOpened)
    {
      actions := [];
      if socket == Some(Connecting) {
        socket := Some(Open);
        failureCount := 0;
      }
    }

    method HandleError() returns (actions: seq<Action>)
      modifies this
      ensures Transition(State(), actions) == Step(old(State()), SocketErrored)
    {
      actions := [];
      if Live(socket) {
        socket := Some(Closed);
        failureCount := failureCount + 1;
        if failureCount >= FailureLimit {
          actions := SwitchToRestApi();
        }
      }
    }

    method HandleClose() returns (actions: seq<Action>)
      modifies this
      ensures Transition(State(), actions) == Step(old(State()), SocketClosed)
    {
      actions := [];
      if socket.Some? {
        socket := None;
        if failureCount < FailureLimit && mounted {
          reconnectPending := true;
          actions := [ScheduleReconnect(ReconnectDelayMs)];
        }
      }
    }

    method HandleReconnectTimer(constructed: bool) returns (actions: seq<Action>)
      modifies this
      ensures Transition(State(), actions) == Step(old(State()), ReconnectTimerFired(constructed))
    {
      actions := [];
      if reconnectPending {
        reconnectPending := false;
        actions := ConnectWebSocket(constructed);
      }
    }

    method Unmount() returns (actions: seq<Action>)
      modifies this
      ensures Transition(State(), actions) == Step(old(State()), Unmounted)
    {
      actions := [];
      if mounted {
        mounted := false;
        if useRestApi {
          polling := false;
          actions := [StopPolling];
        } else {
          if reconnectPending {
            actions := actions + [CancelReconnect];
            reconnectPending := false;
          }
          if Live(socket) {
            actions := actions + [CloseSocket];
            socket := Some(Closing);
          }
        }
      }
    }

    /** `onmessage`: a valid message updates the store's ticker; anything else leaves the
        store as it was. */
    method HandleMessage(raw: Json, parse: string -> Option<real>, fmt: (real, nat) -> string)
      requires store.Valid()
      modifies store
      ensures store.Valid()
      ensures StreamQuote(raw).None? ==> store.Current() == old(store.Current())
      ensures StreamQuote(raw).Some? ==> (store.Current() ==
        old(store.Current()).(btcTicker := Some(NextTicker(old(store.btcTicker), StreamQuote(raw).value, parse, fmt))))
    {
      var q := StreamQuote(raw);
      if q.Some? {
        store.SetBtcTicker(Updater(prev => NextTicker(prev, q.value, parse, fmt)));
      }
    }

    /** `fetchPrice`: one REST poll; a failed or invalid reply leaves the store as it was. */
    method FetchPrice(reply: Reply, parse: string -> Option<real>, fmt: (real, nat) -> string)
      requires store.Valid()
      modifies store
      ensures store.Valid()
      ensures RestQuote(reply).None? ==> store.Current() == old(store.Current())
      ensures RestQuote(reply).Some? ==> (store.Current() ==
        old(store.Current()).(btcTicker := Some(NextTicker(old(store.btcTicker), RestQuote(reply).value, parse, fmt))))
    {
      var q := RestQuote(reply);
      if q.Some? {
        store.SetBtcTicker(Updater(prev => NextTicker(prev, q.value, parse, fmt)));
      }
    }
  }
}
