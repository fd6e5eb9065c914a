/** Initialising again while timer handlers of earlier initialisations are still queued, for example from inside
    the completion callback. */
module InitRetry {
  import opened Common
  import opened InitMachine
  import opened InitSafety
  import opened InitSocket

  /** A run of one initialisation that neither the user nor a timer of its own disturbs, to its end. */
  ghost predicate Undisturbed(kind: Kind, b: State, timeout: Option<int>, events: seq<Event>)
    requires Idle(b)
  {
    && ValidRun(kind, Step(kind, b, Init(timeout)), events)
    && (forall e | e in events :: !e.Init? && !e.Close? && !e.Expire?)
    && Settled(Run(kind, Step(kind, b, Init(timeout)), events))
  }

  /** An undisturbed initialisation begun in `b` that reports success leaves the socket open. */
  ghost predicate SuccessCanBeTrusted(kind: Kind, b: State)
    requires Idle(b)
  {
    forall timeout, events | Undisturbed(kind, b, timeout, events) ::
      var s := Run(kind, Step(kind, b, Init(timeout)), events);
      |s.callbacks| > |b.callbacks| && s.callbacks[|b.callbacks|].ec == Success ==> s.socketOpen
  }

  /** A condition on the state before the call: no expired timer's handler is queued, and a stream that counts as
      open has an open socket. */
  predicate Clean(kind: Kind, b: State) { AbortedOnly(b.fired) && (IsOpen(kind, b) ==> b.socketOpen) }

  lemma {:induction false} NothingExpires(kind: Kind, s: State, events: seq<Event>)
    requires ValidRun(kind, s, events) && forall e | e in events :: !e.Expire?
    ensures Run(kind, s, events).expired == s.expired
    decreases |events|
  {
    if events != [] {
      assert events[0] in events;
      NothingExpires(kind, Step(kind, s, events[0]), events[1..]);
    }
  }

  lemma CleanCanBeTrusted(kind: Kind, b: State, timeout: Option<int>, events: seq<Event>)
    requires WaitsAccounted(b) && Idle(b) && Clean(kind, b) && Undisturbed(kind, b, timeout, events)
    ensures var s := Run(kind, Step(kind, b, Init(timeout)), events);
      |s.callbacks| > |b.callbacks| && s.callbacks[|b.callbacks|].ec == Success ==> s.socketOpen
  {
    SuccessIsOpenIffNoExpiry(kind, b, timeout, events);
    NothingExpires(kind, Step(kind, b, Init(timeout)), events);
  }

  /** Run the queued timer handlers. */
  lemma {:induction false} RunTimers(kind: Kind, s: State) returns (events: seq<Event>)
    ensures ValidRun(kind, s, events) && forall e | e in events :: e.Timeout?
    ensures var t := Run(kind, s, events);
      && t == s.(fired := [], socketOpen := t.socketOpen, closers := t.closers, closedBy := t.closedBy)
      && (t.socketOpen <==> s.socketOpen && AbortedOnly(s.fired))
    decreases |s.fired|
  {
    if s.fired == [] {
      return [];
    }
    assert s.fired == [s.fired[0]] + s.fired[1..] && RemoveAt(s.fired, 0) == s.fired[1..];
    var rest := RunTimers(kind, Step(kind, s, Timeout(0)));
    events := [Timeout(0)] + rest;
    assert events[1..] == rest;
  }

  // ---------- a run in which every operation succeeds, before any timer handler runs

  /** The outstanding operation succeeds and its handler runs. */
  lemma Pass(kind: Kind, s: State, events: seq<Event>, op: Op) returns (longer: seq<Event>)
    requires ValidRun(kind, s, events) && forall e | e in events :: e.Complete? || e.Handle?
    requires var t := Run(kind, s, events); t.ops == [op] && t.ready == [] && (op != Resolve ==> t.socketOpen)
    ensures ValidRun(kind, s, longer) && forall e | e in longer :: e.Complete? || e.Handle?
    ensures var t := Run(kind, s, events);
      Run(kind, s, longer)
      == HandleReady(kind, t.(ops := [], streamOpen := t.streamOpen || op == Handshake), HandlerOf(op, Success))
  {
    longer := Extend(kind, s, events, Complete(0, Success));
    longer := Extend(kind, s, longer, Handle(0));
  }

  /** One operation is outstanding on an open socket. */
  ghost predicate Busy(b: State, s: State, op: Op) {
    && s.ops == [op] && s.ready == [] && s.socketOpen && s.callbacks == b.callbacks
    && |s.live| == 1 && b.fired <= s.fired && AbortedOnly(s.fired[|b.fired|..])
  }

  ghost predicate Succeeded(kind: Kind, b: State, s: State) {
    && Idle(s) && b.fired <= s.fired && AbortedOnly(s.fired[|b.fired|..])
    && |s.callbacks| == |b.callbacks| + 1 && s.callbacks[|b.callbacks|].ec == Success
    && s.socketOpen == (IsOpen(kind, b) ==> b.socketOpen)
  }

  lemma CancelAddsAborted(b: State, s: State)
    requires b.fired <= s.fired && AbortedOnly(s.fired[|b.fired|..])
    ensures b.fired <= Cancel(s).fired && AbortedOnly(Cancel(s).fired[|b.fired|..])
  {
    FiresMembers(s.live, OperationAborted);
    assert Cancel(s).fired[|b.fired|..] == s.fired[|b.fired|..] + Fires(s.live, OperationAborted);
  }

  lemma Connected(kind: Kind, b: State) returns (events: seq<Event>)
    requires Idle(b) && !IsOpen(kind, b)
    ensures var s := Step(kind, b, Init(None));
      && ValidRun(kind, s, events) && (forall e | e in events :: e.Complete? || e.Handle?)
      && Busy(b, Run(kind, s, events), Connect)
  {
    var s := Step(kind, b, Init(None));
    events := Pass(kind, s, [], Resolve);
    ResolvedIsBusy(b, s.(ops := []));
  }

  lemma ResolvedIsBusy(b: State, s: State)
    requires s.ops == [] && s.ready == [] && s.live == [] && s.fired == b.fired && s.callbacks == b.callbacks
    ensures Busy(b, HandleResolve(s, Success), Connect)
  {
    assert b.fired + [] == b.fired && b.fired[|b.fired|..] == [];
  }

  lemma Upgrading(b: State) returns (events: seq<Event>)
    requires Idle(b) && !b.streamOpen
    ensures var s := Step(Websocket, b, Init(None));
      && ValidRun(Websocket, s, events) && (forall e | e in events :: e.Complete? || e.Handle?)
      && Busy(b, Run(Websocket, s, events), Handshake)
  {
    var s := Step(Websocket, b, Init(None));
    events := Connected(Websocket, b);
    CancelAddsAborted(b, Run(Websocket, s, events));
    events := Pass(Websocket, s, events, Connect);
  }

  lemma Succeed(kind: Kind, b: State) returns (events: seq<Event>)
    requires Idle(b)
    ensures var s := Step(kind, b, Init(None));
      && ValidRun(kind, s, events) && (forall e | e in events :: e.Complete? || e.Handle?)
      && Succeeded(kind, b, Run(kind, s, events))
  {
    var s := Step(kind, b, Init(None));
    if IsOpen(kind, b) {
      events := Extend(kind, s, [], Handle(0));
      assert b.fired[|b.fired|..] == [];
    } else if kind == Tcp {
      events := Connected(kind, b);
      CancelAddsAborted(b, Run(kind, s, events));
      events := Pass(kind, s, events, Connect);
    } else {
      events := Upgrading(b);
      CancelAddsAborted(b, Run(kind, s, events));
      events := Pass(kind, s, events, Handshake);
    }
  }

  lemma {:induction false} RunConcat(kind: Kind, s: State, first: seq<Event>, second: seq<Event>)
    requires ValidRun(kind, s, first) && ValidRun(kind, Run(kind, s, first), second)
    ensures ValidRun(kind, s, first + second)
    ensures Run(kind, s, first + second) == Run(kind, Run(kind, s, first), second)
    decreases |first|
  {
    if first == [] {
      assert first + second == second;
    } else {
      assert (first + second)[1..] == first[1..] + second;
      RunConcat(kind, Step(kind, s, first[0]), first[1..], second);
    }
  }

  /** From any state there is an undisturbed run that reports success; at its end the socket is open exactly if
      the state was clean. */
  lemma SucceedAndSettle(kind: Kind, b: State) returns (events: seq<Event>)
    requires Idle(b)
    ensures Undisturbed(kind, b, None, events)
    ensures var t := Run(kind, Step(kind, b, Init(None)), events);
      && |t.callbacks| == |b.callbacks| + 1 && t.callbacks[|b.callbacks|].ec == Success
      && (t.socketOpen <==> Clean(kind, b))
  {
    var s := Step(kind, b, Init(None));
    var first := Succeed(kind, b);
    var t := Run(kind, s, first);
    var second := RunTimers(kind, t);
    RunConcat(kind, s, first, second);
    events := first + second;
    AbortedSuffix(b.fired, t.fired);
    assert t.callbacks == Run(kind, t, second).callbacks;
  }

  lemma AbortedSuffix(first: seq<Fired>, all: seq<Fired>)
    requires first <= all && AbortedOnly(all[|first|..])
    ensures AbortedOnly(all) <==> AbortedOnly(first)
  {
    assert all == first + all[|first|..];
  }

  /** A success of an undisturbed initialisation can be trusted if and only if it was begun in a clean state. */
  lemma TrustedIffClean(kind: Kind, b: State)
    requires WaitsAccounted(b) && Idle(b)
    ensures SuccessCanBeTrusted(kind, b) <==> Clean(kind, b)
  {
    if Clean(kind, b) {
      forall timeout, events | Undisturbed(kind, b, timeout, events)
        ensures var s := Run(kind, Step(kind, b, Init(timeout)), events);
          |s.callbacks| > |b.callbacks| && s.callbacks[|b.callbacks|].ec == Success ==> s.socketOpen
      {
        CleanCanBeTrusted(kind, b, timeout, events);
      }
    } else {
      var events := SucceedAndSettle(kind, b);
    }
  }

  // ---------- unclean states are reached

  lemma ConnectingTooLong(kind: Kind, now: int) returns (r: seq<Event>)
    ensures ValidRun(kind, Fresh(now), r)
    ensures var s := Run(kind, Fresh(now), r);
      && s.ops == [Connect] && s.ready == [] && s.live == [0] && s.fired == [] && s.now == s.deadline
      && s.callbacks == [] && s.waits == 1 && s.expired == {} && s.socketOpen && !s.streamOpen
  {
    var f := Fresh(now);
    r := Extend(kind, f, [], Init(Some(5)));
    r := Extend(kind, f, r, Complete(0, Success));
    r := Extend(kind, f, r, Handle(0));
    r := Extend(kind, f, r, Tick(5));
  }

  /** The connection fails just as the timer expires, so the error is reported while the expired timer's
      handler is queued. */
  lemma FailedJustInTime(kind: Kind, now: int) returns (r: seq<Event>)
    ensures ValidRun(kind, Fresh(now), r)
    ensures var b := Run(kind, Fresh(now), r);
      && Idle(b) && WaitsAccounted(b) && b.fired == [Fired(0, Success)]
      && |b.callbacks| == 1 && b.callbacks[0].ec != Success && b.socketOpen && !b.streamOpen
  {
    r := ConnectingTooLong(kind, now);
    r := Extend(kind, Fresh(now), r, Expire);
    r := Extend(kind, Fresh(now), r, Complete(0, Other(1)));
    r := Extend(kind, Fresh(now), r, Handle(0));
    FreshRunKeepsInv(kind, now, r);
  }

  /** So a caller who tries again after a timeout may be told of a success that an undisturbed run takes back. */
  lemma RetryCannotAlwaysBeTrusted(kind: Kind, now: int)
    ensures exists r ::
      && ValidRun(kind, Fresh(now), r) && Idle(Run(kind, Fresh(now), r))
      && !SuccessCanBeTrusted(kind, Run(kind, Fresh(now), r))
  {
    var r := FailedJustInTime(kind, now);
    var b := Run(kind, Fresh(now), r);
    assert b.fired[0] in b.fired;
    TrustedIffClean(kind, b);
  }

  /** From a state with an expired timer's handler queued, which runs before the new callback. */
  lemma ClosedBeforeCallback(b: State) returns (events: seq<Event>)
    requires Idle(b) && !b.streamOpen && b.fired == [Fired(0, Success)]
    ensures Undisturbed(Websocket, b, None, events) && events != [] && events[|events| - 1] == Handle(0)
    ensures var s := Run(Websocket, Step(Websocket, b, Init(None)), events);
      |s.callbacks| == |b.callbacks| + 1 && s.callbacks[|b.callbacks|].ec == Success && !s.socketOpen
  {
    var s := Step(Websocket, b, Init(None));
    events := Upgrading(b);
    events := CloseUpgraded(b, events);
    UpgradeSettles(Run(Websocket, s, events));
    events := Extend(Websocket, s, events, Handle(0));
  }

  lemma UpgradeSettles(s: State)
    requires s.ops == [] && s.ready == [OnUpgrade(Success)] && AbortedOnly(s.fired)
    ensures var t := Step(Websocket, s, Handle(0));
      && Settled(t) && t.socketOpen == s.socketOpen
      && |t.callbacks| == |s.callbacks| + 1 && t.callbacks[|s.callbacks|].ec == Success
  {
    FiresMembers(s.live, OperationAborted);
  }

  lemma CloseUpgraded(b: State, events: seq<Event>) returns (longer: seq<Event>)
    requires Idle(b) && b.fired == [Fired(0, Success)]
    requires var s := Step(Websocket, b, Init(None));
      && ValidRun(Websocket, s, events) && (forall e | e in events :: e.Complete? || e.Handle?)
      && Busy(b, Run(Websocket, s, events), Handshake)
    ensures var s := Step(Websocket, b, Init(None));
      && ValidRun(Websocket, s, longer) && (forall e | e in longer :: e.Complete? || e.Handle? || e.Timeout?)
      && var t := Run(Websocket, s, longer);
         && t.ops == [] && t.ready == [OnUpgrade(Success)] && AbortedOnly(t.fired) && !t.socketOpen
         && t.callbacks == b.callbacks
  {
    var s := Step(Websocket, b, Init(None));
    var fired := Run(Websocket, s, events).fired;
    assert RemoveAt(fired, 0) == fired[1..] && fired[0] == Fired(0, Success);
    longer := Extend(Websocket, s, events, Complete(0, Success));
    longer := Extend(Websocket, s, longer, Timeout(0));
  }

  /** Then success is reported on a socket that is closed already, though no timer of the new initialisation
      expired. */
  lemma RetryOnClosedSocket(now: int)
    ensures exists r, events: seq<Event> ::
      && ValidRun(Websocket, Fresh(now), r) && Idle(Run(Websocket, Fresh(now), r))
      && var b := Run(Websocket, Fresh(now), r);
         && Undisturbed(Websocket, b, None, events) && events != [] && events[|events| - 1] == Handle(0)
         && var s := Run(Websocket, Step(Websocket, b, Init(None)), events);
            && |s.callbacks| == |b.callbacks| + 1 && s.callbacks[|b.callbacks|].ec == Success
            && s.expired == b.expired && !s.socketOpen
  {
    var r := FailedJustInTime(Websocket, now);
    var b := Run(Websocket, Fresh(now), r);
    var events := ClosedBeforeCallback(b);
    NothingExpires(Websocket, Step(Websocket, b, Init(None)), events);
  }
}
