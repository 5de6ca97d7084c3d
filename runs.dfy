/**
 * The server's life as a sequence of inputs: socket updates, timer firings,
 * regenerate requests and WebSocket connections, each handled to completion
 * before the next. Properties here hold for every such sequence.
 */
module Runs {
  import opened Nullable
  import opened Record
  import opened Broadcast
  import Events
  import opened Transitions

  datatype Input =
    | Listen(authLoaded: bool)                                    // startWhatsApp() once listening
    | ConnectionUpdate(update: Events.Update, now: int)
    | TimerFired(authLoaded: bool)
    | RegenerateRequest(logoutOk: bool, eraseOk: bool, authLoaded: bool)
    | ClientJoined

  /** One input; a timer that was cleared never fires, so its firing is then no input at all. */
  function Step(w: ServerState, input: Input, encode: string -> string): ServerState {
    match input
    case Listen(a) => Start(w, a).0
    case ConnectionUpdate(u, now) => HandleUpdate(w, u, now, encode)
    case TimerFired(a) => if w.timerPending then FireReconnectTimer(w, a) else w
    case RegenerateRequest(l, e, a) => Regenerate(w, l, e, a).0
    case ClientJoined => Connect(w)
  }

  function Run(w: ServerState, inputs: seq<Input>, encode: string -> string): ServerState
    decreases |inputs|
  {
    if inputs == [] then w else Run(Step(w, inputs[0], encode), inputs[1..], encode)
  }

  lemma StepValid(w: ServerState, input: Input, encode: string -> string)
    requires Valid(w)
    ensures Valid(Step(w, input, encode))
  {
    match input
    case Listen(a) => StartSpec(w, a);
    case ConnectionUpdate(u, now) => HandleUpdateValid(w, u, now, encode);
    case TimerFired(a) =>
      if w.timerPending {
        FireReconnectTimerSpec(w, a);
      }
    case RegenerateRequest(l, e, a) => RegenerateSpec(w, l, e, a);
    case ClientJoined =>
  }

  /** Every run keeps the invariant. */
  lemma {:induction false} RunValid(w: ServerState, inputs: seq<Input>, encode: string -> string)
    requires Valid(w)
    ensures Valid(Run(w, inputs, encode))
    decreases |inputs|
  {
    if inputs != [] {
      StepValid(w, inputs[0], encode);
      RunValid(Step(w, inputs[0], encode), inputs[1..], encode);
    }
  }

  /**
   * In every state the server can reach, qr is non-null only in phase qr,
   * statusCode only in phase close, and the module reconnectAt is set exactly
   * while a timer is pending.
   */
  lemma Reachable(inputs: seq<Input>, encode: string -> string)
    ensures var r := Run(Boot, inputs, encode);
      (r.conn.qr.Some? ==> r.conn.state == Qr) &&
      (r.conn.statusCode.Some? ==> r.conn.state == Close) &&
      (r.timerPending <==> r.reconnectAt.Some?)
  {
    BootValid();
    RunValid(Boot, inputs, encode);
  }

  predicate RecoverableClose(input: Input) {
    input.ConnectionUpdate? && input.update.connection == Some(Events.Close) &&
    Events.ShouldReconnect(Events.StatusCodeFromError(input.update.error))
  }

  predicate LoggedOutClose(input: Input) {
    input.ConnectionUpdate? && input.update.connection == Some(Events.Close) &&
    !Events.ShouldReconnect(Events.StatusCodeFromError(input.update.error))
  }

  /**
   * However many recoverable closes arrive in a row, one retry is pending
   * afterwards, due 60000 ms after the first of them (or the one that was
   * already pending).
   */
  lemma {:induction false} RecoverableClosesArmOnce(w: ServerState, inputs: seq<Input>, encode: string -> string)
    requires inputs != []
    requires forall i :: 0 <= i < |inputs| ==> RecoverableClose(inputs[i])
    ensures var r := Run(w, inputs, encode);
      RecoverableClose(inputs[0]) && r.timerPending &&
      r.reconnectAt == (if w.timerPending then w.reconnectAt else Some(inputs[0].now + 60000))
    decreases |inputs|
  {
    var first := inputs[0];
    CloseOtherRetries(w, first.update, first.now, encode);
    var next := Step(w, first, encode);
    if |inputs| > 1 {
      RecoverableClosesArmOnce(next, inputs[1..], encode);
    }
  }

  /** Logged-out closes never arm a retry, however many arrive. */
  lemma {:induction false} LoggedOutClosesNeverArm(w: ServerState, inputs: seq<Input>, encode: string -> string)
    requires !w.timerPending
    requires forall i :: 0 <= i < |inputs| ==> LoggedOutClose(inputs[i])
    ensures !Run(w, inputs, encode).timerPending
    decreases |inputs|
  {
    if inputs != [] {
      var first := inputs[0];
      CloseLoggedOutNoRetry(w, first.update, first.now, encode);
      LoggedOutClosesNeverArm(Step(w, first, encode), inputs[1..], encode);
    }
  }

  // Every observer sees the same publishes in the same order.

  /** What client `i` of `a` has received by the time the server is in state `b`. */
  function News(a: ServerState, b: ServerState, i: int): seq<Message> {
    if 0 <= i < |a.clients| && i < |b.clients| && |a.clients[i].outbox| <= |b.clients[i].outbox|
    then b.clients[i].outbox[|a.clients[i].outbox|..]
    else []
  }

  /**
   * From `a` to `b`: no client is lost or changes transport state, a closed
   * client receives nothing, an open one only has messages appended, and all
   * open clients receive the same messages.
   */
  predicate Grows(a: ServerState, b: ServerState) {
    |a.clients| <= |b.clients| &&
    (forall i :: 0 <= i < |a.clients| ==>
      b.clients[i].readyState == a.clients[i].readyState &&
      a.clients[i].outbox <= b.clients[i].outbox &&
      (a.clients[i].readyState != OPEN ==> b.clients[i] == a.clients[i])) &&
    (forall i, j ::
      (0 <= i < |a.clients| && 0 <= j < |a.clients| &&
       a.clients[i].readyState == OPEN && a.clients[j].readyState == OPEN) ==>
      News(a, b, i) == News(a, b, j))
  }

  lemma GrowsSame(a: ServerState, b: ServerState)
    requires b.clients == a.clients
    ensures Grows(a, b)
  {
    forall i | 0 <= i < |a.clients|
      ensures News(a, b, i) == []
    {
    }
  }

  lemma GrowsPublish(w: ServerState, p: Partial)
    ensures Grows(w, Publish(w, p))
  {
    var r := Publish(w, p);
    var m := ConnectionMessage(r.conn);
    forall i | 0 <= i < |w.clients| && w.clients[i].readyState == OPEN
      ensures News(w, r, i) == [m]
    {
      assert r.clients[i].outbox == w.clients[i].outbox + [m];
    }
  }

  lemma GrowsConnect(w: ServerState)
    ensures Grows(w, Connect(w))
  {
    var r := Connect(w);
    forall i | 0 <= i < |w.clients|
      ensures r.clients[i] == w.clients[i] && News(w, r, i) == []
    {
      assert r.clients[i] == r.clients[..|w.clients|][i];
    }
  }

  lemma GrowsTrans(a: ServerState, b: ServerState, c: ServerState)
    requires Grows(a, b) && Grows(b, c)
    ensures Grows(a, c)
  {
    forall i | 0 <= i < |a.clients| && a.clients[i].readyState == OPEN
      ensures News(a, c, i) == News(a, b, i) + News(b, c, i)
    {
      var x, y, z := a.clients[i].outbox, b.clients[i].outbox, c.clients[i].outbox;
      assert x <= y && y <= z;
      assert z[|x|..] == y[|x|..] + z[|y|..];
    }
  }

  lemma GrowsSchedule(w: ServerState, now: int)
    ensures Grows(w, ScheduleReconnect(w, now))
  {
    if w.timerPending {
      GrowsSame(w, w);
    } else {
      var at := now + RECONNECT_DELAY_MS;
      GrowsPublish(w.(reconnectAt := Some(at)), ReconnectAtKeys(at));
    }
  }

  lemma GrowsStart(w: ServerState, authLoaded: bool)
    ensures Grows(w, Start(w, authLoaded).0)
  {
    var cleared := ClearReconnect(w);
    if authLoaded {
      GrowsPublish(cleared.(sock := Some(Sock(cleared.sockets, false, false)), sockets := cleared.sockets + 1), ConnectingKeys);
    } else {
      GrowsSame(w, cleared);
    }
  }

  lemma GrowsHandleUpdate(w: ServerState, u: Events.Update, now: int, encode: string -> string)
    ensures Grows(w, HandleUpdate(w, u, now, encode))
  {
    var afterQr := QrStep(w, u, encode);
    if Events.QrIssued(u) {
      GrowsPublish(w, QrKeys(encode(u.qr.value)));
    } else {
      GrowsSame(w, w);
    }
    var afterOpen := OpenStep(afterQr, u);
    if u.connection == Some(Events.Open) {
      GrowsPublish(afterQr, OpenKeys);
    } else {
      GrowsSame(afterQr, afterQr);
    }
    GrowsTrans(w, afterQr, afterOpen);
    if u.connection == Some(Events.Close) {
      var code := Events.StatusCodeFromError(u.error);
      var closed := Publish(afterOpen, CloseKeys(code, Events.Cause(u.error)));
      GrowsPublish(afterOpen, CloseKeys(code, Events.Cause(u.error)));
      GrowsTrans(w, afterOpen, closed);
      if Events.ShouldReconnect(code) {
        GrowsSchedule(closed, now);
        GrowsTrans(w, closed, ScheduleReconnect(closed, now));
      }
    }
  }

  lemma GrowsRegenerate(w: ServerState, logoutOk: bool, eraseOk: bool, authLoaded: bool)
    ensures Grows(w, Regenerate(w, logoutOk, eraseOk, authLoaded).0)
  {
    var cleared := ClearReconnect(w);
    var ended := cleared.(sock := EndSock(cleared.sock, logoutOk));
    GrowsSame(w, ended);
    if eraseOk {
      var reset := Publish(ended, SessionResetKeys);
      GrowsPublish(ended, SessionResetKeys);
      GrowsTrans(w, ended, reset);
      GrowsStart(reset, authLoaded);
      GrowsTrans(w, reset, Start(reset, authLoaded).0);
    }
  }

  lemma GrowsStep(w: ServerState, input: Input, encode: string -> string)
    ensures Grows(w, Step(w, input, encode))
  {
    match input
    case Listen(a) => GrowsStart(w, a);
    case ConnectionUpdate(u, now) => GrowsHandleUpdate(w, u, now, encode);
    case TimerFired(a) =>
      if w.timerPending {
        var cleared := w.(timerPending := false, reconnectAt := None);
        GrowsSame(w, cleared);
        GrowsStart(cleared, a);
        GrowsTrans(w, cleared, Start(cleared, a).0);
      } else {
        GrowsSame(w, w);
      }
    case RegenerateRequest(l, e, a) => GrowsRegenerate(w, l, e, a);
    case ClientJoined => GrowsConnect(w);
  }

  /**
   * Over any run, all clients that were open at its start receive the same
   * messages in the same order, and a client that was not open receives none.
   */
  lemma {:induction false} ObserversAgree(w: ServerState, inputs: seq<Input>, encode: string -> string)
    ensures Grows(w, Run(w, inputs, encode))
    decreases |inputs|
  {
    if inputs == [] {
      GrowsSame(w, w);
    } else {
      var next := Step(w, inputs[0], encode);
      GrowsStep(w, inputs[0], encode);
      ObserversAgree(next, inputs[1..], encode);
      GrowsTrans(w, next, Run(next, inputs[1..], encode));
    }
  }
}
