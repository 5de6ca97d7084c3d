/**
 * Whole runs of the orchestrator, and the places where the published record
 * keeps less than one might expect.
 */
module Scenarios {
  import opened Nullable
  import opened Record
  import opened Broadcast
  import Events
  import opened Transitions

  const OpenUpdate := Events.Update(Some(Events.Open), None, None)

  function CloseUpdate(err: Option<Events.DisconnectError>): Events.Update {
    Events.Update(Some(Events.Close), None, err)
  }

  /**
   * A client connected at process start sees starting, connecting, open,
   * and the record ends with qr, statusCode and reconnectAt null.
   */
  lemma OpenAfterBoot(now: int, encode: string -> string)
    ensures var (started, _) := Start(Connect(Boot), true);
      var r := HandleUpdate(started, OpenUpdate, now, encode);
      r.conn == ConnectionState(Open, None, None, None, None) &&
      !r.timerPending &&
      r.clients == [Client(OPEN, [
        ConnectionMessage(Initial),
        ConnectionMessage(ConnectionState(Connecting, None, None, None, None)),
        ConnectionMessage(ConnectionState(Open, None, None, None, None))])]
  {
    var booted := Connect(Boot);
    assert booted.clients == [Client(OPEN, [ConnectionMessage(Initial)])];
    var connecting := ConnectionState(Connecting, None, None, None, None);
    var (started, _) := Start(booted, true);
    assert started.conn == connecting;
    var first := Deliver(booted.clients, ConnectionMessage(connecting));
    assert |first| == 1 && first[0].readyState == OPEN;
    assert first[0].outbox == [ConnectionMessage(Initial)] + [ConnectionMessage(connecting)];
    assert started.clients == first;
    assert first[0] == Client(OPEN, [ConnectionMessage(Initial), ConnectionMessage(connecting)]);
    assert first == [first[0]];
    var r := HandleUpdate(started, OpenUpdate, now, encode);
    var isOpen := ConnectionState(Open, None, None, None, None);
    assert r.conn == isOpen;
    var second := Deliver(first, ConnectionMessage(isOpen));
    assert r.clients == second;
    assert |second| == 1 && second[0].readyState == OPEN;
    assert second[0].outbox == [ConnectionMessage(Initial), ConnectionMessage(connecting), ConnectionMessage(isOpen)];
  }

  /**
   * A recoverable close publishes close with its status code and arms the
   * retry due 60000 ms later; when it fires (and the auth state loads) the
   * record is back to connecting with reconnectAt cleared, but the cause of
   * the close is still published in lastDisconnect.
   */
  lemma RecoverableCloseRetries(w: ServerState, err: Option<Events.DisconnectError>, now: int, encode: string -> string)
    requires Valid(w) && !w.timerPending
    requires Events.StatusCodeFromError(err) != Some(Events.LOGGED_OUT)
    ensures var closed := HandleUpdate(w, CloseUpdate(err), now, encode);
      closed.conn.state == Close && closed.conn.statusCode == Events.StatusCodeFromError(err) &&
      closed.timerPending && closed.reconnectAt == Some(now + 60000) &&
      var retried := FireReconnectTimer(closed, true);
      retried.conn.state == Connecting && retried.conn.reconnectAt.None? &&
      !retried.timerPending &&
      retried.conn.lastDisconnect == Some(Events.Cause(err))
  {
  }

  /**
   * A logged-out close stays at close with no retry pending; regenerating the
   * session then publishes session-reset and connecting, in that order.
   */
  lemma LoggedOutThenRegenerate(w: ServerState, err: Option<Events.DisconnectError>, now: int,
                                encode: string -> string, logoutOk: bool, i: int)
    requires Valid(w) && !w.timerPending
    requires Events.StatusCodeFromError(err) == Some(Events.LOGGED_OUT)
    requires 0 <= i < |w.clients| && w.clients[i].readyState == OPEN
    ensures var closed := HandleUpdate(w, CloseUpdate(err), now, encode);
      closed.conn.state == Close && !closed.timerPending &&
      var (r, resp) := Regenerate(closed, logoutOk, true, true);
      resp == Response(200, true) &&
      r.conn.state == Connecting &&
      r.clients[i].outbox == closed.clients[i].outbox + [
        ConnectionMessage(ConnectionState(SessionReset, None, None, None, closed.conn.reconnectAt)),
        ConnectionMessage(ConnectionState(Connecting, None, None, None, None))]
  {
  }

  /**
   * Regenerating while a retry is pending cancels it, replaces the socket
   * and answers `{ok:true}`.
   */
  lemma RegenerateCancelsPendingRetry(w: ServerState, logoutOk: bool)
    requires Valid(w) && w.timerPending
    ensures var (r, resp) := Regenerate(w, logoutOk, true, true);
      resp == Response(200, true) && !r.timerPending && r.reconnectAt.None? &&
      r.sock == Some(Sock(w.sockets, false, false)) && r.conn.state == Connecting
  {
  }

  // Where the published record keeps less than one might expect

  /**
   * Cancelling a retry does not clear the published reconnectAt: when the
   * start of a regeneration fails, the record still announces a retry time
   * although no timer is pending.
   */
  lemma PublishedReconnectAtOutlivesTimer(w: ServerState, logoutOk: bool)
    requires Valid(w) && w.timerPending && w.conn.reconnectAt.Some?
    ensures var (r, resp) := Regenerate(w, logoutOk, true, false);
      resp == Response(500, false) &&
      !r.timerPending && r.conn.state == SessionReset && r.conn.reconnectAt == w.conn.reconnectAt
  {
  }

  /**
   * The open branch does not cancel a pending retry: an open received while
   * one is pending is followed by a restart when the timer fires.
   */
  lemma PendingRetryRestartsOpenConnection(w: ServerState, now: int, encode: string -> string)
    requires Valid(w) && w.timerPending
    ensures var afterOpen := HandleUpdate(w, OpenUpdate, now, encode);
      afterOpen.conn.state == Open && afterOpen.conn.reconnectAt.None? && afterOpen.timerPending &&
      var restarted := FireReconnectTimer(afterOpen, true);
      restarted.conn.state == Connecting && restarted.sock == Some(Sock(w.sockets, false, false))
  {
  }
}
