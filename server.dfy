/**
 * The module-level state of server.js as one object whose methods update it
 * in place, each proved to leave the state its Transitions function gives.
 */
module Server {
  import opened Nullable
  import opened Record
  import opened Broadcast
  import Events
  import T = Transitions

  class Orchestrator {
    var conn: ConnectionState      // connectionState
    var timerPending: bool         // reconnectTimer !== null
    var reconnectAt: Option<int>   // the module variable
    var sock: Option<T.Sock>
    var sockets: nat
    var clients: seq<Client>       // wss.clients

    /** The whole state as a value. */
    function State(): T.ServerState
      reads this
    {
      T.ServerState(conn, timerPending, reconnectAt, sock, sockets, clients)
    }

    /** Process start: state starting, no timer, no socket, no client. */
    constructor ()
      ensures State() == T.Boot && T.Valid(State())
    {
      conn := Initial;
      timerPending := false;
      reconnectAt := None;
      sock := None;
      sockets := 0;
      clients := [];
    }

    /** `broadcast(m)`: the clients are visited in order and each open one is sent `m`. */
    method Broadcast(m: Message)
      modifies this
      ensures clients == Deliver(old(clients), m)
      ensures conn == old(conn) && timerPending == old(timerPending) && reconnectAt == old(reconnectAt)
      ensures sock == old(sock) && sockets == old(sockets)
    {
      var i := 0;
      while i < |clients|
        invariant 0 <= i <= |clients| == |old(clients)|
        invariant forall k :: 0 <= k < i && old(clients)[k].readyState == OPEN ==> clients[k] == Send(old(clients)[k], m)
        invariant forall k :: 0 <= k < i && old(clients)[k].readyState != OPEN ==> clients[k] == old(clients)[k]
        invariant clients[i..] == old(clients)[i..]
        invariant conn == old(conn) && timerPending == old(timerPending) && reconnectAt == old(reconnectAt)
        invariant sock == old(sock) && sockets == old(sockets)
      {
        if clients[i].readyState == OPEN {
          clients := clients[i := Send(clients[i], m)];
        }
        i := i + 1;
      }
      var want := Deliver(old(clients), m);
      assert |clients| == |want|;
      forall k | 0 <= k < |clients|
        ensures clients[k] == want[k]
      {
      }
    }

    /** `updateAndBroadcast(p)`. */
    method UpdateAndBroadcast(p: Partial)
      modifies this
      ensures State() == T.Publish(old(State()), p)
    {
      conn := Merge(conn, p);
      Broadcast(ConnectionMessage(conn));
    }

    /** `clearReconnect()`. */
    method ClearReconnect()
      modifies this
      ensures State() == T.ClearReconnect(old(State()))
      ensures !timerPending
    {
      if timerPending {
        timerPending := false;
        reconnectAt := None;
      }
    }

    /** `scheduleReconnect()` at clock time `now`: publish the due time, then arm. */
    method ScheduleReconnect(now: int)
      modifies this
      ensures State() == T.ScheduleReconnect(old(State()), now)
      ensures timerPending
    {
      if timerPending {
        return;
      }
      reconnectAt := Some(now + T.RECONNECT_DELAY_MS);
      UpdateAndBroadcast(ReconnectAtKeys(now + T.RECONNECT_DELAY_MS));
      timerPending := true;
    }

    /** `startWhatsApp()`; `ok` is false when loading the auth state fails. */
    method StartWhatsApp(authLoaded: bool) returns (ok: bool)
      modifies this
      ensures (State(), ok) == T.Start(old(State()), authLoaded)
    {
      ClearReconnect();
      if !authLoaded {
        return false;
      }
      sock := Some(T.Sock(sockets, false, false));
      sockets := sockets + 1;
      UpdateAndBroadcast(ConnectingKeys);
      ok := true;
    }

    /** The reconnect timer's callback; a rejected start is not reported anywhere. */
    method FireReconnectTimer(authLoaded: bool)
      requires timerPending
      modifies this
      ensures State() == T.FireReconnectTimer(old(State()), authLoaded)
    {
      timerPending := false;
      reconnectAt := None;
      var _ := StartWhatsApp(authLoaded);
    }

    /** The `connection.update` handler, its branches run in source order. */
    method HandleConnectionUpdate(u: Events.Update, now: int, encode: string -> string)
      modifies this
      ensures State() == T.HandleUpdate(old(State()), u, now, encode)
    {
      if Events.QrIssued(u) {
        UpdateAndBroadcast(QrKeys(encode(u.qr.value)));
      }
      ghost var afterQr := State();
      if u.connection == Some(Events.Open) {
        UpdateAndBroadcast(OpenKeys);
      }
      ghost var afterOpen := State();
      assert afterOpen == T.OpenStep(afterQr, u);
      if u.connection == Some(Events.Close) {
        var statusCode := Events.StatusCodeFromError(u.error);
        var shouldReconnect := Events.ShouldReconnect(statusCode);
        UpdateAndBroadcast(CloseKeys(statusCode, Events.Cause(u.error)));
        if shouldReconnect {
          ScheduleReconnect(now);
        }
      }
    }

    /** The `/api/regenerate-session` handler. */
    method RegenerateSession(logoutOk: bool, eraseOk: bool, authLoaded: bool) returns (resp: T.Response)
      modifies this
      ensures (State(), resp) == T.Regenerate(old(State()), logoutOk, eraseOk, authLoaded)
    {
      ClearReconnect();
      if sock.Some? {
        // a failed logout is only logged; the socket is ended either way
        sock := Some(T.Sock(sock.value.generation, sock.value.loggedOut || logoutOk, true));
      }
      if !eraseOk {
        return T.Response(500, false);
      }
      UpdateAndBroadcast(SessionResetKeys);
      var started := StartWhatsApp(authLoaded);
      if !started {
        return T.Response(500, false);
      }
      resp := T.Response(200, true);
    }

    /** The `wss` on-connection handler: the new client is sent the current snapshot. */
    method ClientConnected()
      modifies this
      ensures State() == T.Connect(old(State()))
    {
      clients := clients + [Client(OPEN, [ConnectionMessage(conn)])];
    }
  }
}
