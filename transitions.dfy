/**
 * The connection-state orchestrator of server.js as functions on the whole
 * module-level state: one function per operation, each the specification of
 * the method of `Server.Orchestrator` that performs it step by step.
 */
module Transitions {
  import opened Nullable
  import opened Record
  import opened Broadcast
  import Events

  const RECONNECT_DELAY_MS: int := 60000

  /** The socket held in `sock`: which one it is, whether logout succeeded on it, whether it was ended. */
  datatype Sock = Sock(generation: nat, loggedOut: bool, ended: bool)

  datatype ServerState = ServerState(
    conn: ConnectionState,     // connectionState
    timerPending: bool,        // reconnectTimer !== null
    reconnectAt: Option<int>,  // the module variable, not the published field
    sock: Option<Sock>,
    sockets: nat,              // sockets created so far
    clients: seq<Client>)      // wss.clients

  const Boot := ServerState(Initial, false, None, None, 0, [])

  /** The response of `POST /api/regenerate-session`. */
  datatype Response = Response(status: int, ok: bool)

  /** What every operation keeps true. */
  predicate Valid(w: ServerState) {
    PhaseConsistent(w.conn) &&
    (w.timerPending <==> w.reconnectAt.Some?) &&
    (w.sock.Some? ==> w.sock.value.generation < w.sockets)
  }

  /** `updateAndBroadcast(p)`. */
  function Publish(w: ServerState, p: Partial): ServerState {
    var c := Merge(w.conn, p);
    w.(conn := c, clients := Deliver(w.clients, ConnectionMessage(c)))
  }

  /** `clearReconnect()`. */
  function ClearReconnect(w: ServerState): ServerState {
    if w.timerPending then w.(timerPending := false, reconnectAt := None) else w
  }

  /** `scheduleReconnect()` at clock time `now`. */
  function ScheduleReconnect(w: ServerState, now: int): ServerState {
    if w.timerPending then w
    else
      var at := now + RECONNECT_DELAY_MS;
      var published := Publish(w.(reconnectAt := Some(at)), ReconnectAtKeys(at));
      published.(timerPending := true)
  }

  /**
   * `startWhatsApp()`, where `authLoaded` is whether loading the auth state
   * succeeded; the boolean is false when the call rejects.
   */
  function Start(w: ServerState, authLoaded: bool): (ServerState, bool) {
    var cleared := ClearReconnect(w);
    if !authLoaded then (cleared, false)
    else
      var withSock := cleared.(sock := Some(Sock(cleared.sockets, false, false)), sockets := cleared.sockets + 1);
      (Publish(withSock, ConnectingKeys), true)
  }

  /** The callback of the reconnect timer. */
  function FireReconnectTimer(w: ServerState, authLoaded: bool): ServerState
    requires w.timerPending
  {
    Start(w.(timerPending := false, reconnectAt := None), authLoaded).0
  }

  /** The `if (qr)` branch of the `connection.update` handler. */
  function QrStep(w: ServerState, u: Events.Update, encode: string -> string): ServerState {
    if Events.QrIssued(u) then Publish(w, QrKeys(encode(u.qr.value))) else w
  }

  /** The `connection === 'open'` branch. */
  function OpenStep(w: ServerState, u: Events.Update): ServerState {
    if u.connection == Some(Events.Open) then Publish(w, OpenKeys) else w
  }

  /** The `connection === 'close'` branch. */
  function CloseStep(w: ServerState, u: Events.Update, now: int): ServerState {
    if u.connection == Some(Events.Close) then
      var code := Events.StatusCodeFromError(u.error);
      var closed := Publish(w, CloseKeys(code, Events.Cause(u.error)));
      if Events.ShouldReconnect(code) then ScheduleReconnect(closed, now) else closed
    else w
  }

  /** The whole `connection.update` handler: the branches in source order. */
  function HandleUpdate(w: ServerState, u: Events.Update, now: int, encode: string -> string): ServerState {
    CloseStep(OpenStep(QrStep(w, u, encode), u), u, now)
  }

  /** The socket after the regenerate handler's logout attempt and `sock.end`. */
  function EndSock(s: Option<Sock>, logoutOk: bool): Option<Sock> {
    match s
    case None => None
    case Some(k) => Some(Sock(k.generation, k.loggedOut || logoutOk, true))
  }

  /**
   * The `/api/regenerate-session` handler; `logoutOk`, `eraseOk` and
   * `authLoaded` are the outcomes of `sock.logout()`, `fs.rm` and the
   * auth-state load inside `startWhatsApp`.
   */
  function Regenerate(w: ServerState, logoutOk: bool, eraseOk: bool, authLoaded: bool): (ServerState, Response) {
    var cleared := ClearReconnect(w);
    var ended := cleared.(sock := EndSock(cleared.sock, logoutOk));
    if !eraseOk then (ended, Response(500, false))
    else
      var reset := Publish(ended, SessionResetKeys);
      var (started, ok) := Start(reset, authLoaded);
      (started, if ok then Response(200, true) else Response(500, false))
  }

  /** The `wss` on-connection handler: a new open client is sent the current snapshot. */
  function Connect(w: ServerState): ServerState {
    w.(clients := Admit(w.clients, w.conn))
  }

  // ---------------------------------------------------------------------
  // Properties of the operations

  lemma BootValid()
    ensures Valid(Boot) && Boot.conn.state == Starting
  {
  }

  /**
   * A publish merges the partial into the record and sends every open client
   * exactly one message, the merged record; nothing else changes.
   */
  lemma PublishOneSnapshot(w: ServerState, p: Partial)
    ensures var r := Publish(w, p);
      r.conn == Merge(w.conn, p) &&
      |r.clients| == |w.clients| &&
      (forall i :: 0 <= i < |w.clients| && w.clients[i].readyState == OPEN ==>
        r.clients[i].outbox == w.clients[i].outbox + [ConnectionMessage(r.conn)]) &&
      (forall i :: 0 <= i < |w.clients| && w.clients[i].readyState != OPEN ==> r.clients[i] == w.clients[i]) &&
      r.timerPending == w.timerPending && r.reconnectAt == w.reconnectAt &&
      r.sock == w.sock && r.sockets == w.sockets
  {
  }

  /**
   * `clearReconnect` leaves no timer pending, is a no-op when none is, and
   * leaves the published record (its reconnectAt included) untouched.
   */
  lemma ClearReconnectSpec(w: ServerState)
    ensures var r := ClearReconnect(w);
      !r.timerPending && (Valid(w) ==> r.reconnectAt.None?) &&
      r.conn == w.conn && r.clients == w.clients && r.sock == w.sock &&
      (!w.timerPending ==> r == w) &&
      ClearReconnect(r) == r &&
      (Valid(w) ==> Valid(r))
  {
  }

  /** With a timer pending, `scheduleReconnect` changes nothing and broadcasts nothing. */
  lemma ScheduleReconnectPending(w: ServerState, now: int)
    requires w.timerPending
    ensures ScheduleReconnect(w, now) == w
  {
  }

  /**
   * Without a pending timer, `scheduleReconnect` arms one, due at now + 60000,
   * and publishes that time (and only it) to every open client.
   */
  lemma ScheduleReconnectArms(w: ServerState, now: int)
    requires !w.timerPending
    ensures var r := ScheduleReconnect(w, now);
      r.timerPending && r.reconnectAt == Some(now + 60000) &&
      r.conn == Merge(w.conn, ReconnectAtKeys(now + 60000)) &&
      r.conn.reconnectAt == Some(now + 60000) &&
      (forall i :: 0 <= i < |w.clients| && w.clients[i].readyState == OPEN ==>
        r.clients[i].outbox == w.clients[i].outbox + [ConnectionMessage(r.conn)]) &&
      (forall i :: 0 <= i < |w.clients| && w.clients[i].readyState != OPEN ==> r.clients[i] == w.clients[i]) &&
      r.sock == w.sock
  {
  }

  /** A second schedule, at any time, adds nothing to the first. */
  lemma ScheduleReconnectIdempotent(w: ServerState, now: int, later: int)
    ensures ScheduleReconnect(ScheduleReconnect(w, now), later) == ScheduleReconnect(w, now)
  {
  }

  lemma ScheduleReconnectValid(w: ServerState, now: int)
    requires Valid(w)
    ensures Valid(ScheduleReconnect(w, now))
  {
  }

  /**
   * `startWhatsApp` first cancels any pending retry. When the auth state
   * loads it opens a fresh socket and publishes phase connecting with qr,
   * statusCode and reconnectAt null and lastDisconnect kept; otherwise it
   * fails having changed nothing but the timer.
   */
  lemma StartSpec(w: ServerState, authLoaded: bool)
    ensures var (r, ok) := Start(w, authLoaded);
      ok == authLoaded &&
      !r.timerPending && (Valid(w) ==> r.reconnectAt.None?) &&
      (authLoaded ==>
        r.conn == ConnectionState(Connecting, None, None, w.conn.lastDisconnect, None) &&
        r.sock == Some(Sock(w.sockets, false, false)) && r.sockets == w.sockets + 1 &&
        (forall i :: 0 <= i < |w.clients| && w.clients[i].readyState == OPEN ==>
          r.clients[i].outbox == w.clients[i].outbox + [ConnectionMessage(r.conn)])) &&
      (!authLoaded ==> r == ClearReconnect(w)) &&
      (Valid(w) ==> Valid(r))
  {
  }

  /**
   * When the timer fires it drops the pending flag and the module reconnectAt
   * before starting, so the start's own clearReconnect finds nothing to do.
   */
  lemma FireReconnectTimerSpec(w: ServerState, authLoaded: bool)
    requires w.timerPending
    ensures var cleared := w.(timerPending := false, reconnectAt := None);
      ClearReconnect(cleared) == cleared &&
      FireReconnectTimer(w, authLoaded) == Start(cleared, authLoaded).0
    ensures var r := FireReconnectTimer(w, authLoaded);
      !r.timerPending && r.reconnectAt.None? &&
      (authLoaded ==> r.conn.state == Connecting && r.conn.reconnectAt.None?) &&
      (!authLoaded ==> r.conn == w.conn && r.clients == w.clients && r.sock == w.sock)
    ensures Valid(w) ==> Valid(FireReconnectTimer(w, authLoaded))
  {
  }

  /** A close whose status code is the logged-out reason never arms a timer. */
  lemma CloseLoggedOutNoRetry(w: ServerState, u: Events.Update, now: int, encode: string -> string)
    requires u.connection == Some(Events.Close)
    requires Events.StatusCodeFromError(u.error) == Some(Events.LOGGED_OUT)
    ensures var r := HandleUpdate(w, u, now, encode);
      r.timerPending == w.timerPending && r.reconnectAt == w.reconnectAt
  {
  }

  /**
   * A close with any other status code, a missing one included, leaves a
   * retry pending: a new one due at now + 60000 unless one already was.
   */
  lemma CloseOtherRetries(w: ServerState, u: Events.Update, now: int, encode: string -> string)
    requires u.connection == Some(Events.Close)
    requires Events.StatusCodeFromError(u.error) != Some(Events.LOGGED_OUT)
    ensures var r := HandleUpdate(w, u, now, encode);
      r.timerPending &&
      (!w.timerPending ==> r.reconnectAt == Some(now + 60000) && r.conn.reconnectAt == Some(now + 60000)) &&
      (w.timerPending ==> r.reconnectAt == w.reconnectAt)
  {
  }

  /**
   * A close always publishes phase close with the extracted status code, a
   * null qr and a non-null cause ("unknown" when the update has no error).
   */
  lemma CloseOutcome(w: ServerState, u: Events.Update, now: int, encode: string -> string)
    requires u.connection == Some(Events.Close)
    ensures var r := HandleUpdate(w, u, now, encode);
      r.conn.state == Close && r.conn.qr.None? &&
      r.conn.statusCode == Events.StatusCodeFromError(u.error) &&
      r.conn.lastDisconnect == Some(Events.Cause(u.error)) &&
      r.conn.lastDisconnect.Some?
  {
  }

  /**
   * An open publishes phase open with qr, statusCode, lastDisconnect and
   * reconnectAt null, but leaves a pending timer armed.
   */
  lemma OpenOutcome(w: ServerState, u: Events.Update, now: int, encode: string -> string)
    requires u.connection == Some(Events.Open)
    ensures var r := HandleUpdate(w, u, now, encode);
      r.conn == ConnectionState(Open, None, None, None, None) &&
      r.timerPending == w.timerPending && r.reconnectAt == w.reconnectAt
  {
  }

  /** An issued QR alone publishes phase qr with the encoded image. */
  lemma QrOutcome(w: ServerState, u: Events.Update, now: int, encode: string -> string)
    requires Events.QrIssued(u) && u.connection.None?
    ensures var r := HandleUpdate(w, u, now, encode);
      r.conn.state == Qr && r.conn.qr == Some(encode(u.qr.value)) &&
      r.conn.statusCode.None? && r.conn.lastDisconnect.None? &&
      r.conn.reconnectAt == w.conn.reconnectAt && r.timerPending == w.timerPending
  {
  }

  /** An update with neither a non-empty qr nor an open or close changes nothing. */
  lemma QuietUpdate(w: ServerState, u: Events.Update, now: int, encode: string -> string)
    requires !Events.QrIssued(u)
    requires u.connection.None? || u.connection == Some(Events.Connecting)
    ensures HandleUpdate(w, u, now, encode) == w
  {
  }

  lemma HandleUpdateValid(w: ServerState, u: Events.Update, now: int, encode: string -> string)
    requires Valid(w)
    ensures Valid(HandleUpdate(w, u, now, encode))
  {
  }

  /**
   * Regeneration: the timer is cancelled, an existing socket is ended (and
   * marked logged out when logout succeeded), then, only if the erase
   * succeeded, session-reset and then (when start succeeds) connecting are
   * published, in that order, to every open client. The response is
   * `{ok:true}` with 200 exactly when both the erase and the start succeed.
   */
  lemma RegenerateSpec(w: ServerState, logoutOk: bool, eraseOk: bool, authLoaded: bool)
    ensures var (r, resp) := Regenerate(w, logoutOk, eraseOk, authLoaded);
      resp == (if eraseOk && authLoaded then Response(200, true) else Response(500, false)) &&
      !r.timerPending && (Valid(w) ==> r.reconnectAt.None?) &&
      (!eraseOk ==> r.conn == w.conn && r.clients == w.clients && r.sock == EndSock(w.sock, logoutOk)) &&
      (eraseOk ==>
        var reset := ConnectionState(SessionReset, None, None, None, w.conn.reconnectAt);
        var connecting := ConnectionState(Connecting, None, None, None, None);
        forall i :: 0 <= i < |w.clients| && w.clients[i].readyState == OPEN ==>
          r.clients[i].outbox == w.clients[i].outbox + [ConnectionMessage(reset)] +
            (if authLoaded then [ConnectionMessage(connecting)] else [])) &&
      (eraseOk && !authLoaded ==> r.conn.state == SessionReset && r.sock == EndSock(w.sock, logoutOk)) &&
      (eraseOk && authLoaded ==>
        r.conn == ConnectionState(Connecting, None, None, None, None) &&
        r.sock == Some(Sock(w.sockets, false, false))) &&
      (Valid(w) ==> Valid(r))
  {
  }

  /**
   * A newly connected client is sent the current record and nothing else;
   * the record and the other clients are left as they were.
   */
  lemma ConnectSpec(w: ServerState)
    ensures var r := Connect(w);
      r.conn == w.conn && r.clients[..|w.clients|] == w.clients &&
      r.clients[|w.clients|] == Client(OPEN, [ConnectionMessage(w.conn)]) &&
      (Valid(w) ==> Valid(r))
  {
  }
}
