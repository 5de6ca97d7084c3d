/**
 * The shared `connectionState` record of the server, the partial records
 * passed to `updateAndBroadcast`, and the shallow spread-merge between them.
 */
module Record {
  import opened Nullable

  /** The values `connectionState.state` takes. */
  datatype Phase = Starting | Connecting | Qr | Open | Close | SessionReset

  datatype ConnectionState = ConnectionState(
    state: Phase,
    qr: Option<string>,              // QR image as a data URL
    statusCode: Option<int>,
    lastDisconnect: Option<string>,  // stringified cause of the last close
    reconnectAt: Option<int>)        // ms timestamp of the pending retry, as published

  /** The record as the process creates it. */
  const Initial := ConnectionState(Starting, None, None, None, None)

  /**
   * An object literal spread into the record: `None` means the key is absent,
   * `Some(v)` that it is present with value `v` (which may itself be null).
   */
  datatype Partial = Partial(
    state: Option<Phase>,
    qr: Option<Option<string>>,
    statusCode: Option<Option<int>>,
    lastDisconnect: Option<Option<string>>,
    reconnectAt: Option<Option<int>>)

  function Pick<T>(base: T, key: Option<T>): T {
    match key
    case Some(v) => v
    case None => base
  }

  /**
   * `{ ...s, ...p }`: every key present in `p` takes its value from `p`,
   * every other key keeps its value from `s`.
   */
  function Merge(s: ConnectionState, p: Partial): (r: ConnectionState)
    ensures p.state.Some? ==> r.state == p.state.value
    ensures p.state.None? ==> r.state == s.state
    ensures p.qr.Some? ==> r.qr == p.qr.value
    ensures p.qr.None? ==> r.qr == s.qr
    ensures p.statusCode.Some? ==> r.statusCode == p.statusCode.value
    ensures p.statusCode.None? ==> r.statusCode == s.statusCode
    ensures p.lastDisconnect.Some? ==> r.lastDisconnect == p.lastDisconnect.value
    ensures p.lastDisconnect.None? ==> r.lastDisconnect == s.lastDisconnect
    ensures p.reconnectAt.Some? ==> r.reconnectAt == p.reconnectAt.value
    ensures p.reconnectAt.None? ==> r.reconnectAt == s.reconnectAt
  {
    ConnectionState(
      Pick(s.state, p.state),
      Pick(s.qr, p.qr),
      Pick(s.statusCode, p.statusCode),
      Pick(s.lastDisconnect, p.lastDisconnect),
      Pick(s.reconnectAt, p.reconnectAt))
  }

  /** `{ ...p, ...q }`: the keys of `q` win over those of `p`. */
  function Then(p: Partial, q: Partial): Partial {
    Partial(
      Coalesce(q.state, p.state),
      Coalesce(q.qr, p.qr),
      Coalesce(q.statusCode, p.statusCode),
      Coalesce(q.lastDisconnect, p.lastDisconnect),
      Coalesce(q.reconnectAt, p.reconnectAt))
  }

  /** Merging the same partial twice is the same as merging it once. */
  lemma MergeIdempotent(s: ConnectionState, p: Partial)
    ensures Merge(Merge(s, p), p) == Merge(s, p)
  {
  }

  /** Two successive merges are one merge of the combined partial. */
  lemma MergeThen(s: ConnectionState, p: Partial, q: Partial)
    ensures Merge(Merge(s, p), q) == Merge(s, Then(p, q))
  {
  }

  // The partial records the transitions of server.js publish.

  /** `startWhatsApp`: state connecting, lastDisconnect left out. */
  const ConnectingKeys := Partial(Some(Connecting), Some(None), Some(None), None, Some(None))

  /** A QR challenge was issued and encoded as `image`. */
  function QrKeys(image: string): Partial {
    Partial(Some(Qr), Some(Some(image)), Some(None), Some(None), None)
  }

  const OpenKeys := Partial(Some(Open), Some(None), Some(None), Some(None), Some(None))

  /** A close with extracted status `code` and stringified `cause`; reconnectAt left out. */
  function CloseKeys(code: Option<int>, cause: string): Partial {
    Partial(Some(Close), Some(None), Some(code), Some(Some(cause)), None)
  }

  /** Session regeneration; reconnectAt left out. */
  const SessionResetKeys := Partial(Some(SessionReset), Some(None), Some(None), Some(None), None)

  /** `updateAndBroadcast({ reconnectAt })` in `scheduleReconnect`. */
  function ReconnectAtKeys(at: int): Partial {
    Partial(None, None, None, None, Some(Some(at)))
  }

  /** A QR is held only in phase qr, a status code only in phase close. */
  predicate PhaseConsistent(s: ConnectionState) {
    (s.qr.Some? ==> s.state == Qr) && (s.statusCode.Some? ==> s.state == Close)
  }

  /** A partial that sets the phase together with a qr and a status code that fit it. */
  predicate SetsPhase(p: Partial) {
    p.state.Some? && p.qr.Some? && p.statusCode.Some? &&
    (p.qr.value.Some? ==> p.state.value == Qr) &&
    (p.statusCode.value.Some? ==> p.state.value == Close)
  }

  /** A partial that touches neither the phase, nor the qr, nor the status code. */
  predicate LeavesPhase(p: Partial) {
    p.state.None? && p.qr.None? && p.statusCode.None?
  }

  /** Why PhaseConsistent survives every publish of server.js. */
  lemma MergeKeepsPhaseConsistent(s: ConnectionState, p: Partial)
    requires PhaseConsistent(s)
    requires SetsPhase(p) || LeavesPhase(p)
    ensures PhaseConsistent(Merge(s, p))
  {
  }

  /** Every partial server.js publishes is of one of the two kinds above. */
  lemma TransitionKeysKinds(image: string, code: Option<int>, cause: string, at: int)
    ensures SetsPhase(ConnectingKeys) && SetsPhase(QrKeys(image)) && SetsPhase(OpenKeys)
    ensures SetsPhase(CloseKeys(code, cause)) && SetsPhase(SessionResetKeys)
    ensures LeavesPhase(ReconnectAtKeys(at))
  {
  }
}
