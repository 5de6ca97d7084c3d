/**
 * What the messaging socket reports through `connection.update`, and how the
 * server reads a status code out of the disconnect error.
 */
module Events {
  import opened Nullable

  /** `DisconnectReason.loggedOut` of the messaging library. */
  const LOGGED_OUT: int := 401

  /** The `output` object of a Boom-style error. */
  datatype ErrorOutput = ErrorOutput(statusCode: Option<int>)

  /**
   * The error carried by `lastDisconnect`. `text` stands for `String(err)`,
   * whose formatting belongs to the error object and is not modelled.
   */
  datatype DisconnectError = DisconnectError(output: Option<ErrorOutput>, statusCode: Option<int>, text: string)

  /** The `connection` field of an update. */
  datatype Connection = Connecting | Open | Close

  /** One `connection.update` event; `lastDisconnect` is reduced to its error. */
  datatype Update = Update(connection: Option<Connection>, qr: Option<string>, error: Option<DisconnectError>)

  /**
   * `err?.output?.statusCode ?? err?.statusCode ?? null`: the nested code
   * when it is not nullish, else the top-level code, else null.
   */
  function StatusCodeFromError(err: Option<DisconnectError>): (r: Option<int>)
    ensures err.None? ==> r.None?
    ensures err.Some? && err.value.output.Some? && err.value.output.value.statusCode.Some? ==>
      r == err.value.output.value.statusCode
    ensures err.Some? && (err.value.output.None? || err.value.output.value.statusCode.None?) ==>
      r == err.value.statusCode
  {
    match err
    case None => None
    case Some(e) =>
      var nested := match e.output case None => None case Some(o) => o.statusCode;
      Coalesce(nested, e.statusCode)
  }

  /** `??` skips only nullish values: a nested code of 0 wins over the top-level code. */
  lemma StatusCodeZeroKept(top: Option<int>, text: string)
    ensures StatusCodeFromError(Some(DisconnectError(Some(ErrorOutput(Some(0))), top, text))) == Some(0)
  {
  }

  /** `String(lastDisconnect?.error || 'unknown')`. */
  function Cause(err: Option<DisconnectError>): (r: string)
    ensures err.None? ==> r == "unknown"
  {
    match err
    case None => "unknown"
    case Some(e) => e.text
  }

  /** `if (qr)`: an empty string is falsy and issues nothing. */
  predicate QrIssued(u: Update) {
    u.qr.Some? && u.qr.value != ""
  }

  /** `reason !== DisconnectReason.loggedOut`: a missing code counts as recoverable. */
  predicate ShouldReconnect(code: Option<int>) {
    code != Some(LOGGED_OUT)
  }
}
