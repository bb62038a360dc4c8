/** What a Jingle session makes observable: the notifications its emitter
    raises, in order, and the completion callbacks of queued tasks. */
module Events {
  import opened Values

  /** The two independent state axes of a session. */
  datatype Axis = SessionAxis | ConnectionAxis

  /** Identifies the completion callback a caller handed to `process`. */
  type CallbackId = nat

  /** The payload of a compatibility-mode signal; `starttime` and the base64
      encoding of `sdp` and `candidate` are not modelled, so the raw values are kept. */
  datatype Signal = Signal(
    action: string,
    callInitiator: string,
    duration: string,
    callType: string,
    sdp: Option<Value>,
    candidate: Option<Candidate>)

  /** `label: '0'` and the candidate string, present when the payload carries a candidate. */
  datatype Candidate = Candidate(labelText: string, candidate: Option<Value>)

  /** Either the native Jingle payload or a compatibility signal. */
  datatype Body = Jingle(data: Payload) | SignalBody(signal: Signal)

  /** The envelope of a `send` notification: `{to, id, type, jingle | signal}`. */
  datatype Envelope = Envelope(to: string, id: string, kind: string, body: Body)

  datatype Event =
    /** `change:sessionState` or `change:connectionState`, carrying the new value */
    | StateChanged(axis: Axis, value: string)
    /** `change:<state>`, with `true` when the state is entered and `false` when it is left */
    | StateFlag(state: string, entered: bool)
    /** `send`, carrying the outbound envelope */
    | Sent(envelope: Envelope)
    /** `terminated`, carrying the normalised reason */
    | Terminated(reason: Value)
    /** a queued task's callback invoked as `cb(error)` (or `cb()` when error is None) */
    | Callback(cb: CallbackId, error: Option<Error>)
}
