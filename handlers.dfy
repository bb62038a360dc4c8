/** What a running handler raises, from its body to its callback and any
    follow-up, as a function of the session before it ran; the queue worker
    in `Session` is proved against these functions. */
module Handlers {
  import opened Values
  import opened Events
  import opened StateTracker
  import opened Dispatch
  import opened Outbound
  import opened Lifecycle

  /** The notifications and the callback of handler `h` run on a task
      `{changes, cb}` when the session state was `state`:
      `onSessionTerminate` ends silently and then calls `cb()`;
      `onContentAdd` and `onTransportReplace` call `cb()` and then send the reject;
      every other handler only calls `cb`, with the error `Reply` gives. */
  function HandlerEvents(link: Link, state: Option<string>, h: Handler, changes: Payload, cb: CallbackId): seq<Event>
    requires link.sid != ""
  {
    match h
    case EndSilently => EndEvents(link, state, Field(changes, "reason"), true) + [Callback(cb, None)]
    case AckThenReject(reject, text) => [Callback(cb, None)] + SendEvents(link, reject, Some(RejectPayload(text)))
    case _ => [Callback(cb, Reply(h, changes))]
  }

  /** `pendingAction` once handler `h` has run: only a reject it sends changes it. */
  function PendingAfterHandler(h: Handler, pending: Option<string>): (p: Option<string>)
    ensures !h.AckThenReject? ==> p == pending
    ensures h.AckThenReject? ==> (p == Some(h.reject) <==> h.reject in RequirePending)
  {
    if h.AckThenReject? then PendingAfter(h.reject) else pending
  }

  /** Every handler calls its task's callback exactly once, with the error
      `Reply` gives, whatever the mode and the state. */
  lemma AnswersOnce(link: Link, state: Option<string>, h: Handler, changes: Payload, cb: CallbackId)
    requires link.sid != ""
    ensures Count(HandlerEvents(link, state, h, changes, cb), Callbacks) == 1
    ensures Callback(cb, Reply(h, changes)) in HandlerEvents(link, state, h, changes, cb)
  {
    var es := HandlerEvents(link, state, h, changes, cb);
    var ack := Callback(cb, Reply(h, changes));
    CountOne(ack, Callbacks);
    match h
    case EndSilently =>
      var end := EndEvents(link, state, Field(changes, "reason"), true);
      var r := NormaliseReason(Field(changes, "reason"));
      var t := TransitionEvents(SessionAxis, state, "ended");
      assert end == t + [Terminated(r)];
      NoCount(t, Callbacks);
      CountOne(Terminated(r), Callbacks);
      CountAppend(t, [Terminated(r)], Callbacks);
      CountAppend(end, [ack], Callbacks);
      assert es[|es| - 1] == ack;
    case AckThenReject(reject, text) =>
      var sent := SendEvents(link, reject, Some(RejectPayload(text)));
      NoCount(sent, Callbacks);
      CountAppend([ack], sent, Callbacks);
      assert es[0] == ack;
    case _ =>
      assert es == [ack];
  }

  /** Only `onSessionTerminate` raises state notifications: every other
      handler raises only its callback and sends, neither an axis
      notification nor a `change:<value>` one. */
  lemma OthersQuiet(link: Link, state: Option<string>, h: Handler, changes: Payload, cb: CallbackId)
    requires link.sid != "" && !h.EndSilently?
    ensures Quiet(HandlerEvents(link, state, h, changes, cb))
    ensures var es := HandlerEvents(link, state, h, changes, cb);
      forall i :: 0 <= i < |es| ==> es[i].Callback? || es[i].Sent?
  {
    if h.AckThenReject? {
      var sent := SendEvents(link, h.reject, Some(RejectPayload(h.text)));
      assert forall i :: 0 <= i < |sent| ==> sent[i].Sent?;
    }
  }

  /** `onSessionTerminate` never sends: the session ends silently. */
  lemma TerminateSendsNothing(link: Link, state: Option<string>, changes: Payload, cb: CallbackId)
    requires link.sid != ""
    ensures Count(HandlerEvents(link, state, EndSilently, changes, cb), Sends) == 0
  {
    var r := NormaliseReason(Field(changes, "reason"));
    var t := TransitionEvents(SessionAxis, state, "ended");
    var end := t + [Terminated(r)];
    assert HandlerEvents(link, state, EndSilently, changes, cb) == end + [Callback(cb, None)];
    NoCount(t, Sends);
    NoCount([Terminated(r)], Sends);
    CountAppend(t, [Terminated(r)], Sends);
    NoCount([Callback(cb, None)], Sends);
    CountAppend(end, [Callback(cb, None)], Sends);
  }

  /** A peer's session-terminate ends the session silently: the state
      notifications for 'ended' unless it had already ended, `terminated` with
      the normalised reason, and only then the acknowledgement. */
  lemma PeerTerminateOrder(link: Link, state: Option<string>, changes: Payload, cb: CallbackId)
    requires link.sid != ""
    ensures var es := HandlerEvents(link, state, EndSilently, changes, cb);
      && es == TransitionEvents(SessionAxis, state, "ended")
               + [Terminated(NormaliseReason(Field(changes, "reason"))), Callback(cb, None)]
  {
  }

  /** `onContentAdd` and `onTransportReplace` acknowledge first; in native mode
      the reject then goes out, carrying failed-application and the
      explanatory text. */
  lemma AckBeforeReject(link: Link, state: Option<string>, reject: string, text: string, changes: Payload, cb: CallbackId)
    requires link.sid != "" && !Compat(link)
    ensures var es := HandlerEvents(link, state, AckThenReject(reject, text), changes, cb);
      && |es| == 2 && es[0] == Callback(cb, None)
      && es[1] == Sent(Envelope(link.peer, link.sid, "set", Jingle(Stamp(Some(RejectPayload(text)), link.sid, reject))))
      && Member(Field(es[1].envelope.body.data, "reason"), "condition") == Str("failed-application")
      && Field(es[1].envelope.body.data, "action") == Str(reject)
  {
    var stamped := Stamp(Some(RejectPayload(text)), link.sid, reject);
    NativeEnvelope(link, reject, stamped);
    StampFields(Some(RejectPayload(text)), link.sid, reject);
  }
}
