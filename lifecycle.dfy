/** What `end(reason, silent)` makes observable, as functions of the state
    before the call, and what that implies for repeated and silent ends. */
module Lifecycle {
  import opened Values
  import opened Events
  import opened StateTracker
  import opened Outbound

  /** `end`'s reason: a falsy reason becomes 'success', and a string becomes
      `{condition: reason}`; any other value is kept as given. */
  function NormaliseReason(reason: Value): (r: Value)
    ensures Truthy(r) && !r.Str?
    ensures !Truthy(reason) ==> r == Obj(map["condition" := Str("success")])
    ensures reason.Str? && reason.s != "" ==> r == Obj(map["condition" := reason])
    ensures Truthy(reason) && !reason.Str? ==> r == reason
  {
    var r := if Truthy(reason) then reason else Str("success");
    if r.Str? then Obj(map["condition" := r]) else r
  }

  /** A reason that has been normalised once is left alone by a second pass. */
  lemma NormaliseIdempotent(reason: Value)
    ensures NormaliseReason(NormaliseReason(reason)) == NormaliseReason(reason)
  {
  }

  /** The payload of the session-terminate that `end` sends. */
  function TerminatePayload(reason: Value): Payload
  {
    map["reason" := reason]
  }

  /** Everything one `end(reason, silent)` raises when the session state was `state`:
      the state notifications for 'ended', the session-terminate unless silent,
      and `terminated` with the normalised reason. */
  function EndEvents(link: Link, state: Option<string>, reason: Value, silent: bool): seq<Event>
    requires link.sid != ""
  {
    var r := NormaliseReason(reason);
    TransitionEvents(SessionAxis, state, "ended")
    + (if silent then [] else SendEvents(link, "session-terminate", Some(TerminatePayload(r))))
    + [Terminated(r)]
  }

  /** The kinds of notification counted: `send`s and task callbacks. */
  datatype Kind = Sends | Callbacks

  predicate OfKind(e: Event, k: Kind)
  {
    match k
    case Sends => e.Sent?
    case Callbacks => e.Callback?
  }

  /** How many notifications of kind `k` a stretch of events holds. */
  function Count(es: seq<Event>, k: Kind): nat
    decreases |es|
  {
    if es == [] then 0 else Count(es[..|es| - 1], k) + (if OfKind(es[|es| - 1], k) then 1 else 0)
  }

  lemma {:induction false} CountAppend(a: seq<Event>, b: seq<Event>, k: Kind)
    ensures Count(a + b, k) == Count(a, k) + Count(b, k)
    decreases |b|
  {
    if b == [] {
      assert a + b == a;
    } else {
      var n := |b| - 1;
      assert (a + b)[..|a + b| - 1] == a + b[..n];
      assert (a + b)[|a + b| - 1] == b[n];
      CountAppend(a, b[..n], k);
    }
  }

  lemma {:induction false} NoCount(es: seq<Event>, k: Kind)
    requires forall i :: 0 <= i < |es| ==> !OfKind(es[i], k)
    ensures Count(es, k) == 0
    decreases |es|
  {
    if es != [] {
      NoCount(es[..|es| - 1], k);
    }
  }

  /** A single event counts once, under its own kind only. */
  lemma CountOne(e: Event, k: Kind)
    ensures Count([e], k) == if OfKind(e, k) then 1 else 0
  {
    assert [e][..0] == [];
  }

  /** In native mode `end` sends exactly one session-terminate, carrying the
      normalised reason, unless it is silent; and it always finishes with
      `terminated` carrying that reason. */
  lemma EndSendsOnce(link: Link, state: Option<string>, reason: Value, silent: bool)
    requires link.sid != "" && !Compat(link)
    ensures var es := EndEvents(link, state, reason, silent);
      && Count(es, Sends) == (if silent then 0 else 1)
      && Count(es, Callbacks) == 0
      && es[|es| - 1] == Terminated(NormaliseReason(reason))
      && (!silent ==> es[|es| - 2] == Sent(Envelope(link.peer, link.sid, "set",
            Jingle(Stamp(Some(TerminatePayload(NormaliseReason(reason))), link.sid, "session-terminate")))))
  {
    EndCount(link, state, reason, silent, Sends);
    EndCount(link, state, reason, silent, Callbacks);
  }

  /** The counting step of EndSendsOnce, for one kind at a time. */
  lemma EndCount(link: Link, state: Option<string>, reason: Value, silent: bool, k: Kind)
    requires link.sid != "" && !Compat(link)
    ensures Count(EndEvents(link, state, reason, silent), k) == (if k == Sends && !silent then 1 else 0)
  {
    var r := NormaliseReason(reason);
    var t := TransitionEvents(SessionAxis, state, "ended");
    var s := if silent then [] else SendEvents(link, "session-terminate", Some(TerminatePayload(r)));
    NoCount(t, k);
    if !silent {
      NativeSend(link, "session-terminate", Some(TerminatePayload(r)));
      CountOne(s[0], k);
      assert s == [s[0]];
    } else {
      NoCount(s, k);
    }
    CountOne(Terminated(r), k);
    CountAppend(t, s, k);
    CountAppend(t + s, [Terminated(r)], k);
  }

  /** Ending a session that has already ended raises no state notifications:
      only the session-terminate (unless silent) and `terminated` again. */
  lemma RepeatedEndQuiet(link: Link, reason: Value, silent: bool)
    requires link.sid != ""
    ensures EndEvents(link, Some("ended"), reason, silent)
         == (if silent then [] else SendEvents(link, "session-terminate", Some(TerminatePayload(NormaliseReason(reason)))))
            + [Terminated(NormaliseReason(reason))]
    ensures Quiet(EndEvents(link, Some("ended"), reason, silent))
  {
  }
}
