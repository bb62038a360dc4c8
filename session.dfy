/** `JingleSession`: the base session object. It owns the two state axes, the
    serial action queue and the `pendingAction` bookkeeping, and records every
    notification it raises, and every task callback it invokes, in `trace`. */
module Session {
  import opened Values
  import opened Events
  import opened StateTracker
  import opened Dispatch
  import opened Outbound
  import opened Lifecycle
  import opened Handlers

  /** A queued task: `{action, changes, cb}`. */
  datatype Task = Task(action: string, changes: Payload, cb: CallbackId)

  /** A task whose handler the worker has called, with the handler it chose. */
  datatype Running = Running(task: Task, handler: Handler)

  class JingleSession {
    const sid: string
    const peer: string
    const peerID: string
    const isInitiator: bool
    const pendingApplicationTypes: seq<string>
    /** stands for `parent.jid.bare`, read when a signal is built */
    const callInitiator: string
    /** None while `useJingle` is undefined; assigned by the application */
    var useJingle: Option<bool>
    /** stands for the names of `pc.localDescription.contents`; assigned by the application */
    var localContents: seq<string>

    /** `_sessionState` and `_connectionState` (None while undefined) */
    var sessionState: Option<string>
    var connectionState: Option<string>
    /** None stands for `false` */
    var pendingAction: Option<string>

    /** `processingQueue`: tasks not yet started, and the one whose handler is running */
    var queue: seq<Task>
    var inFlight: Option<Running>

    /** the emitter's notifications and the task callbacks, in order */
    var trace: seq<Event>

    /** every task ever pushed, and every task taken off the head of the queue
        (started, skipped, rejected or discarded by a kill) */
    ghost var pushed: seq<Task>
    ghost var consumed: seq<Task>

    ghost predicate Valid()
      reads this
    {
      && sid != ""
      // an observer of the axis notifications always knows both states
      && LastValue(trace, SessionAxis) == sessionState
      && LastValue(trace, ConnectionAxis) == connectionState
      // the queue is first in, first out: tasks leave it in the order they came
      && consumed + queue == pushed
    }

    function LinkView(): (link: Link)
      reads this`useJingle, this`localContents
    {
      Link(sid, peer, useJingle, localContents, callInitiator)
    }

    predicate IsStarting() reads this { sessionState == Some("starting") }
    predicate IsPending() reads this { sessionState == Some("pending") }
    predicate IsActive() reads this { sessionState == Some("active") }
    predicate IsEnded() reads this { sessionState == Some("ended") }
    predicate IsConnected() reads this { connectionState == Some("connected") }
    predicate IsConnecting() reads this { connectionState == Some("connecting") }
    predicate IsDisconnected() reads this { connectionState == Some("disconnected") }
    predicate IsInterrupted() reads this { connectionState == Some("interrupted") }

    /** Each state getter agrees with what an observer of the axis
        notifications last saw: `ended` holds exactly when the last
        `change:sessionState` carried 'ended', and so on. */
    lemma GettersObserved()
      requires Valid()
      ensures IsStarting() <==> LastValue(trace, SessionAxis) == Some("starting")
      ensures IsPending() <==> LastValue(trace, SessionAxis) == Some("pending")
      ensures IsActive() <==> LastValue(trace, SessionAxis) == Some("active")
      ensures IsEnded() <==> LastValue(trace, SessionAxis) == Some("ended")
      ensures IsConnected() <==> LastValue(trace, ConnectionAxis) == Some("connected")
      ensures IsConnecting() <==> LastValue(trace, ConnectionAxis) == Some("connecting")
      ensures IsDisconnected() <==> LastValue(trace, ConnectionAxis) == Some("disconnected")
      ensures IsInterrupted() <==> LastValue(trace, ConnectionAxis) == Some("interrupted")
    {
    }

    /** `generatedSid` stands for `uuid.v4()`, used when no sid is given.
        The closing assignments of 'starting' to both axes go through the
        setters; from undefined each raises the axis notification and the
        state entered, which the body records directly. */
    constructor (optsSid: string, generatedSid: string, peer: string, optsPeerID: string,
                 initiator: bool, applicationTypes: seq<string>, callInitiator: string)
      requires generatedSid != ""
      ensures sid == (if optsSid != "" then optsSid else generatedSid)
      ensures this.peer == peer && peerID == (if optsPeerID != "" then optsPeerID else peer)
      ensures isInitiator == initiator && pendingApplicationTypes == applicationTypes
      ensures this.callInitiator == callInitiator && useJingle == None && localContents == []
      ensures sessionState == Some("starting") && connectionState == Some("starting")
      ensures trace == TransitionEvents(SessionAxis, None, "starting")
                     + TransitionEvents(ConnectionAxis, None, "starting")
      ensures pendingAction == None && queue == [] && inFlight == None && pushed == []
      ensures Valid()
    {
      sid := if optsSid != "" then optsSid else generatedSid;
      this.peer := peer;
      peerID := if optsPeerID != "" then optsPeerID else peer;
      isInitiator := initiator;
      pendingApplicationTypes := applicationTypes;
      this.callInitiator := callInitiator;
      useJingle := None;
      localContents := [];
      pendingAction := None;
      queue, inFlight := [], None;
      pushed, consumed := [], [];
      sessionState, connectionState, trace := None, None, [];
      new;
      sessionState := Some("starting");
      trace := TransitionEvents(SessionAxis, None, "starting");
      connectionState := Some("starting");
      trace := trace + TransitionEvents(ConnectionAxis, None, "starting");
      OpeningObserved("starting", "starting");
    }

    /** The `state` setter. */
    method SetState(value: string)
      requires Valid()
      modifies this`sessionState, this`trace
      ensures Valid()
      ensures sessionState == Some(value)
      ensures trace == old(trace) + TransitionEvents(SessionAxis, old(sessionState), value)
    {
      TransitionObserved(trace, SessionAxis, ConnectionAxis, value);
      if Some(value) != sessionState {
        var prev := sessionState;
        sessionState := Some(value);
        trace := trace + [StateChanged(SessionAxis, value), StateFlag(value, true)];
        if prev.Some? && prev.value != "" {
          trace := trace + [StateFlag(prev.value, false)];
        }
        assert trace == old(trace) + TransitionEvents(SessionAxis, prev, value);
      }
    }

    /** The `connectionState` setter. */
    method SetConnectionState(value: string)
      requires Valid()
      modifies this`connectionState, this`trace
      ensures Valid()
      ensures connectionState == Some(value)
      ensures trace == old(trace) + TransitionEvents(ConnectionAxis, old(connectionState), value)
    {
      TransitionObserved(trace, ConnectionAxis, SessionAxis, value);
      if Some(value) != connectionState {
        var prev := connectionState;
        connectionState := Some(value);
        trace := trace + [StateChanged(ConnectionAxis, value), StateFlag(value, true)];
        if prev.Some? && prev.value != "" {
          trace := trace + [StateFlag(prev.value, false)];
        }
        assert trace == old(trace) + TransitionEvents(ConnectionAxis, prev, value);
      }
    }

    /** Appending notifications that carry no state change keeps the invariant. */
    method Emit(es: seq<Event>)
      requires Valid() && Quiet(es)
      modifies this`trace
      ensures Valid()
      ensures trace == old(trace) + es
    {
      QuietAppend(trace, es, SessionAxis);
      QuietAppend(trace, es, ConnectionAxis);
      trace := trace + es;
    }

    /** `send(action, data)`: stamps the payload (returned, standing for the
        caller's object updated in place), recomputes `pendingAction` and emits
        the envelope, if the mode forwards the action. */
    method Send(action: string, data: Option<Payload>) returns (stamped: Payload)
      requires Valid()
      modifies this`pendingAction, this`trace
      ensures Valid()
      ensures stamped == Stamp(data, sid, action)
      ensures pendingAction == PendingAfter(action)
      ensures trace == old(trace) + SendEvents(LinkView(), action, data)
    {
      stamped := if data.Some? then data.value else map[];
      stamped := stamped["sid" := Str(sid)];
      stamped := stamped["action" := Str(action)];
      assert stamped == Stamp(data, sid, action);

      if action in RequirePending {
        pendingAction := Some(action);
      } else {
        pendingAction := None;
      }

      var envelope := BuildEnvelope(action, stamped);
      if envelope.Some? {
        Emit([Sent(envelope.value)]);
      }
    }

    /** The envelope part of `send`: native `{to, id, type: 'set', jingle}`, or
        in compatibility mode a `{type: 'chat', signal}` when the translated
        action is one that is forwarded. */
    method BuildEnvelope(action: string, stamped: Payload) returns (envelope: Option<Envelope>)
      requires sid != ""
      ensures envelope == Outgoing(LinkView(), action, stamped)
    {
      // data.sid is the session id, which is never empty
      var id := sid;
      envelope := None;
      if useJingle == Some(false) {
        var mapped := MapAction(action, stamped);
        if mapped.Name? && mapped.name in RequireSignal {
          var callType := CallType(localContents);
          var sdp := None;
          if Truthy(Field(stamped, "sdp")) {
            sdp := Some(Field(stamped, "sdp"));
          }
          var candidate := None;
          if Truthy(Field(stamped, "candidate")) {
            var inner := Member(Field(stamped, "candidate"), "candidate");
            candidate := Some(Candidate("0", if Truthy(inner) then Some(inner) else None));
          }
          var signal := Signal(mapped.name, callInitiator, "00 : 00", ToUpper(callType), sdp, candidate);
          envelope := Some(Envelope(peer, id, "chat", SignalBody(signal)));
        }
      } else {
        envelope := Some(Envelope(peer, id, "set", Jingle(stamped)));
      }
    }

    /** `process(action, changes, cb)`: pushes a task onto the queue. */
    method Process(action: string, changes: Payload, cb: CallbackId)
      requires Valid()
      modifies this`queue, this`pushed
      ensures Valid()
      ensures queue == old(queue) + [Task(action, changes, cb)]
      ensures pushed == old(pushed) + [Task(action, changes, cb)]
    {
      queue := queue + [Task(action, changes, cb)];
      pushed := pushed + [Task(action, changes, cb)];
    }

    /** The queue worker, up to the handler call: when no handler is running,
        it takes the head task; once the session has ended it skips the task
        (no handler, no callback); an unknown action gets `bad-request`;
        any other task has its handler started. */
    method StartNextTask()
      requires Valid()
      modifies this`queue, this`inFlight, this`trace, this`consumed
      ensures Valid()
      ensures old(inFlight.Some? || queue == []) ==>
        queue == old(queue) && inFlight == old(inFlight) && trace == old(trace) && consumed == old(consumed)
      ensures old(inFlight.None? && queue != []) ==>
        && queue == old(queue[1..])
        && consumed == old(consumed + [queue[0]])
        && (if old(IsEnded()) then inFlight == None && trace == old(trace)
            else if old(queue[0].action) !in Actions then
              inFlight == None && trace == old(trace) + [Callback(old(queue[0].cb), Some(BadRequest))]
            else inFlight == Some(Running(old(queue[0]), HandlerFor(old(queue[0].action)).value))
                 && trace == old(trace))
    {
      if inFlight.Some? || queue == [] {
        return;
      }
      var task := queue[0];
      assert queue == [task] + queue[1..];
      queue := queue[1..];
      consumed := consumed + [task];
      if IsEnded() {
        return;
      }
      if task.action !in Actions {
        Emit([Callback(task.cb, Some(BadRequest))]);
        return;
      }
      inFlight := Some(Running(task, HandlerNamed(Actions[task.action])));
    }

    /** The running handler finishes: its body runs, it calls its callback
        (`cb(err, result)`, then `next()`), and for content-add and
        transport-replace it then sends the reject. */
    method FinishTask()
      requires Valid()
      modifies this`sessionState, this`queue, this`consumed, this`pendingAction, this`trace, this`inFlight
      ensures Valid()
      ensures old(inFlight).None? ==> unchanged(this)
      ensures old(inFlight).Some? ==>
        var run := old(inFlight).value;
        && inFlight == None
        && trace == old(trace) + HandlerEvents(LinkView(), old(sessionState), run.handler, run.task.changes, run.task.cb)
        && pendingAction == PendingAfterHandler(run.handler, old(pendingAction))
        // only onSessionTerminate ends the session and kills the queue
        && (if run.handler.EndSilently?
            then sessionState == Some("ended") && queue == [] && consumed == old(consumed + queue)
            else sessionState == old(sessionState) && queue == old(queue) && consumed == old(consumed))
    {
      if inFlight.None? {
        return;
      }
      var task := inFlight.value.task;
      match inFlight.value.handler
      case EndSilently =>
        OnSessionTerminate(task);
      case CheckSessionInfo =>
        OnSessionInfo(task);
      case RejectInfo =>
        Complete(task, Some(UnsupportedInfo));
      case AckThenReject(reject, text) =>
        AckThenRejectTask(task, reject, text);
      case Unsupported =>
        Complete(task, None);
    }

    /** `onSessionTerminate`: `end(changes.reason, true)`, then `cb()`. */
    method OnSessionTerminate(task: Task)
      requires Valid()
      modifies this`sessionState, this`queue, this`consumed, this`pendingAction, this`trace, this`inFlight
      ensures Valid() && inFlight == None
      ensures sessionState == Some("ended") && queue == [] && consumed == old(consumed + queue)
      ensures pendingAction == old(pendingAction)
      ensures trace == old(trace) + HandlerEvents(LinkView(), old(sessionState), EndSilently, task.changes, task.cb)
    {
      End(Field(task.changes, "reason"), true);
      Complete(task, None);
    }

    /** `onSessionInfo`: `cb()` for a ping, unsupported-info when a key beyond
        sid, action, initiator and responder is present. */
    method OnSessionInfo(task: Task)
      requires Valid()
      modifies this`trace, this`inFlight
      ensures Valid() && inFlight == None
      ensures trace == old(trace) + HandlerEvents(LinkView(), sessionState, CheckSessionInfo, task.changes, task.cb)
    {
      var unknown := HasUnknownKey(task.changes);
      Complete(task, if unknown then Some(UnsupportedInfo) else None);
    }

    /** `onContentAdd` and `onTransportReplace`: `cb()`, then send `reject`
        with `failed-application` and the explanatory text. */
    method AckThenRejectTask(task: Task, reject: string, text: string)
      requires Valid()
      modifies this`pendingAction, this`trace, this`inFlight
      ensures Valid() && inFlight == None
      ensures pendingAction == PendingAfter(reject)
      ensures trace == old(trace) + HandlerEvents(LinkView(), sessionState, AckThenReject(reject, text), task.changes, task.cb)
    {
      Complete(task, None);
      var _ := Send(reject, Some(RejectPayload(text)));
    }

    /** The worker's completion callback: `cb(err)`, then `next()`. */
    method Complete(task: Task, err: Option<Error>)
      requires Valid()
      modifies this`trace, this`inFlight
      ensures Valid()
      ensures inFlight == None && trace == old(trace) + [Callback(task.cb, err)]
    {
      Emit([Callback(task.cb, err)]);
      inFlight := None;
    }

    /** `end(reason, silent)`: the state becomes 'ended', the queue is killed
        (tasks not yet started are discarded; a running handler is left alone),
        a session-terminate is sent unless silent, and `terminated` is emitted. */
    method End(reason: Value, silent: bool)
      requires Valid()
      modifies this`sessionState, this`queue, this`consumed, this`pendingAction, this`trace
      ensures Valid()
      ensures sessionState == Some("ended") && queue == [] && consumed == old(consumed + queue)
      ensures pendingAction == if silent then old(pendingAction) else PendingAfter("session-terminate")
      ensures trace == old(trace) + EndEvents(LinkView(), old(sessionState), reason, silent)
    {
      ghost var opening := trace;
      SetState("ended");
      Kill();
      ghost var ended := trace;
      Terminate(NormaliseReason(reason), silent);
      assert ended == opening + TransitionEvents(SessionAxis, old(sessionState), "ended");
    }

    /** `processingQueue.kill()`: the tasks not yet started are dropped. */
    method Kill()
      requires Valid()
      modifies this`queue, this`consumed
      ensures Valid() && queue == [] && consumed == old(consumed + queue)
    {
      consumed := consumed + queue;
      queue := [];
    }

    /** The tail of `end`: the session-terminate unless silent, then `terminated`. */
    method Terminate(r: Value, silent: bool)
      requires Valid()
      modifies this`pendingAction, this`trace
      ensures Valid()
      ensures pendingAction == if silent then old(pendingAction) else PendingAfter("session-terminate")
      ensures trace == old(trace)
                       + (if silent then [] else SendEvents(LinkView(), "session-terminate", Some(TerminatePayload(r))))
                       + [Terminated(r)]
    {
      if !silent {
        var _ := Send("session-terminate", Some(TerminatePayload(r)));
      }
      Emit([Terminated(r)]);
    }

    /** `start`: a base session cannot start; it ends silently with 'unsupported-applications'. */
    method Start()
      requires Valid()
      modifies this`sessionState, this`queue, this`consumed, this`pendingAction, this`trace
      ensures Valid() && IsEnded() && queue == [] && consumed == old(consumed + queue) && pendingAction == old(pendingAction)
      ensures trace == old(trace) + EndEvents(LinkView(), old(sessionState), Str("unsupported-applications"), true)
    {
      End(Str("unsupported-applications"), true);
    }

    /** `accept`: a base session cannot accept; it ends with 'unsupported-applications', not silently. */
    method Accept()
      requires Valid()
      modifies this`sessionState, this`queue, this`consumed, this`pendingAction, this`trace
      ensures Valid() && IsEnded() && queue == [] && consumed == old(consumed + queue) && pendingAction == None
      ensures trace == old(trace) + EndEvents(LinkView(), old(sessionState), Str("unsupported-applications"), false)
    {
      End(Str("unsupported-applications"), false);
    }

    /** `cancel`: ends with reason 'cancel'. */
    method Cancel()
      requires Valid()
      modifies this`sessionState, this`queue, this`consumed, this`pendingAction, this`trace
      ensures Valid() && IsEnded() && queue == [] && consumed == old(consumed + queue) && pendingAction == None
      ensures trace == old(trace) + EndEvents(LinkView(), old(sessionState), Str("cancel"), false)
    {
      End(Str("cancel"), false);
    }

    /** `decline`: ends with reason 'decline'. */
    method Decline()
      requires Valid()
      modifies this`sessionState, this`queue, this`consumed, this`pendingAction, this`trace
      ensures Valid() && IsEnded() && queue == [] && consumed == old(consumed + queue) && pendingAction == None
      ensures trace == old(trace) + EndEvents(LinkView(), old(sessionState), Str("decline"), false)
    {
      End(Str("decline"), false);
    }
  }
}
