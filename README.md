# jingle-session, modelled in Dafny

`JingleSession` is the base class of an XMPP Jingle (XEP-0166) session. It
tracks two state axes: the session state (starting, pending, active, ended)
and the connection state. Each change raises notifications on an event
emitter. Incoming Jingle actions go through a serial queue. The queue
dispatches each action by the `ACTIONS` table to a handler method and
answers the task's callback. The base class understands no content type, so
almost every action is acknowledged and logged as unsupported. A few actions
have their own handlers:

- `session-terminate` ends the session;
- `session-info` is a ping unless it carries an unknown payload key;
- `description-info` and `transport-info` are refused with `unsupported-info`;
- `content-add` and `transport-replace` are acknowledged and then rejected.

`send` stamps the outgoing payload with the session id and the action, and
keeps the `pendingAction` bookkeeping. It hands either a native Jingle `set`
to the transport or, when `useJingle === false`, a simplified `chat` signal.
The signal's action is translated by `mappedActions` and its call type comes
from `getCallType`. `start`, `accept`, `cancel`, `decline` and `end` close the
session.

How the model is laid out:

- `values.dfy`: the JavaScript values the payloads carry (`Value`, with
  JavaScript truthiness) and the callback errors.
- `events.dfy`: what the emitter publishes, and the task callbacks.
- `state_tracker.dfy`: the two state setters as the event sequences they
  raise, and what an observer of those events knows.
- `dispatch.dfy`: the `ACTIONS` table, the behaviour behind each handler
  name, and the `onSessionInfo` key check (a loop over the payload keys).
- `outbound.dfy`: the outbound side of `send`. It covers `requirePending` with
  its misspelt `'session-inititate'` key (reproduced as written), the
  `mappedActions` translation, `getCallType` (a loop) and the envelope.
- `lifecycle.dfy`: `end`, with the reason normalisation and everything it
  raises.
- `handlers.dfy`: everything a running handler raises, as a function of the
  session before it ran.
- `session.dfy`: the `JingleSession` class. Its fields are updated in place
  by the setters, `send`, `process`, the queue worker and the lifecycle
  methods. The emitter is the field `trace`: every notification, and every
  task callback invocation, is appended to it in order. So orderings such as
  "the content-add is acknowledged before the content-reject goes out" are
  part of the methods' postconditions.
  - The queue is a sequence of tasks plus the task whose handler is running.
  - `StartNextTask` is the worker up to the handler call: it skips a task
    once the session has ended, answers `bad-request` for an unknown action,
    and otherwise starts the handler.
  - `FinishTask` runs the handler body and its callback.
  - The class invariant `Valid` has three parts:
    - the last axis notifications in `trace` always name the current states;
    - the queue is first in, first out (ghost `pushed`/`consumed`);
    - the session id is never empty.
- `scenarios.dfy`: short clients that drive a session through behaviours its
  callers rely on and state what they observe.

## Model

| member | source | states |
|---|---|---|
| StateTracker.TransitionEvents | index.js:97-107 | setting the current value again raises nothing; otherwise the axis notification comes first, then the state entered, and the state left comes last only when there was a truthy previous value |
| StateTracker.TransitionObserved | index.js:93-126 | after a setter runs, an observer of the axis notifications sees the value stored, and the other axis's observed value is untouched |
| StateTracker.OpeningObserved | index.js:41-42 | the two assignments of 'starting' from undefined leave an observer knowing both states |
| Session.JingleSession.constructor | index.js:31-49 | sid is `opts.sid` or the generated id; peerID falls back to the peer; both axes start at 'starting' with their notifications; nothing is pending or queued |
| Session.JingleSession.GettersObserved | index.js:127-166 | under the invariant each state getter holds exactly when the last notification of its axis carried that state |
| Session.JingleSession.IsStarting | index.js:127-131 | the session state is 'starting' (GettersObserved ties it to the notifications) |
| Session.JingleSession.IsPending | index.js:132-136 | the session state is 'pending' (GettersObserved ties it to the notifications) |
| Session.JingleSession.IsActive | index.js:137-141 | the session state is 'active' (GettersObserved ties it to the notifications) |
| Session.JingleSession.IsEnded | index.js:142-146 | the session state is 'ended' (GettersObserved ties it to the notifications) |
| Session.JingleSession.IsConnected | index.js:147-151 | the connection state is 'connected' (GettersObserved ties it to the notifications) |
| Session.JingleSession.IsConnecting | index.js:152-156 | the connection state is 'connecting' (GettersObserved ties it to the notifications) |
| Session.JingleSession.IsDisconnected | index.js:157-161 | the connection state is 'disconnected' (GettersObserved ties it to the notifications) |
| Session.JingleSession.IsInterrupted | index.js:162-166 | the connection state is 'interrupted' (GettersObserved ties it to the notifications) |
| Session.JingleSession.SetState | index.js:93-109 | the session state becomes the value, and the trace grows by exactly the setter's notifications |
| Session.JingleSession.SetConnectionState | index.js:110-126 | the connection state becomes the value, and the trace grows by exactly the setter's notifications |
| Session.JingleSession.Send | index.js:175-245 | the payload gets sid and action; `pendingAction` becomes the action only for a `requirePending` action; the envelope for the mode, if any, is emitted |
| Session.JingleSession.BuildEnvelope | index.js:201-244 | the envelope built is the one `Outgoing` specifies for the session's mode |
| Session.JingleSession.Process | index.js:247-253 | the task is appended at the tail of the queue |
| Session.JingleSession.StartNextTask | index.js:52-69 | takes the head task: skipped once ended, `bad-request` to its callback for an action outside `ACTIONS`, else the handler the table names starts; nothing happens while a handler runs or the queue is empty |
| Session.JingleSession.FinishTask | index.js:70-73 | the running handler's events are appended; only session-terminate ends the session and empties the queue; only the rejecting handlers change `pendingAction` |
| Session.JingleSession.OnSessionTerminate | index.js:297-300 | ends silently with the peer's reason, then acknowledges |
| Session.JingleSession.OnSessionInfo | index.js:307-331 | acknowledges a ping, refuses with unsupported-info when a key beyond sid, action, initiator and responder is present |
| Session.JingleSession.AckThenRejectTask | index.js:355-379 | acknowledges first, then sends the reject action with failed-application |
| Session.JingleSession.Complete | index.js:70-73 | the task's callback is invoked once with the error, and the worker moves on |
| Session.JingleSession.End | index.js:273-295 | the state becomes 'ended', the unstarted tasks are discarded, the session-terminate is sent unless silent, and `terminated` carries the normalised reason |
| Session.JingleSession.Kill | index.js:276 | every task not yet started is discarded, in queue order |
| Session.JingleSession.Terminate | index.js:288-294 | the session-terminate unless silent, then `terminated` |
| Session.JingleSession.Start | index.js:255-258 | ends silently with 'unsupported-applications'; the tasks not yet started are discarded in queue order |
| Session.JingleSession.Accept | index.js:260-263 | ends, not silently, with 'unsupported-applications'; the tasks not yet started are discarded in queue order |
| Session.JingleSession.Cancel | index.js:265-267 | ends with 'cancel'; the tasks not yet started are discarded in queue order |
| Session.JingleSession.Decline | index.js:269-271 | ends with 'decline'; the tasks not yet started are discarded in queue order |
| Dispatch.HandlerNamed | index.js:82-88 | the behaviour installed under a handler name: the six overrides of index.js:297-379, the generated default otherwise (FollowUps and SpecialHandlers state it per action) |
| Dispatch.HandlerFor | index.js:64 | an action has a handler exactly when it is one of the table's own keys (the intended lookup; see Findings) |
| Dispatch.LookupAsWritten | index.js:64-70 | the lookup as written, inherited names included: it throws only on an inherited name, and agrees with HandlerFor on every other name |
| Dispatch.InheritedActionThrows | index.js:64-70 | the action 'constructor' throws as written, where the intended lookup has no handler and answers bad-request |
| Dispatch.PingAsWritten | index.js:308-320 | the ping test as written accepts every payload the intended test accepts, and agrees with it on payloads without an inherited key |
| Dispatch.InheritedKeyIsPing | index.js:316-318 | a session-info carrying a 'constructor' key is a ping as written and is refused with unsupported-info by the intended test |
| Dispatch.RejectPayload | index.js:359-364 | the reject's reason: failed-application with the explanatory text (AckBeforeReject states what goes out) |
| Dispatch.HasUnknownKey | index.js:315-320 | true exactly when some payload key is outside sid, action, initiator and responder |
| Dispatch.Reply | index.js:322-350 | every error a handler returns is unsupported-info |
| Dispatch.AcknowledgedActions | index.js:82-88 | a recognised action is acknowledged without error exactly when it is not description-info, not transport-info, and not a session-info with an unknown key |
| Dispatch.FollowUps | index.js:297-379 | only content-add and transport-replace answer with a reject, naming content-reject and transport-reject; only session-terminate ends the session |
| Dispatch.SpecialHandlers | index.js:8-28 | the handlers the table selects for the specially handled actions, and a default one |
| Outbound.PendingAfter | index.js:180-199 | `pendingAction` is the action exactly when it is in `requirePending`, and cleared otherwise |
| Outbound.SessionInitiateNeverPending | index.js:181 | because of the misspelt key, session-initiate clears `pendingAction`; session-accept sets it |
| Outbound.Stamp | index.js:176-178 | `data || {}` with sid and action set (StampFields states the result) |
| Outbound.StampFields | index.js:176-178 | the stamped payload has sid and action added and every other field unchanged |
| Outbound.TranslationType | index.js:383-396 | the type that selects a sub-table entry (TranslationOrder states the order) |
| Outbound.TranslationOrder | index.js:383-396 | a truthy reason decides alone by its non-empty string condition, the flags then being ignored; without one ringing, hold and active decide in that order, else there is no type |
| Outbound.MapAction | index.js:382-428 | `mappedActions`: the table in both directions, sub-tables selected by the type (PassThrough, TerminateTranslation, InfoTranslation and the round-trip lemmas state it) |
| Outbound.PassThrough | index.js:424-426 | an action outside the table is returned as is |
| Outbound.TerminateTranslation | index.js:385-386 | for any reason object, whatever else it carries, session-terminate translates by the reason's condition: cancel, decline, success and timeout give CANCEL, BUSY, FINISH and NOANSWER; any other condition gives the sub-table |
| Outbound.InfoTranslation | index.js:387-392 | without a reason, session-info translates by ringing, hold and active in that priority; with none of them it gives the sub-table |
| Outbound.RoundTrip | index.js:398-423 | every protocol action that translates to a name gives a simplified name that translates back to it |
| Outbound.PlainRoundTrip | index.js:399-414 | session-initiate, session-accept and transport-info translate to OFFER, ANSWER and ADD_REMOTE_ICE_CANDIDATE, which translate back under any payload |
| Outbound.TerminateRoundTrip | index.js:403-412 | a session-terminate that translates to a name gives one of the four, and each maps back to session-terminate |
| Outbound.InfoRoundTrip | index.js:415-422 | a session-info that translates to a name gives one of the three, and each maps back to session-info |
| Outbound.SimpleRoundTrip | index.js:398-423 | every simplified name maps to a protocol action, which maps back to the name under a payload carrying the name's type |
| Outbound.TerminateBack | index.js:403-412 | CANCEL, BUSY, FINISH and NOANSWER map to session-terminate and back |
| Outbound.InfoBack | index.js:415-422 | RINGING, VIDEO_OFF and VIDEO_ON map to session-info and back |
| Outbound.PlainBack | index.js:399-414 | OFFER, ANSWER and ADD_REMOTE_ICE_CANDIDATE map to their protocol actions and back |
| Outbound.CallType | index.js:430-438 | 'video' exactly when some local content is named video, else 'audio' |
| Outbound.ToUpper | index.js:222 | upper-casing keeps the length, turns each lower-case ASCII letter into its own capital and keeps every other character |
| Outbound.Outgoing | index.js:201-244 | the envelope for a stamped payload, or none when compatibility mode drops the action (NativeEnvelope and CompatEnvelope state both modes) |
| Outbound.SendEvents | index.js:201-244 | one `send` emits at most one envelope, and always one outside compatibility mode |
| Outbound.NativeEnvelope | index.js:241-244 | outside compatibility mode the whole stamped payload goes out as `jingle` in a 'set' to the peer with the sid as id |
| Outbound.CompatEnvelope | index.js:206-240 | in compatibility mode a 'chat' signal goes out exactly when the translated action is forwarded; it carries that name, the initiator, VIDEO or AUDIO, and the sdp and candidate when present |
| Outbound.NativeSend | index.js:201-205 | in native mode exactly one 'set' is emitted, carrying the sid and the action |
| Outbound.UnknownTerminateDropped | index.js:219-221 | in compatibility mode a session-terminate whose reason object has an unlisted condition is not sent, whatever else the reason carries |
| Lifecycle.NormaliseReason | index.js:278-286 | a falsy reason becomes {condition: 'success'}, a string s becomes {condition: s}, anything else is kept; the result is never a string |
| Lifecycle.NormaliseIdempotent | index.js:278-286 | normalising a normalised reason changes nothing |
| Lifecycle.EndEvents | index.js:273-295 | what one `end` raises from a given state (EndSendsOnce and RepeatedEndQuiet state its properties) |
| Lifecycle.EndSendsOnce | index.js:273-295 | in native mode `end` sends exactly one session-terminate carrying the normalised reason unless silent, invokes no callback, and ends with `terminated` |
| Lifecycle.EndCount | index.js:288-294 | in native mode, the number of sends and of callbacks `end` raises |
| Lifecycle.RepeatedEndQuiet | index.js:274 | ending an ended session raises no state notifications, only the session-terminate unless silent and `terminated` |
| Handlers.HandlerEvents | index.js:297-379 | what each handler raises, callback included (AnswersOnce, OthersQuiet, TerminateSendsNothing, PeerTerminateOrder and AckBeforeReject state its properties) |
| Handlers.PendingAfterHandler | index.js:355-379 | only a rejecting handler changes `pendingAction`, to the reject when it requires pending |
| Handlers.AnswersOnce | index.js:70-73 | every handler invokes its task's callback exactly once, with the error `Reply` gives |
| Handlers.OthersQuiet | index.js:297-379 | no handler but onSessionTerminate raises a state notification, neither an axis notification nor a `change:<value>` one: the others raise only their callback and sends |
| Handlers.TerminateSendsNothing | index.js:297-300 | onSessionTerminate sends nothing |
| Handlers.PeerTerminateOrder | index.js:297-300 | a peer's session-terminate raises the 'ended' notifications, then `terminated`, then the acknowledgement |
| Handlers.AckBeforeReject | index.js:355-379 | in native mode the acknowledgement precedes the single reject, which carries the reject action and failed-application |
| Scenarios.NewSession | index.js:31-49 | a new session is starting on both axes with an empty queue |
| Scenarios.SetterNotifications | index.js:97-107 | the same value raises nothing; starting to active raises the axis notification, active entered, starting left |
| Scenarios.UnknownAction | index.js:64-68 | an unknown action gets bad-request and no handler runs |
| Scenarios.SessionPing | index.js:307-331 | a session-info carrying only sid is acknowledged without error |
| Scenarios.InOrder | index.js:52-74 | with one handler running, the next task waits in the queue |
| Scenarios.CancelDiscards | index.js:265-276 | cancel ends the session and discards queued tasks |
| Scenarios.SkippedAfterEnd | index.js:53-56 | a task pushed after the end is skipped without a callback |
| Scenarios.EndTwice | index.js:273-295 | a second end raises no state notifications but sends a Jingle session-terminate and `terminated` again |

## Left out

- Logging (`_log` and the `log:<level>` events) is not modelled. It only publishes text.
- `uuid.v4()` becomes the constructor parameter `generatedSid`. The envelope id is always the session id, because a session id is never empty.
- `Date.now()` (the signal's `starttime`) is left out, being a clock.
- `window.btoa` is left out: the sdp and candidate are carried as given, not base64-encoded.
- `console.error` in `mappedActions` is left out. It is output only.
- The emitter's listener arguments (the session itself passed as `this`) are left out. Listeners and WildEmitter's wildcard matching are left out too; the event name `change:<value>` is kept apart from the axis notifications as `StateFlag`.
- The `async.queue` scheduling is left out. A handler's body and its callback run as one step (`FinishTask`), so a handler that defers its callback to a later tick, and a `kill` that arrives while a handler is running, are not modelled beyond what the queue fields show.
- Session.JingleSession.Send: the caller's `data` object is updated in place in the source; the model returns the stamped payload instead, and does not model aliasing of that object.
- Session.JingleSession.FinishTask: the `result` argument of the callback is never passed by the base handlers and is not modelled.
- Session.JingleSession.constructor: the assignments of 'starting' go through the setters in the source; the model records the same notifications directly.
- `peer.full` is left out. The peer is a plain string, so `peerID` is `opts.peerID` or the peer.
- `this.pc` and `this.parent` are not modelled as objects. Only the content names of `pc.localDescription` and `parent.jid.bare` are read, as session fields.
- Dispatch.HandlerFor: looks the action up among the table's own keys. As written, a name inherited from `Object.prototype` such as 'constructor' passes the test at index.js:64 and the call at index.js:70 throws, so that task's callback is never invoked and the queue stalls. LookupAsWritten models that behaviour; the session uses the intended lookup (see Findings).
- Dispatch.HasUnknownKey: treats every key outside sid, action, initiator and responder as unknown. As written, `okKeys[key]` at index.js:317 also accepts inherited names such as 'constructor', so such a session-info is acknowledged. PingAsWritten models that test; the session uses the intended one (see Findings).
- Outbound.PendingAfter: names inherited from `Object.prototype`, such as 'constructor', are not modelled in the `requirePending` lookup. In the source `requirePending['constructor']` is truthy, so `send('constructor', …)` sets `pendingAction`; the model clears it.
- Outbound.MapAction: names inherited from `Object.prototype`, such as 'constructor', are not modelled in the `mappedActions` lookup. Nor is indexing a string entry by the type at line 425, which for a type such as '0' yields a single character.
- Lifecycle.NormaliseReason: numbers are integers, so a `NaN` reason (falsy in the source) and non-integer reasons are not modelled.
- StateTracker.TransitionEvents: an empty previous state is told apart from undefined in the comparison at index.js:98, as in the source; only the `if (prev)` test at index.js:104 treats the two alike, and the model does the same.
- Outbound.ToUpper upper-cases only ASCII letters, which covers 'audio' and 'video'.

## Findings

| source | as written | input that shows it | evidently intended | confidence | as-written member | corrected member |
|---|---|---|---|---|---|---|
| index.js:64-70 | `!ACTIONS[action]` is false for names `ACTIONS` inherits from `Object.prototype`, and `self[ACTIONS[action]]` is then undefined, so the call throws; the task's callback and `next()` are never reached | an incoming action named 'constructor' | an action that is not one of the table's own keys is answered with bad-request and the queue moves on | medium, not executed | Dispatch.LookupAsWritten, Dispatch.InheritedActionThrows | Dispatch.HandlerFor |
| index.js:316-318 | `okKeys[key]` is truthy for inherited names, so they count as known keys | a session-info whose payload has a key 'constructor' | only sid, action, initiator and responder make a ping; anything else is unsupported-info | low, not executed | Dispatch.PingAsWritten, Dispatch.InheritedKeyIsPing | Dispatch.HasUnknownKey |
