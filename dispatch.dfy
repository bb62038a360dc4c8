/** The dispatch table from action names to handlers, and what each handler of
    the base session replies. The base session understands no content type,
    so nearly every action is acknowledged as unsupported. */
module Dispatch {
  import opened Values

  /** `ACTIONS`: the Jingle actions of section 7.2 of XEP-0166, plus the two
      unstandardised `source-add` and `source-remove`, each mapped to the name
      of its handler method. */
  const Actions: map<string, string> := map[
    "content-accept" := "onContentAccept",
    "content-add" := "onContentAdd",
    "content-modify" := "onContentModify",
    "content-reject" := "onContentReject",
    "content-remove" := "onContentRemove",
    "description-info" := "onDescriptionInfo",
    "security-info" := "onSecurityInfo",
    "session-accept" := "onSessionAccept",
    "session-info" := "onSessionInfo",
    "session-initiate" := "onSessionInitiate",
    "session-terminate" := "onSessionTerminate",
    "transport-accept" := "onTransportAccept",
    "transport-info" := "onTransportInfo",
    "transport-reject" := "onTransportReject",
    "transport-replace" := "onTransportReplace",
    "source-add" := "onSourceAdd",
    "source-remove" := "onSourceRemove"
  ]

  /** The behaviours of the base session's handlers. */
  datatype Handler =
    /** the generated default: log "Unsupported action" and call `cb()` */
    | Unsupported
    /** `onSessionTerminate`: end the session silently, then `cb()` */
    | EndSilently
    /** `onSessionInfo`: `cb()` for a bare ping, unsupported-info otherwise */
    | CheckSessionInfo
    /** `onDescriptionInfo`, `onTransportInfo`: always unsupported-info */
    | RejectInfo
    /** `onContentAdd`, `onTransportReplace`: `cb()`, then send `reject` with `failed-application` */
    | AckThenReject(reject: string, text: string)

  /** The behaviour installed under a handler method name. */
  function HandlerNamed(name: string): Handler
  {
    match name
    case "onSessionTerminate" => EndSilently
    case "onSessionInfo" => CheckSessionInfo
    case "onDescriptionInfo" => RejectInfo
    case "onTransportInfo" => RejectInfo
    case "onContentAdd" => AckThenReject("content-reject", "content-add is not supported")
    case "onTransportReplace" => AckThenReject("transport-reject", "transport-replace is not supported")
    case _ => Unsupported
  }

  /** Looks an action up in the dispatch table; None is the `bad-request` path. */
  function HandlerFor(action: string): (h: Option<Handler>)
    ensures h.None? <==> action !in Actions
  {
    if action in Actions then Some(HandlerNamed(Actions[action])) else None
  }

  /** The names every object literal inherits from `Object.prototype`. Looked
      up in `ACTIONS` or in `okKeys`, each yields a truthy value although it is
      not one of the literal's own keys. */
  const Inherited: set<string> := {
    "constructor", "toString", "toLocaleString", "valueOf", "hasOwnProperty",
    "isPrototypeOf", "propertyIsEnumerable", "__proto__",
    "__defineGetter__", "__defineSetter__", "__lookupGetter__", "__lookupSetter__"
  }

  /** What the worker's lookup does with an action, as the source writes it. */
  datatype Lookup =
    /** `ACTIONS[action]` names a handler method, which is called */
    | Dispatched(handler: Handler)
    /** `!ACTIONS[action]` holds: `cb({condition: 'bad-request'})` */
    | BadRequestReply
    /** `ACTIONS[action]` is an inherited value, so `self[ACTIONS[action]]` is
        undefined and calling it throws: the callback is never invoked and
        `next()` is never reached */
    | Throws

  /** The lookup `!ACTIONS[action]` followed by `self[ACTIONS[action]](...)`,
      inherited names included. HandlerFor is the intended lookup, among the
      table's own keys only; the two agree on every name that is not inherited. */
  function LookupAsWritten(action: string): (r: Lookup)
    ensures r.Throws? ==> action in Inherited
    ensures action !in Inherited ==> r == (if HandlerFor(action).Some? then Dispatched(HandlerFor(action).value) else BadRequestReply)
  {
    if action in Actions then Dispatched(HandlerNamed(Actions[action]))
    else if action in Inherited then Throws
    else BadRequestReply
  }

  /** A peer that sends the action 'constructor' stalls the queue as written,
      where the intended lookup answers bad-request. */
  lemma InheritedActionThrows()
    ensures LookupAsWritten("constructor") == Throws
    ensures HandlerFor("constructor") == None
  {
  }

  /** The payload keys a `session-info` may carry and still be a ping. */
  const OkKeys: set<string> := {"sid", "action", "initiator", "responder"}

  /** The `forEach` over `Object.keys(changes)` in `onSessionInfo`, which raises
      `unknownPayload` on any key outside OkKeys. */
  method HasUnknownKey(changes: Payload) returns (unknown: bool)
    ensures unknown <==> !(changes.Keys <= OkKeys)
  {
    unknown := false;
    var rest := changes.Keys;
    while rest != {}
      invariant rest <= changes.Keys
      invariant unknown <==> !(changes.Keys - rest <= OkKeys)
      decreases rest
    {
      var key :| key in rest;
      if key !in OkKeys {
        unknown := true;
      }
      rest := rest - {key};
    }
  }

  /** The ping test of `onSessionInfo` as written: `okKeys[key]` is truthy for
      the four keys and for every inherited name. It agrees with the intended
      test (HasUnknownKey) on every payload without an inherited key. */
  function PingAsWritten(changes: Payload): (ping: bool)
    ensures changes.Keys <= OkKeys ==> ping
    ensures ping && changes.Keys !! Inherited ==> changes.Keys <= OkKeys
  {
    changes.Keys <= OkKeys + Inherited
  }

  /** A session-info carrying a 'constructor' key is a ping as written, and
      is refused with unsupported-info by the intended test. */
  lemma InheritedKeyIsPing()
    ensures PingAsWritten(map["constructor" := Num(1)])
    ensures Reply(CheckSessionInfo, map["constructor" := Num(1)]) == Some(UnsupportedInfo)
  {
    assert "constructor" in map["constructor" := Num(1)].Keys;
  }

  /** The error (None for `cb()`) a handler passes to the task's callback. */
  function Reply(h: Handler, changes: Payload): (e: Option<Error>)
    ensures e.Some? ==> e.value == UnsupportedInfo
  {
    match h
    case CheckSessionInfo => if changes.Keys <= OkKeys then None else Some(UnsupportedInfo)
    case RejectInfo => Some(UnsupportedInfo)
    case _ => None
  }

  /** The payload of the reject that `onContentAdd` and `onTransportReplace` send. */
  function RejectPayload(text: string): Payload
  {
    map["reason" := Obj(map["condition" := Str("failed-application"), "text" := Str(text)])]
  }

  /** Which recognised actions are acknowledged without error: all of them
      except `description-info` and `transport-info`, and except a
      `session-info` whose payload has a key beyond sid, action, initiator and
      responder. Every refusal is unsupported-info. */
  lemma AcknowledgedActions(action: string, changes: Payload)
    requires action in Actions
    ensures HandlerFor(action).Some?
    ensures Reply(HandlerFor(action).value, changes) == None
        <==> action != "description-info" && action != "transport-info"
             && (action == "session-info" ==> changes.Keys <= OkKeys)
  {
  }

  /** Only `content-add` and `transport-replace` answer with a reject, naming
      the matching reject action; only `session-terminate` ends the session. */
  lemma FollowUps(action: string)
    requires action in Actions
    ensures HandlerFor(action).value.AckThenReject?
        <==> action == "content-add" || action == "transport-replace"
    ensures action == "content-add" ==> HandlerFor(action).value.reject == "content-reject"
    ensures action == "transport-replace" ==> HandlerFor(action).value.reject == "transport-reject"
    ensures HandlerFor(action).value.EndSilently? <==> action == "session-terminate"
  {
  }

  /** The table entries the base session gives non-default behaviour, and one default. */
  lemma SpecialHandlers()
    ensures HandlerFor("session-terminate") == Some(EndSilently)
    ensures HandlerFor("session-info") == Some(CheckSessionInfo)
    ensures HandlerFor("description-info") == Some(RejectInfo)
    ensures HandlerFor("transport-info") == Some(RejectInfo)
    ensures HandlerFor("content-add") == Some(AckThenReject("content-reject", "content-add is not supported"))
    ensures HandlerFor("transport-replace") == Some(AckThenReject("transport-reject", "transport-replace is not supported"))
    ensures HandlerFor("session-accept") == Some(Unsupported)
  {
  }
}
