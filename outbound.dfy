/** The outbound side of `send`: stamping the payload, the `pendingAction`
    bookkeeping, the translation into the simplified signal vocabulary of
    compatibility mode (`mappedActions`), the call type (`getCallType`) and the
    envelope handed to the transport. */
module Outbound {
  import opened Values
  import opened Events

  /** `requirePending`: the actions after whose sending a reply is awaited.
      The session-initiate key is spelt 'session-inititate', as in the source,
      so session-initiate itself never matches. */
  const RequirePending: set<string> := {
    "session-inititate", "session-accept",
    "content-add", "content-remove", "content-reject", "content-accept", "content-modify",
    "transport-replace", "transport-reject", "transport-accept",
    "source-add", "source-remove"
  }

  /** The value of `pendingAction` after sending `action` (None for `false`). */
  function PendingAfter(action: string): (p: Option<string>)
    ensures p == Some(action) <==> action in RequirePending
    ensures p.None? <==> action !in RequirePending
  {
    if action in RequirePending then Some(action) else None
  }

  /** Because of the misspelt key, sending session-initiate clears `pendingAction`. */
  lemma SessionInitiateNeverPending()
    ensures PendingAfter("session-initiate") == None
    ensures PendingAfter("session-accept") == Some("session-accept")
  {
  }

  /** `data = data || {}; data.sid = sid; data.action = action`. */
  function Stamp(data: Option<Payload>, sid: string, action: string): Payload
  {
    (if data.Some? then data.value else map[])["sid" := Str(sid)]["action" := Str(action)]
  }

  /** After stamping, the payload carries the session id and the action, and
      every other field of the caller's payload is as it was. */
  lemma StampFields(data: Option<Payload>, sid: string, action: string)
    ensures var d := Stamp(data, sid, action);
      && d.Keys == (if data.Some? then data.value.Keys else {}) + {"sid", "action"}
      && d["sid"] == Str(sid) && d["action"] == Str(action)
      && (data.Some? ==> forall k :: k in data.value && k != "sid" && k != "action" ==> d[k] == data.value[k])
  {
  }

  /** The `type` that selects an entry of a sub-table: the reason's condition
      when there is a reason, else the first of the ringing, hold and active
      flags that is set. Only a non-empty string can select an entry. */
  function TranslationType(data: Payload): Option<string>
  {
    if Truthy(Field(data, "reason")) then
      match Member(Field(data, "reason"), "condition")
      case Str(s) => if s != "" then Some(s) else None
      case _ => None
    else if Truthy(Field(data, "ringing")) then Some("ringing")
    else if Truthy(Field(data, "hold")) then Some("hold")
    else if Truthy(Field(data, "active")) then Some("active")
    else None
  }

  /** An entry of the `mappedActions` table: a name, or a sub-table keyed by type. */
  datatype Entry = Simple(name: string) | ByType(table: map<string, string>)

  const TerminateTypes: map<string, string> :=
    map["cancel" := "CANCEL", "decline" := "BUSY", "success" := "FINISH", "timeout" := "NOANSWER"]

  const InfoTypes: map<string, string> :=
    map["ringing" := "RINGING", "hold" := "VIDEO_OFF", "active" := "VIDEO_ON"]

  /** The `mappedActions` table, in both directions. */
  const Translations: map<string, Entry> := map[
    "session-initiate" := Simple("OFFER"),
    "OFFER" := Simple("session-initiate"),
    "session-accept" := Simple("ANSWER"),
    "ANSWER" := Simple("session-accept"),
    "session-terminate" := ByType(TerminateTypes),
    "CANCEL" := Simple("session-terminate"),
    "BUSY" := Simple("session-terminate"),
    "FINISH" := Simple("session-terminate"),
    "NOANSWER" := Simple("session-terminate"),
    "transport-info" := Simple("ADD_REMOTE_ICE_CANDIDATE"),
    "ADD_REMOTE_ICE_CANDIDATE" := Simple("transport-info"),
    "session-info" := ByType(InfoTypes),
    "RINGING" := Simple("session-info"),
    "VIDEO_OFF" := Simple("session-info"),
    "VIDEO_ON" := Simple("session-info")
  ]

  /** What `mappedActions` returns: a name, or the whole sub-table when the
      type does not select one of its entries. */
  datatype Mapped = Name(name: string) | SubTable(table: map<string, string>)

  function MapAction(action: string, data: Payload): Mapped
  {
    if action in Translations then
      match Translations[action]
      case Simple(n) => Name(n)
      case ByType(t) =>
        var ty := TranslationType(data);
        if ty.Some? && ty.value in t then Name(t[ty.value]) else SubTable(t)
    else Name(action)
  }

  /** The protocol actions the table translates, and the simplified names. */
  const ProtocolActions: set<string> :=
    {"session-initiate", "session-accept", "session-terminate", "transport-info", "session-info"}

  const SimpleNames: set<string> := {
    "OFFER", "ANSWER", "CANCEL", "BUSY", "FINISH", "NOANSWER",
    "ADD_REMOTE_ICE_CANDIDATE", "RINGING", "VIDEO_OFF", "VIDEO_ON"
  }

  /** A name the table does not know passes through unchanged. */
  lemma PassThrough(action: string, data: Payload)
    requires action !in ProtocolActions && action !in SimpleNames
    ensures MapAction(action, data) == Name(action)
  {
    assert action !in Translations;
  }

  /** `session-terminate` is translated by the reason's condition, whatever
      else the reason carries. */
  lemma TerminateTranslation(condition: string, data: Payload)
    requires Field(data, "reason").Obj? && Member(Field(data, "reason"), "condition") == Str(condition)
    ensures condition in TerminateTypes ==> MapAction("session-terminate", data) == Name(TerminateTypes[condition])
    ensures condition == "cancel" ==> MapAction("session-terminate", data) == Name("CANCEL")
    ensures condition == "decline" ==> MapAction("session-terminate", data) == Name("BUSY")
    ensures condition == "success" ==> MapAction("session-terminate", data) == Name("FINISH")
    ensures condition == "timeout" ==> MapAction("session-terminate", data) == Name("NOANSWER")
    ensures condition !in TerminateTypes ==> MapAction("session-terminate", data) == SubTable(TerminateTypes)
  {
  }

  /** `session-info` is translated by the first flag set among ringing, hold,
      active, unless a reason is present, which takes precedence. */
  lemma InfoTranslation(data: Payload)
    requires !Truthy(Field(data, "reason"))
    ensures Truthy(Field(data, "ringing")) ==> MapAction("session-info", data) == Name("RINGING")
    ensures !Truthy(Field(data, "ringing")) && Truthy(Field(data, "hold"))
            ==> MapAction("session-info", data) == Name("VIDEO_OFF")
    ensures !Truthy(Field(data, "ringing")) && !Truthy(Field(data, "hold")) && Truthy(Field(data, "active"))
            ==> MapAction("session-info", data) == Name("VIDEO_ON")
    ensures !Truthy(Field(data, "ringing")) && !Truthy(Field(data, "hold")) && !Truthy(Field(data, "active"))
            ==> MapAction("session-info", data) == SubTable(InfoTypes)
  {
  }

  /** The order in which `mappedActions` looks for the type: a truthy reason
      decides alone, by its condition, and the ringing, hold and active flags
      are then ignored; without one, the first of those flags that is set. */
  lemma TranslationOrder(data: Payload, other: Payload)
    ensures Truthy(Field(data, "reason")) && Field(other, "reason") == Field(data, "reason")
            ==> TranslationType(other) == TranslationType(data)
    ensures Truthy(Field(data, "reason"))
            ==> TranslationType(data) == (var c := Member(Field(data, "reason"), "condition");
                                          if c.Str? && c.s != "" then Some(c.s) else None)
    ensures !Truthy(Field(data, "reason")) && Truthy(Field(data, "ringing")) ==> TranslationType(data) == Some("ringing")
    ensures !Truthy(Field(data, "reason")) && !Truthy(Field(data, "ringing")) && Truthy(Field(data, "hold"))
            ==> TranslationType(data) == Some("hold")
    ensures (!Truthy(Field(data, "reason")) && !Truthy(Field(data, "ringing")) && !Truthy(Field(data, "hold"))
             && Truthy(Field(data, "active")))
            ==> TranslationType(data) == Some("active")
    ensures (!Truthy(Field(data, "reason")) && !Truthy(Field(data, "ringing")) && !Truthy(Field(data, "hold"))
             && !Truthy(Field(data, "active")))
            ==> TranslationType(data) == None
  {
  }

  /** Translating a protocol action and translating the result back, under
      any payload, gives the protocol action again. */
  lemma RoundTrip(action: string, data: Payload, back: Payload)
    requires action in ProtocolActions
    requires MapAction(action, data).Name?
    ensures MapAction(action, data).name in SimpleNames
    ensures MapAction(MapAction(action, data).name, back) == Name(action)
  {
    if action == "session-terminate" {
      TerminateRoundTrip(data, back);
    } else if action == "session-info" {
      InfoRoundTrip(data, back);
    } else {
      PlainRoundTrip(action, data, back);
    }
  }

  /** The cases of RoundTrip without a sub-table: session-initiate,
      session-accept and transport-info. */
  lemma PlainRoundTrip(action: string, data: Payload, back: Payload)
    requires action in {"session-initiate", "session-accept", "transport-info"}
    ensures MapAction(action, data).Name? && MapAction(action, data).name in SimpleNames
    ensures MapAction(MapAction(action, data).name, back) == Name(action)
  {
    if action == "session-initiate" {
      assert MapAction(action, data) == Name("OFFER") && MapAction("OFFER", back) == Name("session-initiate");
    } else if action == "session-accept" {
      assert MapAction(action, data) == Name("ANSWER") && MapAction("ANSWER", back) == Name("session-accept");
    } else {
      assert MapAction(action, data) == Name("ADD_REMOTE_ICE_CANDIDATE");
      assert MapAction("ADD_REMOTE_ICE_CANDIDATE", back) == Name("transport-info");
    }
  }

  /** The terminate case of RoundTrip: the name the condition selects is one
      of CANCEL, BUSY, FINISH and NOANSWER, each of which maps back. */
  lemma TerminateRoundTrip(data: Payload, back: Payload)
    requires MapAction("session-terminate", data).Name?
    ensures MapAction("session-terminate", data).name in {"CANCEL", "BUSY", "FINISH", "NOANSWER"}
    ensures MapAction(MapAction("session-terminate", data).name, back) == Name("session-terminate")
  {
    var ty := TranslationType(data);
    assert ty.Some? && ty.value in TerminateTypes;
  }

  /** The info case of RoundTrip: the name the flags select is one of
      RINGING, VIDEO_OFF and VIDEO_ON, each of which maps back. */
  lemma InfoRoundTrip(data: Payload, back: Payload)
    requires MapAction("session-info", data).Name?
    ensures MapAction("session-info", data).name in {"RINGING", "VIDEO_OFF", "VIDEO_ON"}
    ensures MapAction(MapAction("session-info", data).name, back) == Name("session-info")
  {
    var ty := TranslationType(data);
    assert ty.Some? && ty.value in InfoTypes;
  }

  /** The type a simplified name stands for, inside its protocol action. */
  function TypeOf(name: string): Option<string>
  {
    match name
    case "CANCEL" => Some("cancel")
    case "BUSY" => Some("decline")
    case "FINISH" => Some("success")
    case "NOANSWER" => Some("timeout")
    case "RINGING" => Some("ringing")
    case "VIDEO_OFF" => Some("hold")
    case "VIDEO_ON" => Some("active")
    case _ => None
  }

  /** A payload that carries the type of a simplified name the way `end` and
      the session-info senders carry it. */
  function PayloadFor(name: string): Payload
  {
    match TypeOf(name)
    case Some(t) =>
      if t in TerminateTypes then map["reason" := Obj(map["condition" := Str(t)])]
      else map[t := Bool(true)]
    case None => map[]
  }

  /** Every simplified name maps back to a protocol action, which maps to the
      name again under a payload carrying the name's type. */
  lemma SimpleRoundTrip(name: string, data: Payload)
    requires name in SimpleNames
    ensures MapAction(name, data).Name?
    ensures MapAction(name, data).name in ProtocolActions
    ensures MapAction(MapAction(name, data).name, PayloadFor(name)) == Name(name)
  {
    if name in {"CANCEL", "BUSY", "FINISH", "NOANSWER"} {
      TerminateBack(name, data);
    } else if name in {"RINGING", "VIDEO_OFF", "VIDEO_ON"} {
      InfoBack(name, data);
    } else {
      PlainBack(name, data);
    }
  }

  /** A terminate name maps back to session-terminate, and the condition it
      stands for selects that name again. */
  lemma TerminateBack(name: string, data: Payload)
    requires name in {"CANCEL", "BUSY", "FINISH", "NOANSWER"}
    ensures MapAction(name, data) == Name("session-terminate")
    ensures MapAction("session-terminate", PayloadFor(name)) == Name(name)
  {
    var t := TypeOf(name).value;
    assert t in TerminateTypes;
    TerminateTranslation(t, PayloadFor(name));
  }

  /** An info name maps back to session-info, and the flag it stands for
      selects that name again. */
  lemma InfoBack(name: string, data: Payload)
    requires name in {"RINGING", "VIDEO_OFF", "VIDEO_ON"}
    ensures MapAction(name, data) == Name("session-info")
    ensures MapAction("session-info", PayloadFor(name)) == Name(name)
  {
    var t := TypeOf(name).value;
    assert t in InfoTypes && InfoTypes[t] == name && t !in TerminateTypes;
    assert TranslationType(PayloadFor(name)) == Some(t);
  }

  /** OFFER, ANSWER and ADD_REMOTE_ICE_CANDIDATE map back to their protocol
      action, which maps to them again under any payload. */
  lemma PlainBack(name: string, data: Payload)
    requires name in SimpleNames
    requires name !in {"CANCEL", "BUSY", "FINISH", "NOANSWER", "RINGING", "VIDEO_OFF", "VIDEO_ON"}
    ensures MapAction(name, data).Name? && MapAction(name, data).name in ProtocolActions
    ensures MapAction(MapAction(name, data).name, PayloadFor(name)) == Name(name)
  {
    if name == "OFFER" {
      assert MapAction(name, data) == Name("session-initiate");
      assert MapAction("session-initiate", PayloadFor(name)) == Name(name);
    } else if name == "ANSWER" {
      assert MapAction(name, data) == Name("session-accept");
      assert MapAction("session-accept", PayloadFor(name)) == Name(name);
    } else {
      assert name == "ADD_REMOTE_ICE_CANDIDATE";
      assert MapAction(name, data) == Name("transport-info");
      assert MapAction("transport-info", PayloadFor(name)) == Name(name);
    }
  }

  /** `requireSignal`: the simplified names that are forwarded to the peer. */
  const RequireSignal: set<string> := {
    "OFFER", "ANSWER", "CANCEL", "BUSY", "FINISH", "ADD_REMOTE_ICE_CANDIDATE",
    "RINGING", "VIDEO_OFF", "VIDEO_ON", "NOANSWER"
  }

  /** `getCallType`: 'video' when some local content is named 'video', else
      'audio'. The loop over the contents, as the source runs it; CallTypeOf
      below is the same result as a function, for specifications. */
  method CallType(contents: seq<string>) returns (t: string)
    ensures t == "video" <==> "video" in contents
    ensures t == "audio" <==> "video" !in contents
  {
    t := "audio";
    for i := 0 to |contents|
      invariant t == (if "video" in contents[..i] then "video" else "audio")
    {
      assert contents[..i + 1] == contents[..i] + [contents[i]];
      if contents[i] == "video" {
        t := "video";
      }
    }
    assert contents[..|contents|] == contents;
  }

  /** The result of `getCallType`, for use in specifications. */
  function CallTypeOf(contents: seq<string>): string
  {
    if "video" in contents then "video" else "audio"
  }

  /** `String.prototype.toUpperCase` on ASCII letters. */
  function ToUpper(s: string): (r: string)
    ensures |r| == |s|
    ensures forall i :: 0 <= i < |s| ==> !('a' <= r[i] <= 'z')
    ensures forall i :: 0 <= i < |s| && !('a' <= s[i] <= 'z') ==> r[i] == s[i]
    ensures forall i :: 0 <= i < |s| && 'a' <= s[i] <= 'z'
              ==> 'A' <= r[i] <= 'Z' && r[i] as int - 'A' as int == s[i] as int - 'a' as int
  {
    seq(|s|, i requires 0 <= i < |s| => if 'a' <= s[i] <= 'z' then (s[i] as int - 32) as char else s[i])
  }

  /** What `send` reads of the session besides its arguments: the session id,
      the peer, `useJingle` (None while undefined), the names of the local
      description's contents and the bare JID of the call initiator. */
  datatype Link = Link(sid: string, peer: string, useJingle: Option<bool>, contents: seq<string>, callInitiator: string)

  /** Compatibility mode is selected only by `useJingle === false`. */
  predicate Compat(link: Link)
  {
    link.useJingle == Some(false)
  }

  /** The envelope `send` emits for an already stamped payload, or None when
      compatibility mode drops the action. `JingleSession.BuildEnvelope` is the
      same computation written as the source writes it, step by step. The id is the session id, which is
      never empty. */
  function Outgoing(link: Link, action: string, data: Payload): Option<Envelope>
    requires link.sid != ""
  {
    if Compat(link) then
      var mapped := MapAction(action, data);
      if mapped.Name? && mapped.name in RequireSignal then
        var sdp := if Truthy(Field(data, "sdp")) then Some(Field(data, "sdp")) else None;
        var inner := Member(Field(data, "candidate"), "candidate");
        var candidate :=
          if Truthy(Field(data, "candidate"))
          then Some(Candidate("0", if Truthy(inner) then Some(inner) else None))
          else None;
        Some(Envelope(link.peer, link.sid, "chat",
          SignalBody(Signal(mapped.name, link.callInitiator, "00 : 00", ToUpper(CallTypeOf(link.contents)), sdp, candidate))))
      else None
    else Some(Envelope(link.peer, link.sid, "set", Jingle(data)))
  }

  /** The notifications one `send` raises: the envelope, if any. */
  function SendEvents(link: Link, action: string, data: Option<Payload>): (es: seq<Event>)
    requires link.sid != ""
    ensures |es| <= 1
    ensures !Compat(link) ==> |es| == 1
  {
    match Outgoing(link, action, Stamp(data, link.sid, action))
    case Some(env) => [Sent(env)]
    case None => []
  }

  /** Outside compatibility mode the whole stamped payload goes out as
      `jingle`, in a 'set' addressed to the peer with the session id as id. */
  lemma NativeEnvelope(link: Link, action: string, data: Payload)
    requires link.sid != "" && !Compat(link)
    ensures Outgoing(link, action, data) == Some(Envelope(link.peer, link.sid, "set", Jingle(data)))
  {
  }

  /** In compatibility mode a signal goes out exactly when the translated
      action is a forwarded name, as a 'chat' carrying that name, the call
      initiator, the upper-cased call type and the sdp and candidate when the
      payload has them. */
  lemma CompatEnvelope(link: Link, action: string, data: Payload)
    requires link.sid != "" && Compat(link)
    ensures var env := Outgoing(link, action, data);
      && (env.Some? <==> MapAction(action, data).Name? && MapAction(action, data).name in RequireSignal)
      && (env.Some? ==>
            && env.value.to == link.peer && env.value.id == link.sid && env.value.kind == "chat"
            && env.value.body.SignalBody?
            && env.value.body.signal.action == MapAction(action, data).name
            && env.value.body.signal.callInitiator == link.callInitiator
            && (env.value.body.signal.callType == "VIDEO" <==> "video" in link.contents)
            && (env.value.body.signal.callType == "AUDIO" <==> "video" !in link.contents)
            && (env.value.body.signal.sdp.Some? <==> Truthy(Field(data, "sdp")))
            && (env.value.body.signal.candidate.Some? <==> Truthy(Field(data, "candidate"))))
  {
    assert ToUpper("video") == "VIDEO" && ToUpper("audio") == "AUDIO";
  }

  /** In native mode exactly one `send` goes out, of type 'set', with the
      session id as its id and the stamped payload as its `jingle`. */
  lemma NativeSend(link: Link, action: string, data: Option<Payload>)
    requires link.sid != "" && !Compat(link)
    ensures var es := SendEvents(link, action, data);
      |es| == 1 && es[0].Sent? && es[0].envelope.kind == "set" && es[0].envelope.id == link.sid
      && es[0].envelope.body.Jingle?
      && es[0].envelope.body.data["sid"] == Str(link.sid)
      && es[0].envelope.body.data["action"] == Str(action)
  {
    StampFields(data, link.sid, action);
    NativeEnvelope(link, action, Stamp(data, link.sid, action));
  }

  /** In compatibility mode a session-terminate whose reason's condition is
      not one of cancel, decline, success and timeout resolves to the
      sub-table and is not forwarded, whatever else the reason carries. */
  lemma UnknownTerminateDropped(link: Link, condition: string, data: Payload)
    requires link.sid != "" && Compat(link) && condition !in TerminateTypes
    requires Field(data, "reason").Obj? && Member(Field(data, "reason"), "condition") == Str(condition)
    ensures SendEvents(link, "session-terminate", Some(data)) == []
  {
    var d := Stamp(Some(data), link.sid, "session-terminate");
    assert Field(d, "reason") == Field(data, "reason");
    TerminateTranslation(condition, d);
  }
}
