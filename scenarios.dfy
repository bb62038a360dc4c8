/** Clients of `JingleSession` that drive it through the behaviours its
    callers rely on, and state what they observe. */
module Scenarios {
  import opened Values
  import opened Events
  import opened StateTracker
  import opened Dispatch
  import opened Outbound
  import opened Lifecycle
  import opened Handlers
  import opened Session

  /** A session with the given id, talking to 'peer@example.org'. */
  method NewSession(sid: string) returns (s: JingleSession)
    requires sid != ""
    ensures fresh(s) && s.Valid() && s.sid == sid && s.peer == "peer@example.org"
    ensures s.IsStarting() && s.connectionState == Some("starting")
    ensures s.queue == [] && s.inFlight == None && s.useJingle == None && s.localContents == []
    ensures s.pendingAction == None
  {
    s := new JingleSession(sid, "generated", "peer@example.org", "", false, [], "caller@example.org");
  }

  /** The state setter: the same value again raises nothing; a new value
      raises the axis notification, the state entered, then the state left. */
  method SetterNotifications() returns (same: seq<Event>, moved: seq<Event>)
    ensures same == []
    ensures moved == [StateChanged(SessionAxis, "active"), StateFlag("active", true), StateFlag("starting", false)]
  {
    var s := NewSession("sid-1");
    var n := |s.trace|;
    s.SetState("starting");
    same := s.trace[n..];
    n := |s.trace|;
    s.SetState("active");
    moved := s.trace[n..];
  }

  /** An action outside the dispatch table is answered with bad-request and
      never reaches a handler; the queue moves on. */
  method UnknownAction(action: string, cb: CallbackId) returns (observed: seq<Event>, running: Option<Running>)
    requires action !in Actions
    ensures observed == [Callback(cb, Some(BadRequest))]
    ensures running == None
  {
    var s := NewSession("sid-1");
    var n := |s.trace|;
    s.Process(action, map[], cb);
    s.StartNextTask();
    observed := s.trace[n..];
    running := s.inFlight;
  }

  /** A session-info whose payload carries only sid, action, initiator and
      responder is a ping, and is acknowledged. */
  method SessionPing(cb: CallbackId) returns (observed: seq<Event>)
    ensures observed == [Callback(cb, None)]
  {
    var s := NewSession("sid-1");
    var n := |s.trace|;
    s.Process("session-info", map["sid" := Str("sid-1")], cb);
    s.StartNextTask();
    SpecialHandlers();
    assert map["sid" := Str("sid-1")].Keys <= OkKeys;
    s.FinishTask();
    observed := s.trace[n..];
  }

  /** Two tasks pushed back to back: the first is started, and the second
      waits in the queue while the first handler is running. */
  method InOrder(first: CallbackId, second: CallbackId) returns (running: Option<Running>, waiting: seq<Task>)
    ensures running == Some(Running(Task("session-accept", map[], first), Unsupported))
    ensures waiting == [Task("transport-info", map[], second)]
  {
    var s := NewSession("sid-1");
    s.Process("session-accept", map[], first);
    s.Process("transport-info", map[], second);
    s.StartNextTask();
    assert Actions["session-accept"] == "onSessionAccept";
    s.StartNextTask();
    running, waiting := s.inFlight, s.queue;
  }

  /** `cancel` ends the session and discards the tasks not yet started. */
  method CancelDiscards(cb: CallbackId) returns (discarded: seq<Task>, ended: bool)
    ensures discarded == [] && ended
  {
    var s := NewSession("sid-1");
    s.Process("session-accept", map[], cb);
    s.Cancel();
    discarded, ended := s.queue, s.IsEnded();
  }

  /** Once the session has ended, a task pushed later is skipped: no handler
      runs and no callback is invoked. */
  method SkippedAfterEnd(cb: CallbackId) returns (afterEnd: seq<Event>, running: Option<Running>)
    ensures afterEnd == [] && running == None
  {
    var s := NewSession("sid-1");
    s.Cancel();
    var n := |s.trace|;
    s.Process("content-add", map[], cb);
    s.StartNextTask();
    afterEnd, running := s.trace[n..], s.inFlight;
  }

  /** Ending twice: the second end raises no state notifications but sends
      session-terminate and `terminated` again. */
  method EndTwice() returns (first: seq<Event>, second: seq<Event>)
    ensures |first| == 5 && first[0] == StateChanged(SessionAxis, "ended")
    ensures |second| == 2 && second[0].Sent? && second[1] == Terminated(Obj(map["condition" := Str("success")]))
    ensures second[0].envelope.body.Jingle? && Field(second[0].envelope.body.data, "action") == Str("session-terminate")
  {
    var s := NewSession("sid-1");
    var n := |s.trace|;
    s.End(Undefined, false);
    first := s.trace[n..];
    n := |s.trace|;
    s.End(Undefined, false);
    second := s.trace[n..];
    StampFields(Some(TerminatePayload(Obj(map["condition" := Str("success")]))), "sid-1", "session-terminate");
  }
}
