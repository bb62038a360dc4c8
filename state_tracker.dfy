/** The setters of the two state axes (`state` and `connectionState`) and the
    notifications they raise. No transition table is enforced: any value may
    follow any other. */
module StateTracker {
  import opened Values
  import opened Events

  /** The notifications the setter of `axis` raises when asked to move from
      `prev` (None while the field is still undefined) to `value`. */
  function TransitionEvents(axis: Axis, prev: Option<string>, value: string): (es: seq<Event>)
    // setting the current value again is a no-op
    ensures es == [] <==> prev == Some(value)
    // otherwise: the axis notification first, then the state entered
    ensures es != [] ==> |es| >= 2 && es[0] == StateChanged(axis, value) && es[1] == StateFlag(value, true)
    // and the state left last, only when there was a (truthy) previous value
    ensures |es| == 3 <==> prev.Some? && prev.value != value && prev.value != ""
    ensures |es| == 3 ==> es[2] == StateFlag(prev.value, false)
    ensures |es| <= 3
  {
    if prev == Some(value) then []
    else
      [StateChanged(axis, value), StateFlag(value, true)]
      + (if prev.Some? && prev.value != "" then [StateFlag(prev.value, false)] else [])
  }

  /** The value an observer of `change:sessionState` / `change:connectionState`
      last saw for `axis`, or None if it saw none. */
  function LastValue(es: seq<Event>, axis: Axis): Option<string>
    decreases |es|
  {
    if es == [] then None
    else if es[|es| - 1].StateChanged? && es[|es| - 1].axis == axis then Some(es[|es| - 1].value)
    else LastValue(es[..|es| - 1], axis)
  }

  /** Events that carry no axis notification. */
  predicate Quiet(es: seq<Event>)
  {
    forall i :: 0 <= i < |es| ==> !es[i].StateChanged?
  }

  /** Appending events: the later part wins when it carries a notification for the axis. */
  lemma {:induction false} LastValueAppend(a: seq<Event>, b: seq<Event>, axis: Axis)
    ensures LastValue(a + b, axis) == if LastValue(b, axis).Some? then LastValue(b, axis) else LastValue(a, axis)
    decreases |b|
  {
    if b == [] {
      assert a + b == a;
    } else {
      var n := |b| - 1;
      assert (a + b)[..|a + b| - 1] == a + b[..n];
      assert (a + b)[|a + b| - 1] == b[n];
      LastValueAppend(a, b[..n], axis);
    }
  }

  /** Events without axis notifications leave both observed values alone. */
  lemma {:induction false} QuietAppend(a: seq<Event>, b: seq<Event>, axis: Axis)
    requires Quiet(b)
    ensures LastValue(a + b, axis) == LastValue(a, axis)
    decreases |b|
  {
    if b == [] {
      assert a + b == a;
    } else {
      var n := |b| - 1;
      assert (a + b)[..|a + b| - 1] == a + b[..n];
      assert !b[n].StateChanged?;
      QuietAppend(a, b[..n], axis);
    }
  }

  /** An observer that tracks the axis notifications always knows the value the
      setter stored, and the setter of one axis never disturbs the other. */
  lemma TransitionObserved(es: seq<Event>, axis: Axis, other: Axis, value: string)
    requires other != axis
    ensures LastValue(es + TransitionEvents(axis, LastValue(es, axis), value), axis) == Some(value)
    ensures LastValue(es + TransitionEvents(axis, LastValue(es, axis), value), other) == LastValue(es, other)
  {
    var t := TransitionEvents(axis, LastValue(es, axis), value);
    if t != [] {
      var head := [StateChanged(axis, value), StateFlag(value, true)];
      assert head[..1] == [StateChanged(axis, value)] && [StateChanged(axis, value)][..0] == [];
      assert LastValue(head, axis) == Some(value);
      assert LastValue([StateChanged(axis, value)], other) == LastValue([], other) == None;
      assert LastValue(head, other) == None;
      if |t| == 3 {
        assert t[..2] == head;
      } else {
        assert t == head;
      }
    }
    LastValueAppend(es, t, axis);
    LastValueAppend(es, t, other);
  }

  /** Setting both axes from undefined, one after the other, leaves an
      observer knowing both values. */
  lemma OpeningObserved(session: string, connection: string)
    ensures var es := TransitionEvents(SessionAxis, None, session) + TransitionEvents(ConnectionAxis, None, connection);
      LastValue(es, SessionAxis) == Some(session) && LastValue(es, ConnectionAxis) == Some(connection)
  {
    var first := TransitionEvents(SessionAxis, None, session);
    assert LastValue([], SessionAxis) == None && [] + first == first;
    TransitionObserved([], SessionAxis, ConnectionAxis, session);
    assert LastValue(first, ConnectionAxis) == None;
    TransitionObserved(first, ConnectionAxis, SessionAxis, connection);
  }
}
