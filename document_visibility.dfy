/**
 * The document-visibility tracker (`useDocumentVisibility`): a cached
 * `visible` flag, a `count` of events on which the page was found hidden,
 * and a set of subscriber handlers that every `visibilitychange` event fans
 * out to in insertion order. Handlers are closures in the source; here each
 * is named by an id.
 */
module DocumentVisibility {

  type HandlerId = nat

  /**
   * One invocation of a subscriber: the handler, the argument it was given,
   * and the value `setVisible` had been called with before it ran.
   */
  datatype Call = Call(handler: HandlerId, isVisible: bool, trackerVisible: bool)

  /** The closure `onVisibilityChange` returns: bound to its tracker's set, calling it deletes `handler`. */
  datatype Unsubscribe = Unsubscribe(tracker: VisibilityTracker, handler: HandlerId)

  // ---------------------------------------------------------------------
  // Specification functions over the history of `document.hidden` values
  // ---------------------------------------------------------------------

  /** Number of events on which the document was hidden. */
  function HiddenEvents(events: seq<bool>): nat {
    if events == [] then 0
    else HiddenEvents(events[..|events| - 1]) + (if events[|events| - 1] then 1 else 0)
  }

  /** `document.hidden` as last seen: at construction, or at the latest event. */
  function CurrentHidden(initiallyHidden: bool, events: seq<bool>): bool {
    if events == [] then initiallyHidden else events[|events| - 1]
  }

  /** Number of events that took the page from visible to hidden. */
  function LeftForeground(initiallyHidden: bool, events: seq<bool>): nat {
    if events == [] then 0
    else
      var before := events[..|events| - 1];
      LeftForeground(initiallyHidden, before)
      + (if events[|events| - 1] && !CurrentHidden(initiallyHidden, before) then 1 else 0)
  }

  /** Every event really changes visibility, as a browser's own events do. */
  predicate EveryEventChanges(initiallyHidden: bool, events: seq<bool>) {
    forall i :: 0 <= i < |events| ==> events[i] != CurrentHidden(initiallyHidden, events[..i])
  }

  lemma HiddenEventsAppend(events: seq<bool>, hidden: bool)
    ensures HiddenEvents(events + [hidden]) == HiddenEvents(events) + (if hidden then 1 else 0)
  {
    assert (events + [hidden])[..|events|] == events;
  }

  /** Appending events never lowers the hidden count. */
  lemma {:induction false} HiddenEventsMonotone(events: seq<bool>, more: seq<bool>)
    ensures HiddenEvents(events) <= HiddenEvents(events + more)
    decreases |more|
  {
    if more == [] {
      assert events + more == events;
    } else {
      var init := more[..|more| - 1];
      assert events + more == (events + init) + [more[|more| - 1]];
      HiddenEventsAppend(events + init, more[|more| - 1]);
      HiddenEventsMonotone(events, init);
    }
  }

  /**
   * The count the source keeps is at least the number of visible-to-hidden
   * transitions; a hidden event while already hidden is counted as well.
   */
  lemma {:induction false} LeftForegroundAtMostHiddenEvents(initiallyHidden: bool, events: seq<bool>)
    ensures LeftForeground(initiallyHidden, events) <= HiddenEvents(events)
    decreases |events|
  {
    if events != [] {
      LeftForegroundAtMostHiddenEvents(initiallyHidden, events[..|events| - 1]);
    }
  }

  /** When every event changes visibility, the two counts agree. */
  lemma {:induction false} LeftForegroundOnRealChanges(initiallyHidden: bool, events: seq<bool>)
    requires EveryEventChanges(initiallyHidden, events)
    ensures LeftForeground(initiallyHidden, events) == HiddenEvents(events)
    decreases |events|
  {
    if events != [] {
      var before := events[..|events| - 1];
      assert EveryEventChanges(initiallyHidden, before) by {
        forall i | 0 <= i < |before|
          ensures before[i] != CurrentHidden(initiallyHidden, before[..i])
        {
          assert before[..i] == events[..i];
        }
      }
      assert events[..|events| - 1] == before;
      LeftForegroundOnRealChanges(initiallyHidden, before);
    }
  }

  /** Two hidden events in a row count twice, though the page left the foreground once. */
  lemma RepeatedHiddenEventCountsTwice()
    ensures LeftForeground(false, [true, true]) == 1
    ensures HiddenEvents([true, true]) == 2
  {
    assert [true, true][..1] == [true];
    assert [true][..0] == [];
  }

  // ---------------------------------------------------------------------
  // The handler set: a JavaScript `Set`, which keeps insertion order
  // ---------------------------------------------------------------------

  /** No handler occurs twice. */
  ghost predicate Distinct(hs: seq<HandlerId>) {
    hs == [] || (hs[0] !in hs[1..] && Distinct(hs[1..]))
  }

  /** Appending a handler not yet present keeps a sequence duplicate-free. */
  lemma {:induction false} DistinctAppend(hs: seq<HandlerId>, h: HandlerId)
    requires Distinct(hs) && h !in hs
    ensures Distinct(hs + [h])
  {
    if hs == [] {
      assert [] + [h] == [h] && [h][1..] == [];
    } else {
      var r := hs + [h];
      assert r[0] == hs[0] && r[1..] == hs[1..] + [h];
      DistinctAppend(hs[1..], h);
    }
  }

  /** `Set.prototype.add`: a new handler goes last; one already present keeps its place. */
  function Add(hs: seq<HandlerId>, h: HandlerId): (r: seq<HandlerId>)
    ensures h in r
    ensures |hs| <= |r| <= |hs| + 1 && r[..|hs|] == hs
    ensures |r| == |hs| <==> h in hs
    ensures Distinct(hs) ==> Distinct(r)
  {
    if h in hs then hs
    else
      assert (hs + [h])[..|hs|] == hs;
      assert Distinct(hs) ==> Distinct(hs + [h]) by {
        if Distinct(hs) {
          DistinctAppend(hs, h);
        }
      }
      hs + [h]
  }

  /** `Set.prototype.delete`: the handler is dropped and the others keep their order. */
  function Remove(hs: seq<HandlerId>, h: HandlerId): (r: seq<HandlerId>)
    ensures multiset(r) == multiset(hs)[h := 0]
    ensures Distinct(hs) ==> Distinct(r)
  {
    if hs == [] then []
    else
      assert hs == [hs[0]] + hs[1..];
      var rest := Remove(hs[1..], h);
      if hs[0] == h then rest
      else
        var r := [hs[0]] + rest;
        assert multiset(r) == multiset{hs[0]} + multiset(rest);
        assert r[0] == hs[0] && r[1..] == rest;
        assert hs[0] !in hs[1..] ==> hs[0] !in rest by {
          assert multiset(rest)[hs[0]] == multiset(hs[1..])[hs[0]];
        }
        r
  }

  /** Deleting a handler that is not in the set leaves it as it was. */
  lemma {:induction false} RemoveAbsent(hs: seq<HandlerId>, h: HandlerId)
    requires h !in hs
    ensures Remove(hs, h) == hs
  {
    if hs != [] {
      assert hs == [hs[0]] + hs[1..];
      RemoveAbsent(hs[1..], h);
    }
  }

  /** Deleting the handler at position i closes the gap: the rest keep their order. */
  lemma {:induction false} RemoveAt(hs: seq<HandlerId>, i: nat)
    requires Distinct(hs) && i < |hs|
    ensures Remove(hs, hs[i]) == hs[..i] + hs[i + 1..]
  {
    var tail := hs[1..];
    assert hs[0] !in tail && Distinct(tail);
    if i == 0 {
      RemoveAbsent(tail, hs[0]);
    } else {
      var h := hs[i];
      assert tail[i - 1] == h && h in tail && h != hs[0];
      RemoveAt(tail, i - 1);
      assert Remove(hs, h) == [hs[0]] + Remove(tail, h);
      ConsGap(hs, i);
    }
  }

  /** Putting the head back in front of the tail with a gap at i - 1 gives the sequence with a gap at i. */
  lemma ConsGap(hs: seq<HandlerId>, i: nat)
    requires 0 < i < |hs|
    ensures [hs[0]] + (hs[1..][..i - 1] + hs[1..][i..]) == hs[..i] + hs[i + 1..]
  {
    assert [hs[0]] + hs[1..][..i - 1] == hs[..i];
    assert hs[1..][i..] == hs[i + 1..];
  }

  /** Adding a new handler and deleting it again restores the set, order included. */
  lemma {:induction false} RemoveUndoesAdd(hs: seq<HandlerId>, h: HandlerId)
    requires h !in hs
    ensures Remove(Add(hs, h), h) == hs
  {
    var r := Add(hs, h);
    assert r == hs + [h];
    if hs == [] {
      assert r[1..] == [];
    } else {
      assert r[0] == hs[0] != h && r[1..] == Add(hs[1..], h);
      RemoveUndoesAdd(hs[1..], h);
      assert hs == [hs[0]] + hs[1..];
    }
  }

  // ---------------------------------------------------------------------
  // Fan-out: what the handler calls of one event look like
  // ---------------------------------------------------------------------

  /** The arguments handler `h` received, in call order. */
  function CallsTo(log: seq<Call>, h: HandlerId): seq<bool> {
    if log == [] then []
    else
      var last := log[|log| - 1];
      CallsTo(log[..|log| - 1], h) + (if last.handler == h then [last.isVisible] else [])
  }

  /**
   * The calls one event makes: every handler in set order, each given
   * `isVisible`, after `setVisible(isVisible)` has been called.
   */
  function FanOut(hs: seq<HandlerId>, isVisible: bool): seq<Call> {
    seq(|hs|, i requires 0 <= i < |hs| => Call(hs[i], isVisible, isVisible))
  }

  lemma {:induction false} CallsToAppend(log: seq<Call>, more: seq<Call>, h: HandlerId)
    ensures CallsTo(log + more, h) == CallsTo(log, h) + CallsTo(more, h)
    decreases |more|
  {
    if more == [] {
      assert log + more == log;
    } else {
      var init := more[..|more| - 1];
      assert (log + more)[..|log + more| - 1] == log + init;
      CallsToAppend(log, init, h);
    }
  }

  /** In one event's fan-out, a handler is called once if subscribed and never otherwise. */
  lemma {:induction false} FanOutCalls(hs: seq<HandlerId>, isVisible: bool, h: HandlerId)
    requires Distinct(hs)
    ensures CallsTo(FanOut(hs, isVisible), h) == if h in hs then [isVisible] else []
  {
    if hs != [] {
      var first := Call(hs[0], isVisible, isVisible);
      FanOutCons(hs, isVisible);
      CallsToAppend([first], FanOut(hs[1..], isVisible), h);
      CallsToOne(first, h);
      FanOutCalls(hs[1..], isVisible, h);
      assert h in hs <==> h == hs[0] || h in hs[1..] by {
        assert hs == [hs[0]] + hs[1..];
      }
    }
  }

  /** A fan-out starts with the first handler's call. */
  lemma FanOutCons(hs: seq<HandlerId>, isVisible: bool)
    requires hs != []
    ensures FanOut(hs, isVisible) == [Call(hs[0], isVisible, isVisible)] + FanOut(hs[1..], isVisible)
  {
  }

  /** A one-call log holds a call to `h` only if that call is to `h`. */
  lemma CallsToOne(c: Call, h: HandlerId)
    ensures CallsTo([c], h) == if c.handler == h then [c.isVisible] else []
  {
    assert [c][..0] == [];
  }

  /** After one event's fan-out, each handler's calls grow by one call if it is subscribed. */
  lemma FanOutExtendsCalls(log: seq<Call>, hs: seq<HandlerId>, isVisible: bool)
    requires Distinct(hs)
    ensures forall h :: CallsTo(log + FanOut(hs, isVisible), h) == CallsTo(log, h) + (if h in hs then [isVisible] else [])
  {
    forall h
      ensures CallsTo(log + FanOut(hs, isVisible), h) == CallsTo(log, h) + (if h in hs then [isVisible] else [])
    {
      CallsToAppend(log, FanOut(hs, isVisible), h);
      FanOutCalls(hs, isVisible, h);
    }
  }

  // ---------------------------------------------------------------------
  // The tracker
  // ---------------------------------------------------------------------

  class VisibilityTracker {
    var visible: bool
    var count: nat
    /** The handler `Set`, in insertion order. */
    var handlers: seq<HandlerId>

    /** Every handler call so far: in event order, and within one event in set order. */
    ghost var calls: seq<Call>
    /** `document.hidden` at construction and at each event since. */
    ghost var initiallyHidden: bool
    ghost var hiddenHistory: seq<bool>
    /** How many `visibilitychange` listeners this tracker has on the document. */
    ghost var documentListeners: nat

    ghost predicate Valid()
      reads this
    {
      && count == HiddenEvents(hiddenHistory)
      && visible == !CurrentHidden(initiallyHidden, hiddenHistory)
      && Distinct(handlers)
      && documentListeners <= 1
    }

    /** First render: `visible` from `document.hidden`, `count` zero, no handlers. */
    constructor (hidden: bool)
      ensures Valid()
      ensures visible == !hidden && count == 0
      ensures handlers == [] && calls == []
      ensures initiallyHidden == hidden && hiddenHistory == [] && documentListeners == 0
    {
      visible := !hidden;
      count := 0;
      handlers := [];
      calls := [];
      initiallyHidden := hidden;
      hiddenHistory := [];
      documentListeners := 0;
    }

    /** The mount effect: one `visibilitychange` listener is added to the document. */
    method Mount()
      requires Valid() && documentListeners == 0
      modifies this`documentListeners
      ensures Valid() && documentListeners == 1
    {
      documentListeners := documentListeners + 1;
    }

    /** The effect's cleanup: the same listener is removed again. */
    method Unmount()
      requires Valid() && documentListeners == 1
      modifies this`documentListeners
      ensures Valid() && documentListeners == 0
    {
      documentListeners := documentListeners - 1;
    }

    /**
     * `handleVisibilityChange`, run by the document while the listener is
     * registered: call `setVisible`, count a hidden event, then call every
     * handler in set order with the new visibility.
     */
    method HandleVisibilityChange(hidden: bool)
      requires Valid() && documentListeners == 1
      modifies this`visible, this`count, this`calls, this`hiddenHistory
      ensures Valid()
      ensures hiddenHistory == old(hiddenHistory) + [hidden]
      ensures visible == !hidden
      ensures count == old(count) + (if hidden then 1 else 0)
      ensures calls == old(calls) + FanOut(handlers, !hidden)
      ensures forall h :: CallsTo(calls, h) == CallsTo(old(calls), h) + (if h in handlers then [!hidden] else [])
    {
      var isVisible := !hidden;
      visible := isVisible;
      if !isVisible {
        count := count + 1;
      }
      HiddenEventsAppend(hiddenHistory, hidden);
      hiddenHistory := hiddenHistory + [hidden];

      NotifyHandlers(isVisible);
      FanOutExtendsCalls(old(calls), handlers, isVisible);
    }

    /** The `forEach` over the handler set: every handler called once, in set order, with `isVisible`. */
    method NotifyHandlers(isVisible: bool)
      requires visible == isVisible
      modifies this`calls
      ensures calls == old(calls) + FanOut(handlers, isVisible)
    {
      for i := 0 to |handlers|
        invariant visible == isVisible
        invariant calls == old(calls) + FanOut(handlers[..i], isVisible)
      {
        assert FanOut(handlers[..i + 1], isVisible) == FanOut(handlers[..i], isVisible) + [Call(handlers[i], isVisible, isVisible)];
        calls := calls + [Call(handlers[i], isVisible, visible)];
      }
      assert handlers[..|handlers|] == handlers;
    }

    /** `onVisibilityChange`: adds the handler to the set and returns its unsubscribe closure. */
    method OnVisibilityChange(h: HandlerId) returns (unsubscribe: Unsubscribe)
      requires Valid()
      modifies this`handlers
      ensures Valid()
      ensures handlers == Add(old(handlers), h)
      ensures unsubscribe == Unsubscribe(this, h)
    {
      ghost var before := handlers;
      handlers := Add(handlers, h);
      assert Distinct(before) && Distinct(handlers);
      unsubscribe := Unsubscribe(this, h);
    }

    /** Calling an unsubscribe closure of this tracker: deletes its handler from the set. */
    method CallUnsubscribe(unsubscribe: Unsubscribe)
      requires Valid() && unsubscribe.tracker == this
      modifies this`handlers
      ensures Valid()
      ensures handlers == Remove(old(handlers), unsubscribe.handler)
    {
      ghost var before := handlers;
      handlers := Remove(handlers, unsubscribe.handler);
      assert Distinct(before) && Distinct(handlers);
    }
  }

  /** The fan-out over two handlers, written out. */
  lemma FanOutPair(a: HandlerId, b: HandlerId, isVisible: bool)
    ensures FanOut([a, b], isVisible) == [Call(a, isVisible, isVisible), Call(b, isVisible, isVisible)]
  {
  }

  // ---------------------------------------------------------------------
  // Client runs that replay the source's browser tests
  // ---------------------------------------------------------------------

  /** Hide, show, hide, show from a visible start. */
  method HideShowHideShow() returns (visible: bool, count: nat)
    ensures visible && count == 2
  {
    var t := new VisibilityTracker(false);
    t.Mount();
    t.HandleVisibilityChange(true);
    t.HandleVisibilityChange(false);
    t.HandleVisibilityChange(true);
    t.HandleVisibilityChange(false);
    visible, count := t.visible, t.count;
  }

  /** Starting hidden: not visible, nothing counted yet; showing leaves the count at zero. */
  method StartHiddenThenShow() returns (initiallyVisible: bool, initialCount: nat, visible: bool, count: nat)
    ensures !initiallyVisible && initialCount == 0
    ensures visible && count == 0
  {
    var t := new VisibilityTracker(true);
    initiallyVisible, initialCount := t.visible, t.count;
    t.Mount();
    t.HandleVisibilityChange(false);
    visible, count := t.visible, t.count;
  }

  /**
   * `Set.add` and `Set.delete` on the small sets the runs below pass
   * through: a second add changes nothing, a re-add after a delete goes last.
   */
  lemma SetSteps()
    ensures Add([], 1) == [1] && Add([1], 1) == [1] && Add([1], 2) == [1, 2]
    ensures Add([1, 2], 1) == [1, 2] && Add([2], 1) == [2, 1]
    ensures Remove([1], 1) == [] && Remove([1, 2], 1) == [2]
  {
  }

  /** A handler sees hide then show, once each, in that order. */
  method HandlerSeesEachChange() returns (ghost received: seq<bool>)
    ensures received == [false, true]
  {
    SetSteps();
    var t := new VisibilityTracker(false);
    t.Mount();
    var _ := t.OnVisibilityChange(1);
    assert 1 in t.handlers && CallsTo(t.calls, 1) == [];
    t.HandleVisibilityChange(true);
    assert CallsTo(t.calls, 1) == [false];
    t.HandleVisibilityChange(false);
    received := CallsTo(t.calls, 1);
  }

  /** Subscribing the same handler twice still gives one call per event. */
  method DuplicateSubscribe() returns (ghost received: seq<bool>)
    ensures received == [false]
  {
    SetSteps();
    var t := new VisibilityTracker(false);
    t.Mount();
    var _ := t.OnVisibilityChange(1);
    var _ := t.OnVisibilityChange(1);
    assert 1 in t.handlers && CallsTo(t.calls, 1) == [];
    t.HandleVisibilityChange(true);
    received := CallsTo(t.calls, 1);
  }

  /** Two handlers, the first unsubscribed before a hide: only the second hears it. */
  method UnsubscribeOnlySpecific() returns (ghost first: seq<bool>, ghost second: seq<bool>)
    ensures first == [] && second == [false]
  {
    SetSteps();
    var t := new VisibilityTracker(false);
    t.Mount();
    var unsubscribe1 := t.OnVisibilityChange(1);
    var _ := t.OnVisibilityChange(2);
    t.CallUnsubscribe(unsubscribe1);
    assert 1 !in t.handlers && 2 in t.handlers && CallsTo(t.calls, 1) == CallsTo(t.calls, 2) == [];
    t.HandleVisibilityChange(true);
    first, second := CallsTo(t.calls, 1), CallsTo(t.calls, 2);
  }

  /** Unsubscribe, then subscribe the same handler again: exactly one call per event. */
  method Resubscribe() returns (ghost received: seq<bool>)
    ensures received == [false]
  {
    SetSteps();
    var t := new VisibilityTracker(false);
    t.Mount();
    var unsubscribe := t.OnVisibilityChange(1);
    t.CallUnsubscribe(unsubscribe);
    var _ := t.OnVisibilityChange(1);
    assert 1 in t.handlers && CallsTo(t.calls, 1) == [];
    t.HandleVisibilityChange(true);
    received := CallsTo(t.calls, 1);
  }

  /**
   * Removal is by handler identity: an unsubscribe kept from before a
   * resubscription removes the new subscription too.
   */
  method StaleUnsubscribeRemovesResubscription() returns (ghost received: seq<bool>)
    ensures received == []
  {
    SetSteps();
    var t := new VisibilityTracker(false);
    t.Mount();
    var stale := t.OnVisibilityChange(1);
    t.CallUnsubscribe(stale);
    var _ := t.OnVisibilityChange(1);
    t.CallUnsubscribe(stale);
    t.HandleVisibilityChange(true);
    received := CallsTo(t.calls, 1);
  }

  /** Handlers are called in subscription order; a handler deleted and added again moves to the end. */
  method ReaddedHandlerMovesToEnd() returns (ghost batch: seq<Call>)
    ensures batch == [Call(2, false, false), Call(1, false, false)]
  {
    SetSteps();
    FanOutPair(2, 1, false);
    var t := new VisibilityTracker(false);
    t.Mount();
    var unsubscribe1 := t.OnVisibilityChange(1);
    var _ := t.OnVisibilityChange(2);
    t.CallUnsubscribe(unsubscribe1);
    var _ := t.OnVisibilityChange(1);
    ghost var before := t.calls;
    t.HandleVisibilityChange(true);
    batch := t.calls[|before|..];
  }

  /** Adding a handler that is already subscribed keeps its place in the call order. */
  method SecondAddKeepsPlace() returns (ghost batch: seq<Call>)
    ensures batch == [Call(1, false, false), Call(2, false, false)]
  {
    SetSteps();
    FanOutPair(1, 2, false);
    var t := new VisibilityTracker(false);
    t.Mount();
    var _ := t.OnVisibilityChange(1);
    var _ := t.OnVisibilityChange(2);
    var _ := t.OnVisibilityChange(1);
    ghost var before := t.calls;
    t.HandleVisibilityChange(true);
    batch := t.calls[|before|..];
  }
}
