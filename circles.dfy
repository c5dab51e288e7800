/**
 * The circle-drawing example's undo/redo handler.
 *
 * The handler keeps the circles drawn so far (a point and the widget drawn
 * for it) and the points undone so far, reacts to Add, Undo and Redo, and
 * switches the Undo and Redo buttons between active and inactive by putting
 * property-change events on the UI's queue. Creating a circle widget is
 * modelled as handing out the next widget id; removing one as dropping its
 * id from the set of live circle widgets.
 */
module Circles {
  import opened Ui

  datatype Point = Point(x: real, y: real)

  datatype CircleEvent = Add(point: Point) | Undo | Redo

  /** The handler's two stacks, top at the end. */
  datatype Stacks = Stacks(circles: seq<(Point, WidgetId)>, undo: seq<Point>)

  /** The stacks after handling one event and the events handling it queued, in order. */
  datatype Outcome = Outcome(stacks: Stacks, queued: seq<Emitted>)

  function Points(cs: seq<(Point, WidgetId)>): (r: seq<Point>)
    ensures |r| == |cs| && forall i :: 0 <= i < |cs| ==> r[i] == cs[i].0
  {
    seq(|cs|, i requires 0 <= i < |cs| => cs[i].0)
  }

  function CircleIds(cs: seq<(Point, WidgetId)>): set<WidgetId>
  {
    set i | 0 <= i < |cs| :: cs[i].1
  }

  lemma CircleIdsPush(cs: seq<(Point, WidgetId)>, c: (Point, WidgetId))
    ensures CircleIds(cs + [c]) == CircleIds(cs) + {c.1}
  {
    var ds := cs + [c];
    assert ds[|cs|] == c;
    forall id | id in CircleIds(cs) ensures id in CircleIds(ds) {
      var i :| 0 <= i < |cs| && cs[i].1 == id;
      assert ds[i] == cs[i];
    }
  }

  /** Whether handling `e` creates a circle widget (and so uses a new id). */
  predicate Creates(s: Stacks, e: CircleEvent)
  {
    e.Add? || (e.Redo? && s.undo != [])
  }

  /**
   * One event, as the handler is written. `newId` is the id the widget graph
   * gives the circle created by Add or Redo.
   */
  function Step(undoId: WidgetId, redoId: WidgetId, s: Stacks, e: CircleEvent, newId: WidgetId): (r: Outcome)
    ensures |r.queued| <= 2
    ensures forall k :: 0 <= k < |r.queued| ==>
      r.queued[k] in {Enable(undoId), Disable(undoId), Enable(redoId), Disable(redoId)}
    ensures Creates(s, e) <==> |r.stacks.circles| == |s.circles| + 1
    ensures Creates(s, e) ==>
      r.stacks.circles[..|s.circles|] == s.circles && r.stacks.circles[|s.circles|].1 == newId
  {
    match e
    case Add(p) =>
      Outcome(Stacks(s.circles + [(p, newId)], []), [Enable(undoId), Disable(redoId)])
    case Undo =>
      if |s.circles| > 0 then
        var rest := s.circles[..|s.circles| - 1];
        Outcome(Stacks(rest, s.undo + [s.circles[|s.circles| - 1].0]),
                [Enable(redoId)] + if |rest| == 0 then [Disable(undoId)] else [])
      else
        Outcome(s, [])
    case Redo =>
      if |s.undo| > 0 then
        var rest := s.undo[..|s.undo| - 1];
        Outcome(Stacks(s.circles + [(s.undo[|s.undo| - 1], newId)], rest),
                if |rest| == 0 then [Disable(redoId)] else [])
      else
        Outcome(s, [])
  }

  /**
   * One event, with Redo also re-activating the Undo button (it always leaves
   * at least one circle to undo).
   */
  function StepFixed(undoId: WidgetId, redoId: WidgetId, s: Stacks, e: CircleEvent, newId: WidgetId): (r: Outcome)
    ensures var o := Step(undoId, redoId, s, e, newId);
      && r.stacks == o.stacks
      && |o.queued| <= |r.queued| <= |o.queued| + 1
      && r.queued[..|o.queued|] == o.queued
      && (|r.queued| == |o.queued| + 1 <==> e.Redo? && s.undo != [])
      && (e.Redo? && s.undo != [] ==> r.queued[|r.queued| - 1] == Enable(undoId))
  {
    var o := Step(undoId, redoId, s, e, newId);
    if e.Redo? && s.undo != [] then o.(queued := o.queued + [Enable(undoId)]) else o
  }

  /** A run of events from `s`; circle widgets get consecutive ids from `next`. */
  function Run(undoId: WidgetId, redoId: WidgetId, s: Stacks, es: seq<CircleEvent>, next: WidgetId): Outcome
    decreases |es|
  {
    if es == [] then Outcome(s, [])
    else
      var o := Step(undoId, redoId, s, es[0], next);
      var rest := Run(undoId, redoId, o.stacks, es[1..], if Creates(s, es[0]) then next + 1 else next);
      Outcome(rest.stacks, o.queued + rest.queued)
  }

  function RunFixed(undoId: WidgetId, redoId: WidgetId, s: Stacks, es: seq<CircleEvent>, next: WidgetId): Outcome
    decreases |es|
  {
    if es == [] then Outcome(s, [])
    else
      var o := StepFixed(undoId, redoId, s, es[0], next);
      var rest := RunFixed(undoId, redoId, o.stacks, es[1..], if Creates(s, es[0]) then next + 1 else next);
      Outcome(rest.stacks, o.queued + rest.queued)
  }

  // ---------------------------------------------------------------------------
  // Properties of one step

  lemma AddPushesAndClearsUndo(undoId: WidgetId, redoId: WidgetId, s: Stacks, p: Point, newId: WidgetId)
    ensures var o := Step(undoId, redoId, s, CircleEvent.Add(p), newId);
      && o.stacks.circles == s.circles + [(p, newId)]
      && o.stacks.undo == []
      && o.queued == [Enable(undoId), Disable(redoId)]
  {
  }

  lemma UndoOnEmptyDoesNothing(undoId: WidgetId, redoId: WidgetId, s: Stacks, newId: WidgetId)
    requires s.circles == []
    ensures Step(undoId, redoId, s, Undo, newId) == Outcome(s, [])
  {
  }

  lemma UndoPopsCircle(undoId: WidgetId, redoId: WidgetId, s: Stacks, newId: WidgetId)
    requires s.circles != []
    ensures var o := Step(undoId, redoId, s, Undo, newId);
      var n := |s.circles|;
      && o.stacks.circles == s.circles[..n - 1]
      && o.stacks.undo == s.undo + [s.circles[n - 1].0]
      && o.queued[0] == Enable(redoId)
      && (o.stacks.circles == [] ==> o.queued == [Enable(redoId), Disable(undoId)])
      && (o.stacks.circles != [] ==> o.queued == [Enable(redoId)])
  {
  }

  lemma RedoOnEmptyDoesNothing(undoId: WidgetId, redoId: WidgetId, s: Stacks, newId: WidgetId)
    requires s.undo == []
    ensures Step(undoId, redoId, s, Redo, newId) == Outcome(s, [])
  {
  }

  lemma RedoRestoresPoint(undoId: WidgetId, redoId: WidgetId, s: Stacks, newId: WidgetId)
    requires s.undo != []
    ensures var o := Step(undoId, redoId, s, Redo, newId);
      var n := |s.undo|;
      && o.stacks.circles == s.circles + [(s.undo[n - 1], newId)]
      && o.stacks.undo == s.undo[..n - 1]
      && o.queued == (if n == 1 then [Disable(redoId)] else [])
      && forall k :: 0 <= k < |o.queued| ==> o.queued[k].target != SubTree(undoId) || undoId == redoId
  {
  }

  /** Undo then Redo gives back the same points and undo stack; only the top circle's widget is new. */
  lemma UndoRedoRoundTrip(undoId: WidgetId, redoId: WidgetId, s: Stacks, newId1: WidgetId, newId2: WidgetId)
    requires s.circles != []
    ensures var t := Step(undoId, redoId, Step(undoId, redoId, s, Undo, newId1).stacks, Redo, newId2).stacks;
      && Points(t.circles) == Points(s.circles)
      && t.circles[..|t.circles| - 1] == s.circles[..|s.circles| - 1]
      && t.circles[|t.circles| - 1].1 == newId2
      && t.undo == s.undo
  {
    var n := |s.circles|;
    UndoPopsCircle(undoId, redoId, s, newId1);
    var u := Step(undoId, redoId, s, Undo, newId1).stacks;
    assert u.undo == s.undo + [s.circles[n - 1].0];
    RedoRestoresPoint(undoId, redoId, u, newId2);
    var t := Step(undoId, redoId, u, Redo, newId2).stacks;
    assert u.undo[..|u.undo| - 1] == s.undo;
    assert t.circles == s.circles[..n - 1] + [(s.circles[n - 1].0, newId2)];
    forall i | 0 <= i < n ensures t.circles[i].0 == s.circles[i].0 {
      if i < n - 1 { assert t.circles[i] == s.circles[i]; }
    }
  }

  /** Undo and Redo move points between the stacks and never lose or add one. */
  lemma UndoRedoKeepTotal(undoId: WidgetId, redoId: WidgetId, s: Stacks, e: CircleEvent, newId: WidgetId)
    requires !e.Add?
    ensures var o := Step(undoId, redoId, s, e, newId);
      |o.stacks.circles| + |o.stacks.undo| == |s.circles| + |s.undo|
  {
  }

  // ---------------------------------------------------------------------------
  // The buttons against the stacks

  /** Both buttons are created inactive, and both stacks start empty. */
  function InitialButtons(undoId: WidgetId, redoId: WidgetId): map<WidgetId, PropSet>
  {
    map[undoId := {Inactive}, redoId := {Inactive}]
  }

  /** Undo is active exactly when there is a circle to undo; Redo exactly when there is a point to redo. */
  ghost predicate ButtonsMatch(undoId: WidgetId, redoId: WidgetId, s: Stacks, props: map<WidgetId, PropSet>)
  {
    && undoId in props && redoId in props
    && (Inactive in props[undoId] <==> s.circles == [])
    && (Inactive in props[redoId] <==> s.undo == [])
  }

  /** What the handler as written keeps: an active Undo button always has a circle to undo. */
  ghost predicate ButtonsSound(undoId: WidgetId, redoId: WidgetId, s: Stacks, props: map<WidgetId, PropSet>)
  {
    && undoId in props && redoId in props
    && (Inactive !in props[undoId] ==> s.circles != [])
    && (Inactive in props[redoId] <==> s.undo == [])
  }

  lemma InitialButtonsMatch(undoId: WidgetId, redoId: WidgetId)
    requires undoId != redoId
    ensures ButtonsMatch(undoId, redoId, Stacks([], []), InitialButtons(undoId, redoId))
  {
  }

  lemma StepKeepsButtonsSound(undoId: WidgetId, redoId: WidgetId, s: Stacks, props: map<WidgetId, PropSet>,
                              e: CircleEvent, newId: WidgetId)
    requires undoId != redoId
    requires ButtonsSound(undoId, redoId, s, props)
    ensures var o := Step(undoId, redoId, s, e, newId);
      ButtonsSound(undoId, redoId, o.stacks, Deliver(props, o.queued))
  {
    var o := Step(undoId, redoId, s, e, newId);
    DeliverShort(props, o.queued);
  }

  lemma StepFixedKeepsButtonsMatch(undoId: WidgetId, redoId: WidgetId, s: Stacks, props: map<WidgetId, PropSet>,
                                   e: CircleEvent, newId: WidgetId)
    requires undoId != redoId
    requires ButtonsMatch(undoId, redoId, s, props)
    ensures var o := StepFixed(undoId, redoId, s, e, newId);
      ButtonsMatch(undoId, redoId, o.stacks, Deliver(props, o.queued))
  {
    var o := StepFixed(undoId, redoId, s, e, newId);
    DeliverShort(props, o.queued);
  }

  /** The handler as written keeps the Undo button sound over any run of events. */
  lemma {:induction false} RunKeepsButtonsSound(undoId: WidgetId, redoId: WidgetId, s: Stacks,
                                                props: map<WidgetId, PropSet>, es: seq<CircleEvent>, next: WidgetId)
    requires undoId != redoId
    requires ButtonsSound(undoId, redoId, s, props)
    ensures var o := Run(undoId, redoId, s, es, next);
      ButtonsSound(undoId, redoId, o.stacks, Deliver(props, o.queued))
    decreases |es|
  {
    if es != [] {
      var o := Step(undoId, redoId, s, es[0], next);
      var next' := if Creates(s, es[0]) then next + 1 else next;
      var rest := Run(undoId, redoId, o.stacks, es[1..], next');
      StepKeepsButtonsSound(undoId, redoId, s, props, es[0], next);
      RunKeepsButtonsSound(undoId, redoId, o.stacks, Deliver(props, o.queued), es[1..], next');
      DeliverAppend(props, o.queued, rest.queued);
    }
  }

  /** With the fix, both buttons follow the stacks exactly over any run of events. */
  lemma {:induction false} RunFixedKeepsButtonsMatch(undoId: WidgetId, redoId: WidgetId, s: Stacks,
                                                     props: map<WidgetId, PropSet>, es: seq<CircleEvent>, next: WidgetId)
    requires undoId != redoId
    requires ButtonsMatch(undoId, redoId, s, props)
    ensures var o := RunFixed(undoId, redoId, s, es, next);
      ButtonsMatch(undoId, redoId, o.stacks, Deliver(props, o.queued))
    decreases |es|
  {
    if es != [] {
      var o := StepFixed(undoId, redoId, s, es[0], next);
      var next' := if Creates(s, es[0]) then next + 1 else next;
      var rest := RunFixed(undoId, redoId, o.stacks, es[1..], next');
      StepFixedKeepsButtonsMatch(undoId, redoId, s, props, es[0], next);
      RunFixedKeepsButtonsMatch(undoId, redoId, o.stacks, Deliver(props, o.queued), es[1..], next');
      DeliverAppend(props, o.queued, rest.queued);
    }
  }

  /**
   * As written, Add, Undo, Redo leaves one circle on the canvas while the Undo
   * button stays inactive: the circle can no longer be undone.
   */
  lemma RedoLeavesUndoButtonInactive(undoId: WidgetId, redoId: WidgetId, p: Point, next: WidgetId)
    requires undoId != redoId
    ensures var o := Run(undoId, redoId, Stacks([], []), [CircleEvent.Add(p), Undo, Redo], next);
      var props := Deliver(InitialButtons(undoId, redoId), o.queued);
      && |o.stacks.circles| == 1
      && Inactive in props[undoId]
      && !ButtonsMatch(undoId, redoId, o.stacks, props)
  {
    var q1, q2, q3 := [Enable(undoId), Disable(redoId)], [Enable(redoId), Disable(undoId)], [Disable(redoId)];
    RunAddUndoRedo(undoId, redoId, p, next);
    var b0 := InitialButtons(undoId, redoId);
    DeliverShort(b0, q1);
    var b1 := Deliver(b0, q1);
    assert Inactive !in b1[undoId];
    DeliverShort(b1, q2);
    var b2 := Deliver(b1, q2);
    assert Inactive in b2[undoId];
    DeliverShort(b2, q3);
    DeliverAppend(b0, q1, q2 + q3);
    DeliverAppend(b1, q2, q3);
  }

  /** The stacks and the queue after Add, Undo, Redo from the empty canvas. */
  lemma RunAddUndoRedo(undoId: WidgetId, redoId: WidgetId, p: Point, next: WidgetId)
    ensures Run(undoId, redoId, Stacks([], []), [CircleEvent.Add(p), Undo, Redo], next)
         == Outcome(Stacks([(p, next + 1)], []),
                    [Enable(undoId), Disable(redoId)] + ([Enable(redoId), Disable(undoId)] + [Disable(redoId)]))
  {
    var es := [CircleEvent.Add(p), Undo, Redo];
    assert es[1..] == [Undo, Redo];
    var s1 := Stacks([(p, next)], []);
    assert Step(undoId, redoId, Stacks([], []), es[0], next) == Outcome(s1, [Enable(undoId), Disable(redoId)]);
    RunUndoRedo(undoId, redoId, p, next);
  }

  lemma RunUndoRedo(undoId: WidgetId, redoId: WidgetId, p: Point, next: WidgetId)
    ensures Run(undoId, redoId, Stacks([(p, next)], []), [Undo, Redo], next + 1)
         == Outcome(Stacks([(p, next + 1)], []), [Enable(redoId), Disable(undoId)] + [Disable(redoId)])
  {
    var es := [Undo, Redo];
    assert es[1..] == [Redo];
    var s1 := Stacks([(p, next)], []);
    assert s1.circles[..0] == [];
    assert Step(undoId, redoId, s1, Undo, next + 1) == Outcome(Stacks([], [p]), [Enable(redoId), Disable(undoId)]);
    RunRedo(undoId, redoId, p, next + 1);
  }

  lemma RunRedo(undoId: WidgetId, redoId: WidgetId, p: Point, next: WidgetId)
    ensures Run(undoId, redoId, Stacks([], [p]), [Redo], next) == Outcome(Stacks([(p, next)], []), [Disable(redoId)])
  {
    var es := [Redo];
    assert es[1..] == [];
    var s2 := Stacks([], [p]);
    assert s2.undo[..0] == [];
    assert Step(undoId, redoId, s2, Redo, next) == Outcome(Stacks([(p, next)], []), [Disable(redoId)]);
    assert [Disable(redoId)] + [] == [Disable(redoId)];
  }

  // ---------------------------------------------------------------------------
  // The handler object

  class CircleEventHandler {
    const undoId: WidgetId
    const redoId: WidgetId
    var circles: seq<(Point, WidgetId)>
    var undo: seq<Point>
    /** Events this handler has put on the UI's queue, oldest first. */
    var queue: seq<Emitted>
    /** Circle widgets currently in the widget graph. */
    var live: set<WidgetId>
    /** The next id the widget graph hands out. */
    var nextId: WidgetId

    ghost predicate Valid()
      reads this
    {
      && undoId < nextId && redoId < nextId
      && (forall i :: 0 <= i < |circles| ==>
            undoId < circles[i].1 < nextId && redoId < circles[i].1)
      && (forall i, j :: 0 <= i < j < |circles| ==> circles[i].1 != circles[j].1)
      && live == CircleIds(circles)
    }

    function State(): Stacks
      reads this
    {
      Stacks(circles, undo)
    }

    constructor (undoId: WidgetId, redoId: WidgetId, nextFreeId: WidgetId)
      requires undoId < nextFreeId && redoId < nextFreeId
      ensures Valid()
      ensures this.undoId == undoId && this.redoId == redoId
      ensures circles == [] && undo == [] && queue == [] && live == {} && nextId == nextFreeId
    {
      this.undoId := undoId;
      this.redoId := redoId;
      circles := [];
      undo := [];
      queue := [];
      live := {};
      nextId := nextFreeId;
    }

    /** Adds a circle widget to the graph; its geometry is not modelled. */
    method CreateCircle(center: Point) returns (id: WidgetId)
      modifies this`live, this`nextId
      ensures id == old(nextId) && nextId == old(nextId) + 1
      ensures live == old(live) + {id}
    {
      id := nextId;
      nextId := nextId + 1;
      live := live + {id};
    }

    method RemoveWidget(id: WidgetId)
      modifies this`live
      ensures live == old(live) - {id}
    {
      live := live - {id};
    }

    method Handle(e: CircleEvent)
      requires Valid()
      modifies this
      ensures Valid()
      ensures var o := Step(undoId, redoId, old(State()), e, old(nextId));
        State() == o.stacks && queue == old(queue) + o.queued
      ensures nextId == if Creates(old(State()), e) then old(nextId) + 1 else old(nextId)
      ensures e.Undo? && old(circles) != [] ==> live == old(live) - {old(circles)[|old(circles)| - 1].1}
      ensures Creates(old(State()), e) ==> live == old(live) + {old(nextId)}
      ensures !Creates(old(State()), e) && !(e.Undo? && old(circles) != []) ==> live == old(live)
    {
      match e
      case Add(point) => HandleAdd(point);
      case Undo => HandleUndo();
      case Redo => HandleRedo();
    }

    method HandleAdd(point: Point)
      requires Valid()
      modifies this
      ensures Valid()
      ensures var o := Step(undoId, redoId, old(State()), CircleEvent.Add(point), old(nextId));
        State() == o.stacks && queue == old(queue) + o.queued
      ensures nextId == old(nextId) + 1 && live == old(live) + {old(nextId)}
    {
      var id := CreateCircle(point);
      circles := circles + [(point, id)];
      undo := [];
      queue := queue + [Enable(undoId)];
      queue := queue + [Disable(redoId)];
      CircleIdsPush(old(circles), (point, id));
    }

    method HandleUndo()
      requires Valid()
      modifies this
      ensures Valid()
      ensures var o := Step(undoId, redoId, old(State()), Undo, old(nextId));
        State() == o.stacks && queue == old(queue) + o.queued
      ensures nextId == old(nextId)
      ensures live == if old(circles) != [] then old(live) - {old(circles)[|old(circles)| - 1].1} else old(live)
    {
      if |circles| > 0 {
        var (point, nodeIndex) := circles[|circles| - 1];
        circles := circles[..|circles| - 1];
        RemoveWidget(nodeIndex);
        undo := undo + [point];
        queue := queue + [Enable(redoId)];
        if |circles| == 0 {
          queue := queue + [Disable(undoId)];
        }
        assert old(circles) == circles + [(point, nodeIndex)];
        CircleIdsPush(circles, (point, nodeIndex));
        assert nodeIndex !in CircleIds(circles);
      }
    }

    method HandleRedo()
      requires Valid()
      modifies this
      ensures Valid()
      ensures var o := Step(undoId, redoId, old(State()), Redo, old(nextId));
        State() == o.stacks && queue == old(queue) + o.queued
      ensures nextId == if old(undo) != [] then old(nextId) + 1 else old(nextId)
      ensures live == if old(undo) != [] then old(live) + {old(nextId)} else old(live)
    {
      if |undo| > 0 {
        var point := undo[|undo| - 1];
        undo := undo[..|undo| - 1];
        var id := CreateCircle(point);
        circles := circles + [(point, id)];
        if |undo| == 0 {
          queue := queue + [Disable(redoId)];
        }
        CircleIdsPush(old(circles), (point, id));
      }
    }
  }
}
