/**
 * Vocabulary shared by the widget handlers: widget identities, the
 * interaction properties a widget carries, property-change events, event
 * targets, and the events the handlers put on the UI's event queue.
 *
 * The event queue itself is not modelled as a dispatcher: a handler's
 * effect on it is the sequence of (target, message) pairs it appends.
 * `Deliver` gives the meaning of the property-change part of such a
 * sequence for a set of tracked widgets, so that lemmas can speak about
 * what a button looks like after the events a handler emitted.
 */
module Ui {

  /** Process-unique identity of a widget; never reused. */
  type WidgetId = nat

  datatype Option<T> = None | Some(value: T)

  /** Interaction/state flags a widget's property set may hold. */
  datatype Property = Inactive | Selected | Hover

  type PropSet = set<Property>

  /** A property change delivered to a widget (or every widget of a subtree). */
  datatype PropChange = Add(prop: Property) | Remove(prop: Property)

  /** Where an event is routed: the whole UI or the subtree rooted at a widget. */
  datatype Target = Ui | SubTree(root: WidgetId)

  /** The payloads the modelled handlers put on the event queue. */
  datatype Message = PropChanged(change: PropChange) | TextUpdated(text: string)

  datatype Emitted = Emitted(target: Target, message: Message)

  /** A property-change event for the subtree rooted at `id`. */
  function PropEvent(id: WidgetId, c: PropChange): Emitted
  {
    Emitted(SubTree(id), PropChanged(c))
  }

  /** `Add(Inactive)` on a subtree: the button rooted there becomes inactive. */
  function Disable(id: WidgetId): Emitted
  {
    PropEvent(id, Add(Inactive))
  }

  /** `Remove(Inactive)` on a subtree: the button rooted there becomes active. */
  function Enable(id: WidgetId): Emitted
  {
    PropEvent(id, Remove(Inactive))
  }

  /** Receiving a property change: adding and removing are idempotent set updates. */
  function ApplyChange(props: PropSet, c: PropChange): (r: PropSet)
    ensures c.Add? ==> r == props + {c.prop}
    ensures c.Remove? ==> r == props - {c.prop}
  {
    match c
    case Add(p) => props + {p}
    case Remove(p) => props - {p}
  }

  /** The effect of one emitted event on the property sets of the tracked widgets. */
  function DeliverOne(props: map<WidgetId, PropSet>, e: Emitted): (r: map<WidgetId, PropSet>)
    ensures r.Keys == props.Keys
  {
    match e
    case Emitted(SubTree(id), PropChanged(c)) =>
      if id in props then props[id := ApplyChange(props[id], c)] else props
    case _ => props
  }

  /** The effect of a sequence of emitted events, delivered in queue order. */
  function Deliver(props: map<WidgetId, PropSet>, q: seq<Emitted>): (r: map<WidgetId, PropSet>)
    ensures r.Keys == props.Keys
    decreases |q|
  {
    if q == [] then props else Deliver(DeliverOne(props, q[0]), q[1..])
  }

  /** Delivering a concatenation is delivering the two parts one after the other. */
  lemma {:induction false} DeliverAppend(props: map<WidgetId, PropSet>, a: seq<Emitted>, b: seq<Emitted>)
    ensures Deliver(props, a + b) == Deliver(Deliver(props, a), b)
    decreases |a|
  {
    if a == [] {
      assert a + b == b;
    } else {
      assert (a + b)[0] == a[0];
      assert (a + b)[1..] == a[1..] + b;
      DeliverAppend(DeliverOne(props, a[0]), a[1..], b);
    }
  }

  /** Events that do not change properties of widget `id` leave its property set as it was. */
  lemma {:induction false} DeliverUntouched(props: map<WidgetId, PropSet>, q: seq<Emitted>, id: WidgetId)
    requires id in props
    requires forall k :: 0 <= k < |q| ==> q[k].target != SubTree(id) || !q[k].message.PropChanged?
    ensures Deliver(props, q)[id] == props[id]
    decreases |q|
  {
    if q != [] {
      DeliverUntouched(DeliverOne(props, q[0]), q[1..], id);
    }
  }

  /** Unfolds `Deliver` on queues of at most two events. */
  lemma DeliverShort(props: map<WidgetId, PropSet>, q: seq<Emitted>)
    requires |q| <= 2
    ensures q == [] ==> Deliver(props, q) == props
    ensures |q| == 1 ==> Deliver(props, q) == DeliverOne(props, q[0])
    ensures |q| == 2 ==> Deliver(props, q) == DeliverOne(DeliverOne(props, q[0]), q[1])
  {
    if |q| > 0 {
      var p1 := DeliverOne(props, q[0]);
      if |q| == 2 {
        assert q[1..][1..] == [];
      }
    }
  }
}
