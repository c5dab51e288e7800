/**
 * The list widget's selection logic and its builder.
 *
 * A list remembers which of its items is selected. Clicking an item that is
 * not selected marks it `Selected` and tells the list, which takes `Selected`
 * away from the item selected before; clicking the list itself clears the
 * selection. Widgets are shared by reference, as in the toolkit, so these
 * handlers change the property sets of widgets they do not own. Events sent
 * to widgets and user callbacks invoked are recorded, in order, in an
 * `EventLog` instead of being dispatched.
 */
module Lists {
  import opened Ui

  /** A live widget as handlers see it (a shared reference); its property set changes in place. */
  class Widget {
    const id: WidgetId
    var props: PropSet

    constructor (id: WidgetId, props: PropSet)
      ensures this.id == id && this.props == props
    {
      this.id := id;
      this.props := props;
    }
  }

  datatype ListEvent = ListItemSelected(widget: Option<Widget>) | ItemSelected

  /** Identifies a user callback registered with `on_item_selected`; its body is the caller's. */
  type CallbackId = nat

  datatype Effect =
    | Sent(to: Widget, event: ListEvent)
    | Called(callback: CallbackId, arg: Option<Widget>)

  /** Events sent to widgets and callbacks invoked, oldest first. */
  class EventLog {
    var effects: seq<Effect>

    constructor ()
      ensures effects == []
    {
      effects := [];
    }

    method Send(to: Widget, event: ListEvent)
      modifies this
      ensures effects == old(effects) + [Sent(to, event)]
    {
      effects := effects + [Sent(to, event)];
    }

    method Call(callback: CallbackId, arg: Option<Widget>)
      modifies this
      ensures effects == old(effects) + [Called(callback, arg)]
    {
      effects := effects + [Called(callback, arg)];
    }
  }

  function Opt(o: Option<Widget>): set<Widget>
  {
    if o.Some? then {o.value} else {}
  }

  /** Among `items`, exactly the one the list remembers carries `Selected`. */
  ghost predicate SingleSelection(selected: Option<Widget>, items: set<Widget>)
    reads items
  {
    && Opt(selected) <= items
    && forall w :: w in items ==> (Selected in w.props <==> selected == Some(w))
  }

  /**
   * The moment a `ListItemSelected(event)` reaches the list: the newly
   * chosen item (if any) already carries `Selected`, and every other item
   * still agrees with the old selection.
   */
  ghost predicate Pending(selected: Option<Widget>, items: set<Widget>, event: Option<Widget>)
    reads items
  {
    && Opt(selected) <= items
    && Opt(event) <= items
    && (event.Some? ==> Selected in event.value.props)
    && forall w :: w in items && w !in Opt(event) ==> (Selected in w.props <==> selected == Some(w))
  }

  class ListHandler {
    var selected: Option<Widget>

    constructor ()
      ensures selected == None
    {
      selected := None;
    }

    /**
     * Receives `ListItemSelected(event)`. `items` is the list's items; it
     * only serves to state the single-selection invariant.
     */
    method Handle(event: Option<Widget>, ghost items: set<Widget>)
      modifies this, Opt(selected)
      ensures selected == event
      ensures event != old(selected) ==>
        forall w :: w in Opt(old(selected)) ==> w.props == old(w.props) - {Selected}
      ensures event == old(selected) ==> unchanged(Opt(old(selected)))
      ensures old(Pending(selected, items, event)) ==> SingleSelection(selected, items)
    {
      if event != selected {
        if selected.Some? {
          var oldSelected := selected.value;
          oldSelected.props := oldSelected.props - {Selected};
        }
      }
      selected := event;
    }
  }

  /** The list's own click handler: a click that reaches the list clears the selection. */
  method HandleDeselect(list: Widget, log: EventLog)
    modifies log
    ensures log.effects == old(log.effects) + [Sent(list, ListItemSelected(None))]
  {
    log.Send(list, ListItemSelected(None));
  }

  class ListItemHandler {
    const list: Widget

    constructor (list: Widget)
      ensures this.list == list
    {
      this.list := list;
    }

    /** A click on `item`; returns the new value of the event's `handled` flag. */
    method Handle(item: Widget, handled: bool, log: EventLog) returns (handledAfter: bool)
      modifies item, log
      ensures Selected !in old(item.props) ==>
        && item.props == old(item.props) + {Selected}
        && log.effects == old(log.effects) + [Sent(list, ListItemSelected(Some(item)))]
        && handledAfter
      ensures Selected in old(item.props) ==>
        item.props == old(item.props) && log.effects == old(log.effects) && handledAfter == handled
    {
      handledAfter := handled;
      if Selected !in item.props {
        item.props := item.props + {Selected};
        log.Send(list, ListItemSelected(Some(item)));
        handledAfter := true;
      }
    }
  }

  /**
   * A click on an item not yet selected leaves the list exactly in the
   * `Pending` state its `ListItemSelected` event expects.
   */
  twostate lemma ClickMakesPending(selected: Option<Widget>, items: set<Widget>, item: Widget)
    requires old(SingleSelection(selected, items))
    requires item in items && Selected !in old(item.props)
    requires item.props == old(item.props) + {Selected}
    requires forall w :: w in items && w != item ==> w.props == old(w.props)
    ensures Pending(selected, items, Some(item))
  {
  }

  /** The handlers a widget builder can carry, as far as the list code is concerned. */
  datatype Handler =
    | ListSelection
    | DeselectOnClick
    | ItemClick(list: Widget)
    | ForwardSelection(callback: CallbackId)
    | Other(name: string)

  /** A widget under construction: its name, its handlers in registration order, its children. */
  datatype Builder = Builder(name: string, handlers: seq<Handler>, children: seq<Builder>)

  /** `WidgetBuilder::list_item`: registers a click handler that reports to `list`. */
  function ListItem(b: Builder, list: Widget): (r: Builder)
    ensures r.name == b.name && r.children == b.children
    ensures |r.handlers| == |b.handlers| + 1
    ensures r.handlers[..|b.handlers|] == b.handlers && r.handlers[|b.handlers|] == ItemClick(list)
  {
    b.(handlers := b.handlers + [ItemClick(list)])
  }

  /** What `set_contents` makes of one built item. */
  function ListEntry(b: Builder, list: Widget): (r: Builder)
    ensures r.name == "list_item" && r.children == b.children
    ensures r.handlers == b.handlers + [ItemClick(list)]
  {
    ListItem(b.(name := "list_item"), list)
  }

  /** The `ListItemSelected` handler `on_item_selected` registers, run on one event. */
  method ForwardSelection(callback: CallbackId, event: Option<Widget>, log: EventLog)
    modifies log
    ensures log.effects == old(log.effects) + [Called(callback, event)]
                           + if event.Some? then [Sent(event.value, ItemSelected)] else []
  {
    log.Call(callback, event);
    if event.Some? {
      log.Send(event.value, ItemSelected);
    }
  }

  class ListBuilder {
    /** The list widget being built (`widget_ref()` of the builder). */
    const list: Widget
    var widget: Builder

    /** A vertical list that tracks the selection and clears it on clicks that reach it. */
    constructor (id: WidgetId)
      ensures fresh(list) && list.id == id && list.props == {}
      ensures widget == Builder("list", [ListSelection, DeselectOnClick], [])
    {
      list := new Widget(id, {});
      widget := Builder("list", [ListSelection, DeselectOnClick], []);
    }

    method OnItemSelected(callback: CallbackId) returns (r: ListBuilder)
      modifies this
      ensures r == this
      ensures widget == old(widget).(handlers := old(widget.handlers) + [ForwardSelection(callback)])
    {
      widget := widget.(handlers := widget.handlers + [ForwardSelection(callback)]);
      r := this;
    }

    /** Appends one child per item of `contents`, in order, each built by `build` and made a list item. */
    method SetContents<I>(contents: seq<I>, build: I -> Builder)
      modifies this
      ensures widget.name == old(widget.name) && widget.handlers == old(widget.handlers)
      ensures |widget.children| == |old(widget.children)| + |contents|
      ensures widget.children[..|old(widget.children)|] == old(widget.children)
      ensures forall k :: 0 <= k < |contents| ==>
        widget.children[|old(widget.children)| + k] == ListEntry(build(contents[k]), list)
    {
      var n := |widget.children|;
      for i := 0 to |contents|
        invariant widget.name == old(widget.name) && widget.handlers == old(widget.handlers)
        invariant |widget.children| == n + i
        invariant widget.children[..n] == old(widget.children)
        invariant forall k :: 0 <= k < i ==> widget.children[n + k] == ListEntry(build(contents[k]), list)
      {
        var child := build(contents[i]);
        child := child.(name := "list_item");
        child := ListItem(child, list);
        widget := widget.(children := widget.children + [child]);
      }
    }
  }
}
