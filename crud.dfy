/**
 * The CRUD example's people handler.
 *
 * The handler keeps the person being edited, the list item currently
 * selected (if any) and a map from list-item widget to the person that item
 * shows. It reacts to the form's events, emits text updates to the name boxes
 * and to list items, and switches the Create, Update and Delete buttons
 * between active and inactive. Adding a list item is modelled as handing out
 * the next widget id and recording the item; removing one as a recorded
 * effect.
 */
module Crud {
  import opened Ui

  datatype Person = Person(firstName: string, lastName: string)
  {
    /** The label of the person's list item: last name, comma, space, first name. */
    function Name(): (r: string)
      ensures |r| == |lastName| + 2 + |firstName|
      ensures r[..|lastName|] == lastName
      ensures r[|lastName|..|lastName| + 2] == ", "
      ensures r[|lastName| + 2..] == firstName
    {
      lastName + ", " + firstName
    }

    /** A person can be created only with both names filled in. */
    predicate IsValid()
      ensures IsValid() <==> firstName != [] && lastName != []
    {
      |firstName| > 0 && |lastName| > 0
    }
  }

  /** The blank person of an empty form. */
  function NewPerson(): (p: Person)
    ensures p.firstName == [] && p.lastName == [] && !p.IsValid()
  {
    Person("", "")
  }

  datatype PeopleEvent =
    | Add
    | Update
    | Delete
    | PersonSelected(widget: Option<WidgetId>)
    | ChangeFirstName(name: string)
    | ChangeLastName(name: string)

  /** The widgets the handler sends events to. */
  datatype Ids = Ids(listWidget: WidgetId, firstNameBox: WidgetId, lastNameBox: WidgetId,
                     createButton: WidgetId, updateButton: WidgetId, deleteButton: WidgetId)
  {
    function All(): set<WidgetId>
    {
      {listWidget, firstNameBox, lastNameBox, createButton, updateButton, deleteButton}
    }

    /** The three buttons are distinct widgets, and none of them is a name box. */
    ghost predicate Distinct()
    {
      && createButton != updateButton && createButton != deleteButton && updateButton != deleteButton
      && firstNameBox !in {createButton, updateButton, deleteButton}
      && lastNameBox !in {createButton, updateButton, deleteButton}
    }
  }

  datatype People = People(selectedItem: Option<WidgetId>, person: Person, people: map<WidgetId, Person>)

  /** Changes to the widget tree that the handler makes directly. */
  datatype UiEffect =
    | ItemAdded(id: WidgetId, list: WidgetId, text: string)
    | WidgetRemoved(id: WidgetId)

  /** The state after one event, the events emitted, and the widget-tree effects, each in order. */
  datatype Outcome = Outcome(state: People, emitted: seq<Emitted>, effects: seq<UiEffect>)

  /** Well-formed handler state: the selection shows a known person and list items are not form widgets. */
  ghost predicate Consistent(ids: Ids, s: People, nextId: WidgetId)
  {
    && SelectionKnown(s)
    && (forall id :: id in ids.All() ==> id < nextId)
    && (forall id :: id in s.people ==> id < nextId && id !in ids.All())
  }

  /** The selected list item, if any, shows a known person. */
  predicate SelectionKnown(s: People)
  {
    s.selectedItem.Some? ==> s.selectedItem.value in s.people
  }

  /** Whether the handler can take `e`: selecting a widget that shows no person aborts. */
  predicate Admissible(s: People, e: PeopleEvent)
  {
    e.PersonSelected? && e.widget.Some? ==> e.widget.value in s.people
  }

  /** The events `update_selected` emits: both name boxes, then Update and Delete. */
  function SelectedEvents(ids: Ids, s: People): (r: seq<Emitted>)
    ensures |r| == 4
    ensures r[0] == Emitted(SubTree(ids.firstNameBox), TextUpdated(s.person.firstName))
    ensures r[1] == Emitted(SubTree(ids.lastNameBox), TextUpdated(s.person.lastName))
    ensures s.selectedItem.Some? <==> r[2] == Enable(ids.updateButton)
    ensures s.selectedItem.Some? ==> r[2..] == [Enable(ids.updateButton), Enable(ids.deleteButton)]
    ensures s.selectedItem.None? ==> r[2..] == [Disable(ids.updateButton), Disable(ids.deleteButton)]
  {
    [Emitted(SubTree(ids.firstNameBox), TextUpdated(s.person.firstName)),
     Emitted(SubTree(ids.lastNameBox), TextUpdated(s.person.lastName))]
    + if s.selectedItem.Some? then [Enable(ids.updateButton), Enable(ids.deleteButton)]
      else [Disable(ids.updateButton), Disable(ids.deleteButton)]
  }

  /** The Create button event emitted after every event: only when validity changed. */
  function CreateButtonEvents(ids: Ids, wasValid: bool, isValid: bool): (r: seq<Emitted>)
    ensures r != [] <==> wasValid != isValid
    ensures r != [] ==> r == [if isValid then Enable(ids.createButton) else Disable(ids.createButton)]
  {
    if wasValid != isValid then
      [if isValid then Enable(ids.createButton) else Disable(ids.createButton)]
    else []
  }

  /** The event-specific part of handling `e` (the match arms). */
  function Handled(ids: Ids, s: People, e: PeopleEvent, newId: WidgetId, fixDelete: bool): (r: Outcome)
    requires Admissible(s, e)
    ensures SelectionKnown(s) ==> SelectionKnown(r.state) && r.state.people.Keys <= s.people.Keys + {newId}
    ensures |r.effects| <= 1
    ensures (r.effects != [] && r.effects[0].ItemAdded?) <==> Creates(s, e)
    ensures r.effects != [] && r.effects[0].WidgetRemoved? ==>
      e.Delete? && s.selectedItem == Some(r.effects[0].id) && r.effects[0].id !in r.state.people
  {
    match e
    case Add =>
      if s.person.IsValid() then
        var t := People(None, NewPerson(), s.people[newId := s.person]);
        Outcome(t, SelectedEvents(ids, t), [ItemAdded(newId, ids.listWidget, s.person.Name())])
      else
        Outcome(s, [], [])
    case Update =>
      if s.selectedItem.Some? then
        var sel := s.selectedItem.value;
        Outcome(s.(people := s.people[sel := s.person]),
                [Emitted(SubTree(sel), TextUpdated(s.person.Name()))], [])
      else
        Outcome(s, [], [])
    case Delete =>
      if s.selectedItem.Some? then
        var sel := s.selectedItem.value;
        Outcome(People(None, s.person, s.people - {sel}),
                if fixDelete then [Disable(ids.updateButton), Disable(ids.deleteButton)] else [],
                [WidgetRemoved(sel)])
      else
        Outcome(s.(selectedItem := None), [], [])
    case PersonSelected(w) =>
      var t := s.(selectedItem := w, person := if w.Some? then s.people[w.value] else NewPerson());
      Outcome(t, SelectedEvents(ids, t), [])
    case ChangeFirstName(n) =>
      Outcome(s.(person := s.person.(firstName := n)), [], [])
    case ChangeLastName(n) =>
      Outcome(s.(person := s.person.(lastName := n)), [], [])
  }

  /**
   * One event, as the handler is written (`fixDelete` false) or with Delete
   * also deactivating Update and Delete (`fixDelete` true). `newId` is the id
   * of the list item Add creates.
   */
  function Step(ids: Ids, s: People, e: PeopleEvent, newId: WidgetId, fixDelete: bool): (r: Outcome)
    requires Admissible(s, e)
    ensures var h := Handled(ids, s, e, newId, fixDelete);
      && r.state == h.state && r.effects == h.effects
      && |h.emitted| <= |r.emitted| <= |h.emitted| + 1
      && r.emitted[..|h.emitted|] == h.emitted
      && (|r.emitted| == |h.emitted| + 1 <==> s.person.IsValid() != r.state.person.IsValid())
  {
    var o := Handled(ids, s, e, newId, fixDelete);
    o.(emitted := o.emitted + CreateButtonEvents(ids, s.person.IsValid(), o.state.person.IsValid()))
  }

  /** Whether handling `e` adds a list item (and so uses a new id). */
  predicate Creates(s: People, e: PeopleEvent)
  {
    e.Add? && s.person.IsValid()
  }

  /** A run of events; list items get consecutive ids from `next`; an inadmissible event aborts the run. */
  function Run(ids: Ids, s: People, es: seq<PeopleEvent>, next: WidgetId, fixDelete: bool): Outcome
    decreases |es|
  {
    if es == [] || !Admissible(s, es[0]) then Outcome(s, [], [])
    else
      var o := Step(ids, s, es[0], next, fixDelete);
      var rest := Run(ids, o.state, es[1..], if Creates(s, es[0]) then next + 1 else next, fixDelete);
      Outcome(rest.state, o.emitted + rest.emitted, o.effects + rest.effects)
  }

  // ---------------------------------------------------------------------------
  // Properties of one event

  lemma AddInvalidDoesNothing(ids: Ids, s: People, newId: WidgetId, fixDelete: bool)
    requires !s.person.IsValid()
    ensures Step(ids, s, PeopleEvent.Add, newId, fixDelete) == Outcome(s, [], [])
  {
  }

  lemma AddValidInsertsPerson(ids: Ids, s: People, newId: WidgetId, fixDelete: bool)
    requires s.person.IsValid()
    ensures var o := Step(ids, s, PeopleEvent.Add, newId, fixDelete);
      && o.state.people == s.people[newId := s.person]
      && o.state.person == NewPerson()
      && o.state.selectedItem == None
      && o.emitted == [Emitted(SubTree(ids.firstNameBox), TextUpdated("")),
                       Emitted(SubTree(ids.lastNameBox), TextUpdated("")),
                       Disable(ids.updateButton), Disable(ids.deleteButton),
                       Disable(ids.createButton)]
      && o.effects == [ItemAdded(newId, ids.listWidget, s.person.Name())]
  {
  }

  lemma UpdateWritesSelected(ids: Ids, s: People, newId: WidgetId, fixDelete: bool)
    ensures var o := Step(ids, s, Update, newId, fixDelete);
      && (s.selectedItem.Some? ==>
            var sel := s.selectedItem.value;
            o == Outcome(s.(people := s.people[sel := s.person]),
                         [Emitted(SubTree(sel), TextUpdated(s.person.Name()))], []))
      && (s.selectedItem.None? ==> o == Outcome(s, [], []))
  {
  }

  lemma DeleteRemovesSelected(ids: Ids, s: People, newId: WidgetId)
    ensures var o := Step(ids, s, Delete, newId, false);
      && o.state.selectedItem == None
      && o.state.person == s.person
      && o.emitted == []
      && (s.selectedItem.Some? ==>
            o.state.people == s.people - {s.selectedItem.value}
            && o.effects == [WidgetRemoved(s.selectedItem.value)])
      && (s.selectedItem.None? ==> o.state.people == s.people && o.effects == [])
  {
  }

  lemma PersonSelectedLoadsPerson(ids: Ids, s: People, w: Option<WidgetId>, newId: WidgetId, fixDelete: bool)
    requires w.Some? ==> w.value in s.people
    ensures var o := Step(ids, s, PersonSelected(w), newId, fixDelete);
      var p := if w.Some? then s.people[w.value] else NewPerson();
      && o.state == People(w, p, s.people)
      && o.emitted[..4] == SelectedEvents(ids, o.state)
      && (w.Some? <==> o.emitted[2] == Enable(ids.updateButton))
      && o.emitted[4..] == CreateButtonEvents(ids, s.person.IsValid(), p.IsValid())
      && o.effects == []
  {
  }

  lemma ChangeNameEditsOneField(ids: Ids, s: People, n: string, newId: WidgetId, fixDelete: bool)
    ensures var o := Step(ids, s, ChangeFirstName(n), newId, fixDelete);
      && o.state == s.(person := Person(n, s.person.lastName))
      && o.effects == []
    ensures var o := Step(ids, s, ChangeLastName(n), newId, fixDelete);
      && o.state == s.(person := Person(s.person.firstName, n))
      && o.effects == []
  {
  }

  /** The only event for the Create button is the last one, and it is there iff validity changed. */
  lemma CreateButtonEventIffValidityChanged(ids: Ids, s: People, e: PeopleEvent, newId: WidgetId, fixDelete: bool)
    requires Admissible(s, e)
    requires ids.Distinct() && Consistent(ids, s, newId)
    ensures var o := Step(ids, s, e, newId, fixDelete);
      var was, now := s.person.IsValid(), o.state.person.IsValid();
      && (forall k :: 0 <= k < |o.emitted| - 1 ==> o.emitted[k].target != SubTree(ids.createButton))
      && (o.emitted != [] && o.emitted[|o.emitted| - 1].target == SubTree(ids.createButton) <==> was != now)
      && (was != now ==> o.emitted[|o.emitted| - 1] ==
                         if now then Enable(ids.createButton) else Disable(ids.createButton))
  {
    var h := Handled(ids, s, e, newId, fixDelete);
    assert forall k :: 0 <= k < |h.emitted| ==> h.emitted[k].target != SubTree(ids.createButton);
  }

  lemma StepKeepsConsistent(ids: Ids, s: People, e: PeopleEvent, next: WidgetId, fixDelete: bool)
    requires Consistent(ids, s, next)
    requires Admissible(s, e)
    ensures Consistent(ids, Step(ids, s, e, next, fixDelete).state, if Creates(s, e) then next + 1 else next)
  {
  }

  // ---------------------------------------------------------------------------
  // The buttons against the handler's state

  /** All three buttons are created inactive; the form starts blank with nothing selected. */
  function InitialButtons(ids: Ids): map<WidgetId, PropSet>
  {
    map[ids.createButton := {Inactive}, ids.updateButton := {Inactive}, ids.deleteButton := {Inactive}]
  }

  function InitialState(): People
  {
    People(None, NewPerson(), map[])
  }

  /** Create is active exactly when the person in the form is valid. */
  ghost predicate CreateMatches(ids: Ids, s: People, props: map<WidgetId, PropSet>)
  {
    ids.createButton in props && (Inactive in props[ids.createButton] <==> !s.person.IsValid())
  }

  /** Update and Delete are active exactly when a list item is selected. */
  ghost predicate SelectionButtonsMatch(ids: Ids, s: People, props: map<WidgetId, PropSet>)
  {
    && ids.updateButton in props && ids.deleteButton in props
    && (Inactive in props[ids.updateButton] <==> s.selectedItem.None?)
    && (Inactive in props[ids.deleteButton] <==> s.selectedItem.None?)
  }

  lemma InitialButtonsMatch(ids: Ids)
    requires ids.Distinct()
    ensures CreateMatches(ids, InitialState(), InitialButtons(ids))
    ensures SelectionButtonsMatch(ids, InitialState(), InitialButtons(ids))
  {
  }

  /** Delivers the events `update_selected` emits. */
  lemma DeliverSelectedEvents(ids: Ids, s: People, props: map<WidgetId, PropSet>)
    requires ids.Distinct()
    requires ids.createButton in props && ids.updateButton in props && ids.deleteButton in props
    ensures var r := Deliver(props, SelectedEvents(ids, s));
      && r[ids.createButton] == props[ids.createButton]
      && (Inactive in r[ids.updateButton] <==> s.selectedItem.None?)
      && (Inactive in r[ids.deleteButton] <==> s.selectedItem.None?)
  {
    var q := SelectedEvents(ids, s);
    var p2 := Deliver(props, q[..2]);
    DeliverUntouched(props, q[..2], ids.createButton);
    DeliverUntouched(props, q[..2], ids.updateButton);
    DeliverUntouched(props, q[..2], ids.deleteButton);
    assert q == q[..2] + [q[2]] + [q[3]];
    DeliverAppend(props, q[..2] + [q[2]], [q[3]]);
    DeliverAppend(props, q[..2], [q[2]]);
  }

  /** The as-written handler keeps the Create button in step with the form's validity. */
  lemma StepKeepsCreateMatches(ids: Ids, s: People, props: map<WidgetId, PropSet>, e: PeopleEvent,
                               next: WidgetId, fixDelete: bool)
    requires ids.Distinct()
    requires Consistent(ids, s, next) && Admissible(s, e)
    requires CreateMatches(ids, s, props) && ids.updateButton in props && ids.deleteButton in props
    ensures var o := Step(ids, s, e, next, fixDelete);
      var r := Deliver(props, o.emitted);
      CreateMatches(ids, o.state, r) && ids.updateButton in r && ids.deleteButton in r
  {
    var h := Handled(ids, s, e, next, fixDelete);
    var c := CreateButtonEvents(ids, s.person.IsValid(), h.state.person.IsValid());
    assert forall k :: 0 <= k < |h.emitted| ==> h.emitted[k].target != SubTree(ids.createButton);
    DeliverUntouched(props, h.emitted, ids.createButton);
    DeliverAppend(props, h.emitted, c);
  }

  /** With the fix, one event keeps all three buttons in step with the handler's state. */
  lemma StepFixedKeepsButtonsMatch(ids: Ids, s: People, props: map<WidgetId, PropSet>, e: PeopleEvent, next: WidgetId)
    requires ids.Distinct()
    requires Consistent(ids, s, next) && Admissible(s, e)
    requires CreateMatches(ids, s, props) && SelectionButtonsMatch(ids, s, props)
    ensures var o := Step(ids, s, e, next, true);
      var r := Deliver(props, o.emitted);
      CreateMatches(ids, o.state, r) && SelectionButtonsMatch(ids, o.state, r)
  {
    StepKeepsCreateMatches(ids, s, props, e, next, true);
    var h := Handled(ids, s, e, next, true);
    var c := CreateButtonEvents(ids, s.person.IsValid(), h.state.person.IsValid());
    DeliverAppend(props, h.emitted, c);
    var mid := Deliver(props, h.emitted);
    DeliverUntouched(mid, c, ids.updateButton);
    DeliverUntouched(mid, c, ids.deleteButton);
    match e {
      case Add =>
        if s.person.IsValid() { DeliverSelectedEvents(ids, h.state, props); }
      case PersonSelected(_) =>
        DeliverSelectedEvents(ids, h.state, props);
      case Delete =>
        DeliverShort(props, h.emitted);
      case _ =>
        DeliverUntouched(props, h.emitted, ids.updateButton);
        DeliverUntouched(props, h.emitted, ids.deleteButton);
    }
  }

  /** The as-written handler keeps the Create button in step with the form over any run of events. */
  lemma {:induction false} RunKeepsCreateMatches(ids: Ids, s: People, props: map<WidgetId, PropSet>,
                                                 es: seq<PeopleEvent>, next: WidgetId)
    requires ids.Distinct() && Consistent(ids, s, next)
    requires CreateMatches(ids, s, props) && ids.updateButton in props && ids.deleteButton in props
    ensures var o := Run(ids, s, es, next, false);
      CreateMatches(ids, o.state, Deliver(props, o.emitted))
    decreases |es|
  {
    if es != [] && Admissible(s, es[0]) {
      var o := Step(ids, s, es[0], next, false);
      var next' := if Creates(s, es[0]) then next + 1 else next;
      var rest := Run(ids, o.state, es[1..], next', false);
      StepKeepsCreateMatches(ids, s, props, es[0], next, false);
      StepKeepsConsistent(ids, s, es[0], next, false);
      RunKeepsCreateMatches(ids, o.state, Deliver(props, o.emitted), es[1..], next');
      DeliverAppend(props, o.emitted, rest.emitted);
    }
  }

  /** With the fix, all three buttons follow the handler's state over any run of events. */
  lemma {:induction false} RunFixedKeepsButtonsMatch(ids: Ids, s: People, props: map<WidgetId, PropSet>,
                                                     es: seq<PeopleEvent>, next: WidgetId)
    requires ids.Distinct() && Consistent(ids, s, next)
    requires CreateMatches(ids, s, props) && SelectionButtonsMatch(ids, s, props)
    ensures var o := Run(ids, s, es, next, true);
      var r := Deliver(props, o.emitted);
      CreateMatches(ids, o.state, r) && SelectionButtonsMatch(ids, o.state, r)
    decreases |es|
  {
    if es != [] && Admissible(s, es[0]) {
      var o := Step(ids, s, es[0], next, true);
      var next' := if Creates(s, es[0]) then next + 1 else next;
      var rest := Run(ids, o.state, es[1..], next', true);
      StepFixedKeepsButtonsMatch(ids, s, props, es[0], next);
      StepKeepsConsistent(ids, s, es[0], next, true);
      RunFixedKeepsButtonsMatch(ids, o.state, Deliver(props, o.emitted), es[1..], next');
      DeliverAppend(props, o.emitted, rest.emitted);
    }
  }

  /**
   * As written, selecting a person and deleting it leaves Update and Delete
   * active although nothing is selected any more.
   */
  lemma DeleteLeavesButtonsActive(ids: Ids, s: People, props: map<WidgetId, PropSet>, w: WidgetId, next: WidgetId)
    requires ids.Distinct() && Consistent(ids, s, next)
    requires SelectionButtonsMatch(ids, s, props) && ids.createButton in props
    requires w in s.people
    ensures var o := Run(ids, s, [PersonSelected(Some(w)), Delete], next, false);
      var r := Deliver(props, o.emitted);
      && o.state.selectedItem == None
      && Inactive !in r[ids.updateButton] && Inactive !in r[ids.deleteButton]
      && !SelectionButtonsMatch(ids, o.state, r)
  {
    var es := [PersonSelected(Some(w)), Delete];
    var o1 := Step(ids, s, es[0], next, false);
    var h1 := Handled(ids, s, es[0], next, false);
    var c1 := CreateButtonEvents(ids, s.person.IsValid(), h1.state.person.IsValid());
    DeliverSelectedEvents(ids, h1.state, props);
    var m := Deliver(props, h1.emitted);
    DeliverUntouched(m, c1, ids.updateButton);
    DeliverUntouched(m, c1, ids.deleteButton);
    DeliverAppend(props, h1.emitted, c1);
    var p1 := Deliver(props, o1.emitted);
    assert Inactive !in p1[ids.updateButton] && Inactive !in p1[ids.deleteButton];
    var o2 := Step(ids, o1.state, Delete, next, false);
    assert o2.state.selectedItem == None;
    assert o2.emitted == [];
    assert es[1..] == [Delete] && es[1..][1..] == [];
    assert Admissible(o1.state, Delete);
    assert Run(ids, o2.state, es[1..][1..], next, false) == Outcome(o2.state, [], []);
    var r2 := Run(ids, o1.state, es[1..], next, false);
    assert r2 == Outcome(o2.state, o2.emitted + [], o2.effects + []);
    var o := Run(ids, s, es, next, false);
    assert o.emitted == o1.emitted + r2.emitted;
    assert o.emitted == o1.emitted;
    assert o.state == o2.state;
  }

  // ---------------------------------------------------------------------------
  // The handler object

  class PeopleHandler {
    const ids: Ids
    var selectedItem: Option<WidgetId>
    var person: Person
    var people: map<WidgetId, Person>
    /** Events this handler has emitted, oldest first. */
    var queue: seq<Emitted>
    /** Widget-tree changes this handler has made, oldest first. */
    var effects: seq<UiEffect>
    /** The next id the widget tree hands out. */
    var nextId: WidgetId

    function State(): People
      reads this
    {
      People(selectedItem, person, people)
    }

    ghost predicate Valid()
      reads this
    {
      Consistent(ids, State(), nextId)
    }

    constructor (ids: Ids, nextFreeId: WidgetId)
      requires forall id :: id in ids.All() ==> id < nextFreeId
      ensures Valid() && this.ids == ids
      ensures State() == InitialState() && queue == [] && effects == [] && nextId == nextFreeId
    {
      this.ids := ids;
      selectedItem := None;
      person := NewPerson();
      people := map[];
      queue := [];
      effects := [];
      nextId := nextFreeId;
    }

    /** `update_selected`: show the person in the name boxes and switch Update and Delete. */
    method UpdateSelected()
      modifies this`queue
      ensures queue == old(queue) + SelectedEvents(ids, State())
    {
      queue := queue + [Emitted(SubTree(ids.firstNameBox), TextUpdated(person.firstName))];
      queue := queue + [Emitted(SubTree(ids.lastNameBox), TextUpdated(person.lastName))];
      if selectedItem.Some? {
        queue := queue + [Enable(ids.updateButton)];
        queue := queue + [Enable(ids.deleteButton)];
      } else {
        queue := queue + [Disable(ids.updateButton)];
        queue := queue + [Disable(ids.deleteButton)];
      }
    }

    /** `add_person`: a new list item showing the person's name; its layout is not modelled. */
    method AddPerson(p: Person) returns (id: WidgetId)
      modifies this`nextId, this`effects
      ensures id == old(nextId) && nextId == old(nextId) + 1
      ensures effects == old(effects) + [ItemAdded(id, ids.listWidget, p.Name())]
    {
      id := nextId;
      nextId := nextId + 1;
      effects := effects + [ItemAdded(id, ids.listWidget, p.Name())];
    }

    method RemoveWidget(id: WidgetId)
      modifies this`effects
      ensures effects == old(effects) + [WidgetRemoved(id)]
    {
      effects := effects + [WidgetRemoved(id)];
    }

    /** The Add arm: a valid person becomes a new list item and the form is cleared. */
    method HandleAdd()
      modifies this
      ensures var o := Handled(ids, old(State()), PeopleEvent.Add, old(nextId), false);
        && State() == o.state
        && queue == old(queue) + o.emitted
        && effects == old(effects) + o.effects
      ensures nextId == if old(person.IsValid()) then old(nextId) + 1 else old(nextId)
    {
      if person.IsValid() {
        var p := person;
        person := NewPerson();
        var id := AddPerson(p);
        people := people[id := p];
        selectedItem := None;
        UpdateSelected();
      }
    }

    /** The Update arm: the selected person takes the form's names and its item is relabelled. */
    method HandleUpdate()
      modifies this`people, this`queue
      ensures var o := Handled(ids, old(State()), Update, old(nextId), false);
        && State() == o.state
        && queue == old(queue) + o.emitted
    {
      if selectedItem.Some? {
        var sel := selectedItem.value;
        people := people[sel := person];
        queue := queue + [Emitted(SubTree(sel), TextUpdated(person.Name()))];
      }
    }

    /** The Delete arm: the selected person and its item go; nothing is selected afterwards. */
    method HandleDelete()
      modifies this`people, this`selectedItem, this`effects
      ensures var o := Handled(ids, old(State()), Delete, old(nextId), false);
        && State() == o.state
        && effects == old(effects) + o.effects
    {
      if selectedItem.Some? {
        var sel := selectedItem.value;
        people := people - {sel};
        RemoveWidget(sel);
      }
      selectedItem := None;
    }

    /** The PersonSelected arm: the form shows the chosen person, or a blank one. */
    method HandleSelected(w: Option<WidgetId>)
      requires Admissible(State(), PersonSelected(w))
      modifies this`selectedItem, this`person, this`queue
      ensures var o := Handled(ids, old(State()), PersonSelected(w), old(nextId), false);
        && State() == o.state
        && queue == old(queue) + o.emitted
    {
      selectedItem := w;
      if w.Some? {
        person := people[w.value];
      } else {
        person := NewPerson();
      }
      UpdateSelected();
    }

    method Handle(e: PeopleEvent)
      requires Valid() && Admissible(State(), e)
      modifies this
      ensures Valid()
      ensures var o := Step(ids, old(State()), e, old(nextId), false);
        && State() == o.state
        && queue == old(queue) + o.emitted
        && effects == old(effects) + o.effects
      ensures nextId == if Creates(old(State()), e) then old(nextId) + 1 else old(nextId)
    {
      ghost var s, n := State(), nextId;
      var wasValid := person.IsValid();
      match e {
        case Add => HandleAdd();
        case Update => HandleUpdate();
        case Delete => HandleDelete();
        case PersonSelected(w) => HandleSelected(w);
        case ChangeFirstName(name) => person := person.(firstName := name);
        case ChangeLastName(name) => person := person.(lastName := name);
      }
      ghost var handledQueue := queue;
      var isValid := person.IsValid();
      if wasValid != isValid {
        if isValid {
          queue := queue + [Enable(ids.createButton)];
        } else {
          queue := queue + [Disable(ids.createButton)];
        }
      }
      assert queue == handledQueue + CreateButtonEvents(ids, wasValid, isValid);
      StepKeepsConsistent(ids, s, e, n, false);
    }
  }
}
