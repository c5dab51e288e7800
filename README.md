# limn event handlers in Dafny

A model of four small, single-threaded, event-driven pieces of the limn GUI
toolkit and its examples, with proofs of what each promises:

- the circle-drawing example's undo/redo handler (`CircleEventHandler`), which
  keeps a stack of drawn circles and a stack of undone points and switches the
  Undo and Redo buttons between active and inactive;
- the CRUD example's `PeopleHandler`, which edits a person in a form, keeps a
  map from list item to person, and switches the Create, Update and Delete
  buttons;
- the list widget's single-selection logic (`ListHandler`, `ListItemHandler`,
  the deselect click handler) and its builder (`ListBuilder`, `list_item`);
- text styles: five style sheets resolved into a text draw state.

Files:

- `ui.dfy` holds the shared vocabulary: widget ids, properties, property changes,
  event targets and emitted events. It also holds `Deliver`, which says what a
  sequence of emitted property changes does to the property sets of tracked
  widgets.
- `circles.dfy` and `crud.dfy` each give the handler as a pure `Step` function
  on its state. A class with the handler's own fields has a `Handle` method
  proved equal to `Step`. Lemmas over single steps and over whole runs of
  events state what the handler promises. Each lemma relates the handler's
  state to the buttons after the emitted events are delivered.
- `lists.dfy` models widgets as shared objects whose property sets the
  handlers change in place, as in the toolkit.
- `text.dfy` models `TextStyle` and `TextDrawState` as classes whose fields are
  assigned in place.

Emitted events are recorded in order instead of being dispatched. Creating a
widget hands out the next widget id from a counter. The CRUD handler records
the list items it adds and removes in order. The circle handler keeps only the
set of live circle widgets, so the order of creations and removals is not kept.

## Model

| member | source | states |
|---|---|---|
| Ui.ApplyChange | examples/circles.rs:106-107 | receiving `Add(p)` adds `p` to a property set and `Remove(p)` removes it |
| Ui.Deliver | examples/circles.rs:106-107 | delivering queued property changes never adds or drops a tracked widget |
| Ui.DeliverAppend | examples/circles.rs:106-107 | delivering two batches of events in queue order is delivering their concatenation |
| Ui.DeliverUntouched | examples/crud.rs:83-84 | events that are not a property change aimed at a widget's subtree (such as text updates) leave its property set unchanged |
| Circles.Step | examples/circles.rs:98-130 | one event of the handler as written. At most two events are queued, each activating or deactivating the Undo or Redo button. A circle is added (with the new id, on top of the old circles) exactly when the event is Add or a Redo with a point to redo |
| Circles.StepFixed | examples/circles.rs:120-127 | the corrected handler has the same stacks and queues the same events as `Step`. It appends one more event, "activate Undo", exactly when the event is a Redo with a point to redo |
| Circles.AddPushesAndClearsUndo | examples/circles.rs:102-107 | Add(p) appends (p, new id) to the circles, clears the undo stack, and queues exactly "activate Undo" then "deactivate Redo" |
| Circles.UndoOnEmptyDoesNothing | examples/circles.rs:109-110 | Undo with no circles changes nothing and queues nothing |
| Circles.UndoPopsCircle | examples/circles.rs:110-118 | Undo pops the last circle and pushes its point on the undo stack. It queues "activate Redo" first, and "deactivate Undo" after it exactly when no circle is left |
| Circles.RedoOnEmptyDoesNothing | examples/circles.rs:120-121 | Redo with an empty undo stack changes nothing and queues nothing |
| Circles.RedoRestoresPoint | examples/circles.rs:121-127 | Redo pops the last undone point and appends a circle there with a new id. It queues "deactivate Redo" only when the undo stack becomes empty, and never queues an event for the Undo button |
| Circles.UndoRedoRoundTrip | examples/circles.rs:109-127 | Undo then Redo gives back the same circle points and the same undo stack; only the top circle's widget id is new |
| Circles.UndoRedoKeepTotal | examples/circles.rs:109-127 | Undo and Redo keep the number of circles plus undone points |
| Circles.InitialButtonsMatch | examples/circles.rs:38-47 | both buttons start inactive with both stacks empty, so each button is active exactly when its stack is non-empty |
| Circles.StepKeepsButtonsSound | examples/circles.rs:101-129 | one event, with its queued events delivered, keeps two facts: an active Undo button has a circle to undo, and Redo is inactive exactly when the undo stack is empty |
| Circles.RunKeepsButtonsSound | examples/circles.rs:97-131 | the same holds after any run of events |
| Circles.RedoLeavesUndoButtonInactive | examples/circles.rs:120-127 | as written, Add, Undo, Redo leaves one circle while the Undo button is inactive |
| Circles.StepFixedKeepsButtonsMatch | examples/circles.rs:120-127 | when Redo also activates Undo, one event keeps each button active exactly when its stack is non-empty |
| Circles.RunFixedKeepsButtonsMatch | examples/circles.rs:97-131 | when Redo also activates Undo, each button is active exactly when its stack is non-empty after any run of events |
| Circles.CircleEventHandler.constructor | examples/circles.rs:88-95 | a new handler has both stacks empty, no circle widgets and nothing queued |
| Circles.CircleEventHandler.CreateCircle | examples/circles.rs:58-79 | creating a circle hands out the next widget id and adds it to the live circle widgets |
| Circles.CircleEventHandler.RemoveWidget | examples/circles.rs:111-112 | removing a circle drops its widget id from the live circle widgets |
| Circles.CircleEventHandler.Handle | examples/circles.rs:98-130 | the new stacks and the events appended to the queue are those of `Step`. Only Add and a non-empty Redo use a new id; a non-empty Undo removes exactly the popped circle's widget. Circle ids stay distinct and match the live widgets |
| Circles.CircleEventHandler.HandleAdd | examples/circles.rs:102-108 | the Add arm's stacks and queued events are those of `Step`, and it creates one widget |
| Circles.CircleEventHandler.HandleUndo | examples/circles.rs:109-119 | the Undo arm's stacks and queued events are those of `Step`, and it removes the popped circle's widget |
| Circles.CircleEventHandler.HandleRedo | examples/circles.rs:120-128 | the Redo arm's stacks and queued events are those of `Step`, and it creates a widget only when there was a point to redo |
| Crud.Person.Name | examples/crud.rs:37-39 | a person's label is the last name, then ", ", then the first name |
| Crud.Person.IsValid | examples/crud.rs:40-42 | a person is valid iff both names are non-empty |
| Crud.NewPerson | examples/crud.rs:31-36 | the blank person has two empty names and is not valid |
| Crud.SelectedEvents | examples/crud.rs:81-92 | `update_selected` emits both name boxes' texts, then activates Update and Delete iff an item is selected (deactivates both otherwise) |
| Crud.CreateButtonEvents | examples/crud.rs:138-145 | a Create-button event is emitted iff validity changed: activate when the person became valid, deactivate when it became invalid |
| Crud.Handled | examples/crud.rs:98-137 | the match arms of `handle`. A known selection stays known, and only the new list item's id can join the people. At most one widget effect happens: adding a list item exactly when a valid person is added, and removing one only on Delete with that item selected, after which its person is gone |
| Crud.Step | examples/crud.rs:95-146 | one whole event: the state and widget effects of the match arms, then their events, then at most one Create-button event, present exactly when the person's validity changed |
| Crud.AddInvalidDoesNothing | examples/crud.rs:99-100 | Add on an invalid person changes no state, emits nothing and touches no widget |
| Crud.AddValidInsertsPerson | examples/crud.rs:99-108 | Add on a valid person stores it under the new list item's id, clears the form and the selection, and emits the blank name texts. It then deactivates Update, Delete and Create, and adds one list item labelled with the person's name |
| Crud.UpdateWritesSelected | examples/crud.rs:109-114 | Update with a selection overwrites that entry with the form's person and relabels its item; without a selection it does nothing |
| Crud.DeleteRemovesSelected | examples/crud.rs:115-121 | Delete removes the selected entry and its widget if there is one. Either way it leaves nothing selected, keeps the form's person and emits nothing |
| Crud.PersonSelectedLoadsPerson | examples/crud.rs:122-130 | selecting an item loads its person into the form and selecting nothing clears the form. Either way it emits the `update_selected` events, with Update activated iff an item is selected, followed by the Create-button event |
| Crud.ChangeNameEditsOneField | examples/crud.rs:131-136 | ChangeFirstName/ChangeLastName change that one field of the form's person and nothing else |
| Crud.CreateButtonEventIffValidityChanged | examples/crud.rs:97-145 | for every event, only the last emitted event may target the Create button; it does iff validity changed, and then it activates exactly when the person became valid |
| Crud.StepKeepsConsistent | examples/crud.rs:95-146 | every event keeps two facts: the selection names a known person, and list-item ids are fresh and never a form widget's |
| Crud.InitialButtonsMatch | examples/crud.rs:223-234 | the three buttons start inactive with a blank form and no selection, so each matches the state |
| Crud.DeliverSelectedEvents | examples/crud.rs:81-92 | after the `update_selected` events, Update and Delete are inactive iff nothing is selected, and Create is untouched |
| Crud.StepKeepsCreateMatches | examples/crud.rs:97-145 | one event keeps Create active exactly when the form's person is valid |
| Crud.RunKeepsCreateMatches | examples/crud.rs:95-146 | Create is active exactly when the form's person is valid after any run of events |
| Crud.DeleteLeavesButtonsActive | examples/crud.rs:115-121 | as written, selecting a person and deleting it leaves Update and Delete active with nothing selected |
| Crud.StepFixedKeepsButtonsMatch | examples/crud.rs:115-121 | when Delete also deactivates Update and Delete, one event keeps all three buttons matching the state |
| Crud.RunFixedKeepsButtonsMatch | examples/crud.rs:95-146 | when Delete also deactivates Update and Delete, all three buttons match the state after any run of events |
| Crud.PeopleHandler.constructor | examples/crud.rs:70-77 | a new handler has nothing selected, a blank person and no people |
| Crud.PeopleHandler.UpdateSelected | examples/crud.rs:81-92 | appends exactly the `update_selected` events to the queue |
| Crud.PeopleHandler.AddPerson | examples/crud.rs:150-172 | adds one list item under the list, labelled with the person's name, with a new id that it returns |
| Crud.PeopleHandler.RemoveWidget | examples/crud.rs:118 | records the removal of the widget |
| Crud.PeopleHandler.HandleAdd | examples/crud.rs:99-108 | the Add arm's state, emitted events and widget effects are those of `Handled`, and it uses a new id iff the person was valid |
| Crud.PeopleHandler.HandleUpdate | examples/crud.rs:109-114 | the Update arm's state and emitted events are those of `Handled` |
| Crud.PeopleHandler.HandleDelete | examples/crud.rs:115-121 | the Delete arm's state and widget effects are those of `Handled` |
| Crud.PeopleHandler.HandleSelected | examples/crud.rs:122-130 | the PersonSelected arm's state and emitted events are those of `Handled` |
| Crud.PeopleHandler.Handle | examples/crud.rs:95-146 | the new state, emitted events and widget effects are those of `Step`, a new id is used only by a valid Add, and the state stays consistent |
| Lists.ListHandler.constructor | src/widgets/list.rs:28-30 | a new list handler has nothing selected |
| Lists.ListItemHandler.constructor | src/widgets/list.rs:55-57 | a new item handler reports to the given list |
| Lists.ListHandler.Handle | src/widgets/list.rs:33-43 | the list remembers the new selection. A different selection takes `Selected` away from the previous item, reselecting the same item changes no widget, and an item click that just happened leaves exactly the selected item carrying `Selected` |
| Lists.HandleDeselect | src/widgets/list.rs:46-48 | a click that reaches the list sends it `ListItemSelected(None)` |
| Lists.ListItemHandler.Handle | src/widgets/list.rs:60-69 | clicking an unselected item adds `Selected`, sends `ListItemSelected(Some item)` to the list and marks the click handled. Clicking a selected item changes nothing, sends nothing and keeps the handled flag |
| Lists.ClickMakesPending | src/widgets/list.rs:60-69 | a click on an unselected item of a single-selection list leaves exactly the state the list's `ListItemSelected` handler expects |
| Lists.ForwardSelection | src/widgets/list.rs:105-110 | the `on_item_selected` handler calls the callback with the event's widget, then sends that widget `ItemSelected` iff there is one |
| Lists.ListItem | src/widgets/list.rs:131-133 | `list_item` appends exactly one click handler pointing at the list and keeps the rest of the builder |
| Lists.ListEntry | src/widgets/list.rs:120-123 | each built item is renamed "list_item" and given the list-item handler |
| Lists.ListBuilder.constructor | src/widgets/list.rs:77-92 | a new list widget is named "list" and carries the selection handler and the deselect handler, in that order, with no children |
| Lists.ListBuilder.OnItemSelected | src/widgets/list.rs:102-112 | appends the forwarding handler for the callback and returns the same builder |
| Lists.ListBuilder.SetContents | src/widgets/list.rs:115-126 | adds exactly one child per item, in iteration order, each the built item made a list item of this list; existing children, name and handlers are kept |
| Text.NewDefault | src/widgets/text.rs:18-22 | a default-only sheet has the given default and resolves to it for every property set |
| Text.TextDrawState.New | src/widgets/text.rs:104-112 | the draw state holds the five given values |
| Text.TextDrawState.NewDefault | src/widgets/text.rs:92-100 | keeps the text and font and sets size 24, black text and a transparent background |
| Text.TextDrawState.NewStyle | src/widgets/text.rs:101-103 | each of the five fields is the corresponding sheet's default |
| Text.TextStyle.Default | src/widgets/text.rs:16-31 | the default style is empty text, font 0, size 20, black on transparent, with no overrides |
| Text.TextStyle.WithText | src/widgets/text.rs:63-66 | replaces only the text sheet with a default-only sheet and returns the same style |
| Text.TextStyle.WithTextColor | src/widgets/text.rs:67-70 | replaces only the text-colour sheet with a default-only sheet and returns the same style |
| Text.TextStyle.WithBackgroundColor | src/widgets/text.rs:71-74 | replaces only the background-colour sheet with a default-only sheet and returns the same style |
| Text.TextStyle.Apply | src/widgets/text.rs:76-84 | sets each of the five draw-state fields to its sheet's value for the property set; for a style with no overrides, to the sheet defaults |
| Text.TextDrawable | src/widgets/text.rs:33-38 | the drawable's fresh state holds the style's defaults; it draws text and carries the style with `apply_text_style` |
| Text.ApplyTextStyle | src/widgets/text.rs:48-52 | resolves the drawable's own style into its state for the property set |

## Left out

- Loading images (`src/resources/image.rs`) is left out: it is file I/O and GPU texture creation.
- `draw_text`, `measure_dims_no_wrap` and `measure_height_wrapped` are left out: they are glyph layout and rendering over a font library and floating point. `measure_height_wrapped` and `draw_text` wrap with `Wrap::Character`; all three use a line height of 1.25 × the font size.
- The geometry of a circle widget (30 × 30, centred on the click, a strong layout constraint) is left out. Creating a circle only hands out a new widget id.
- The `main` functions, `add_person`'s layout and styling, `create_name_group`, `default_text_adapter`, the layout and style macros and `ListBuilder`'s vertical linear layout are left out. They are builder plumbing over layout and style modules that are not part of this model.
- `WidgetBuilder::on_item_selected` (src/widgets/list.rs:135-143) is left out: it only forwards `ItemSelected` to a user callback.
- Event dispatch, routing to subtrees and the widget tree's `remove_widget` are not part of this model. Emitted events are an appended sequence, and `Deliver` gives property changes their meaning on the targeted widget alone; it does not give them to its descendants.
- The property module is not part of this model. `Ui.ApplyChange` takes `Add` and `Remove` to be set insertion and removal.
- `StyleSheet` is not part of this model. A sheet is its default plus an arbitrary resolution function, so the model does not know how overrides are matched. Only `Text.NewDefault` is known to resolve to its default everywhere.
- Colours and font ids are opaque values; sizes are constants that are never computed with.
- Text.TextStyle.WithText: `TextStyle` is a class, so a style is shared by reference where the toolkit clones it (`#[derive(Clone)]`). Cloning is not modelled.
- Lists.ListBuilder.SetContents: the build function does not get access to the list builder, so builders that change the list while building an item are not modelled.
- Crud.PeopleHandler.Handle: `PersonSelected(Some id)` for an id with no person makes the handler panic (`self.people[&widget_id]`). The method requires the id to be known, and `Crud.Run` stops at such an event.
- Lists.ListHandler.Handle: the list's items are a ghost parameter that only serves to state the single-selection invariant.

## Findings

| source | as written | input that shows it | evidently intended | confidence | as-written member | corrected member |
|---|---|---|---|---|---|---|
| examples/circles.rs:120-127 | Redo appends a circle but never activates the Undo button | Add(p), Undo, Redo from the empty canvas: one circle is drawn and Undo stays inactive, so it cannot be undone | Redo also activates Undo, since it always leaves at least one circle | high, not executed | Circles.RedoLeavesUndoButtonInactive | Circles.RunFixedKeepsButtonsMatch |
| examples/crud.rs:115-121 | Delete clears the selection but does not deactivate the Update and Delete buttons | PersonSelected(Some w), Delete: nothing is selected and Update and Delete stay active | Delete also deactivates Update and Delete, as `update_selected` does for an empty selection | medium, not executed | Crud.DeleteLeavesButtonsActive | Crud.RunFixedKeepsButtonsMatch |
