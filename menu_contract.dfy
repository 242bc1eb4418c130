/** How the dispatcher lines up with the identifiers of the layout: which menu
    items it answers, which it silently ignores, and that no arm is dead. */
module MenuContract {
  import opened MenuLayout
  import opened LayoutProperties
  import opened MenuDispatch

  /** The identifiers whose menu entries the dispatcher leaves unhandled. */
  const EditIds: set<string> := {"undo", "redo", "cut", "copy", "paste"}

  /** Quitting exits with status 0 and emits nothing. */
  lemma QuitExits()
    ensures HandleMenuEvent(QuitId) == Exit(0)
    ensures Emitted(HandleMenuEvent(QuitId)) == []
  {
  }

  /** A string that is not one of the eleven matched identifiers does nothing. */
  lemma UnknownIsNoop(id: string)
    requires id !in EmittingIds && id != QuitId
    ensures HandleMenuEvent(id) == Noop
    ensures Emitted(HandleMenuEvent(id)) == []
  {
  }

  /** Selecting an emitting identifier emits exactly one event, "menu_" + id. */
  lemma EmitsOneEvent(id: string)
    requires id in EmittingIds
    ensures Emitted(HandleMenuEvent(id)) == [EventPrefix + id]
  {
    EventNaming(id);
  }

  /** Distinct identifiers never share an event name. */
  lemma EventNamesInjective(a: string, b: string)
    requires HandleMenuEvent(a).Emit? && HandleMenuEvent(a) == HandleMenuEvent(b)
    ensures a == b
  {
  }

  /** Not every menu item is dispatched: Undo, Redo, Cut, Copy and Paste fall
      through to the no-op arm, and every other item of the layout has an arm. */
  lemma MenuItemsDispatch()
    ensures forall i :: 0 <= i < |Items(Layout)| ==>
      (HandleMenuEvent(Items(Layout)[i].id).Noop? <==> Items(Layout)[i].id in EditIds)
  {
    LayoutIds();
    assert forall i :: 0 <= i < |Items(Layout)| ==> Items(Layout)[i].id == Ids(Items(Layout))[i];
  }

  /** Every identifier the dispatcher acts on belongs to an item of the layout. */
  lemma NoDeadArms(id: string)
    requires !HandleMenuEvent(id).Noop?
    ensures id in Ids(Items(Layout))
  {
    LayoutIds();
  }

  /** The Search Documents item dispatches to exactly one menu_search event. */
  lemma SearchScenario()
    ensures Layout[0].entries[2].item.id == "search"
    ensures Emitted(HandleMenuEvent(Layout[0].entries[2].item.id)) == ["menu_search"]
  {
  }
}
