/** handle_menu_event: the identifier of a selected menu item decides one action.
    The runtime calls that perform the action (emitting an event, exiting the
    process) are not modelled; the action is returned instead. */
module MenuDispatch {
  /** Emit(name) broadcasts an event called name with the unit payload `()`. */
  datatype Action = Emit(name: string) | Exit(code: int) | Noop

  const EventPrefix := "menu_"

  const QuitId := "quit"

  /** The identifiers answered by emitting an event. */
  const EmittingIds: set<string> := {"new_document", "search", "new_category", "manage_categories",
    "export_archive", "import_archive", "settings", "toggle_sidebar", "reload", "about"}

  /** Ten identifiers emit an event, quit exits with status 0, and every other
      string is ignored. */
  function HandleMenuEvent(id: string): (a: Action)
    ensures a.Emit? <==> id in EmittingIds
    ensures a.Exit? <==> id == QuitId
    ensures a.Exit? ==> a.code == 0
  {
    match id
    case "new_document" => Emit("menu_new_document")
    case "search" => Emit("menu_search")
    case "new_category" => Emit("menu_new_category")
    case "manage_categories" => Emit("menu_manage_categories")
    case "export_archive" => Emit("menu_export_archive")
    case "import_archive" => Emit("menu_import_archive")
    case "settings" => Emit("menu_settings")
    case "quit" => Exit(0)
    case "toggle_sidebar" => Emit("menu_toggle_sidebar")
    case "reload" => Emit("menu_reload")
    case "about" => Emit("menu_about")
    case _ => Noop
  }

  /** The events emitted by performing an action: exactly one for Emit, none otherwise. */
  function Emitted(a: Action): (events: seq<string>)
    ensures |events| <= 1
    ensures |events| == 1 <==> a.Emit?
  {
    if a.Emit? then [a.name] else []
  }

  /** The event emitted for an identifier is "menu_" followed by that identifier. */
  lemma EventNaming(id: string)
    requires id in EmittingIds
    ensures HandleMenuEvent(id) == Emit(EventPrefix + id)
  {
    match id
    case "new_document" => assert EventPrefix + id == "menu_new_document";
    case "search" => assert EventPrefix + id == "menu_search";
    case "new_category" => assert EventPrefix + id == "menu_new_category";
    case "manage_categories" => assert EventPrefix + id == "menu_manage_categories";
    case "export_archive" => assert EventPrefix + id == "menu_export_archive";
    case "import_archive" => assert EventPrefix + id == "menu_import_archive";
    case "settings" => assert EventPrefix + id == "menu_settings";
    case "toggle_sidebar" => assert EventPrefix + id == "menu_toggle_sidebar";
    case "reload" => assert EventPrefix + id == "menu_reload";
    case "about" => assert EventPrefix + id == "menu_about";
  }
}
