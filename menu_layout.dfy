/** The application menu of menu.rs as a value: six top-level groups, each an
    ordered list of items and separators. */
module MenuLayout {
  import opened Wrappers

  /** An actionable entry: what the user sees, the identifier the runtime hands
      back on selection, and an optional platform key combination. */
  datatype MenuItem = MenuItem(text: string, id: string, accelerator: Option<string>)

  datatype Entry = Item(item: MenuItem) | Separator

  /** A top-level submenu; the order of its entries is the on-screen order. */
  datatype Group = Group(title: string, entries: seq<Entry>)

  type Menu = seq<Group>

  /** The six submenus create_app_menu builds, one constant per submenu. */
  const DocumentsMenu := Group("Documents", [
    Item(MenuItem("New Document", "new_document", Some("CmdOrCtrl+N"))),
    Separator,
    Item(MenuItem("Search Documents", "search", Some("CmdOrCtrl+F")))
  ])

  const CategoriesMenu := Group("Categories", [
    Item(MenuItem("New Category", "new_category", Some("CmdOrCtrl+Shift+N"))),
    Item(MenuItem("Manage Categories", "manage_categories", Some("CmdOrCtrl+Shift+M")))
  ])

  const FileMenu := Group("File", [
    Item(MenuItem("Export Archive", "export_archive", Some("CmdOrCtrl+E"))),
    Item(MenuItem("Import Archive", "import_archive", Some("CmdOrCtrl+I"))),
    Separator,
    Item(MenuItem("Settings", "settings", None)),
    Separator,
    Item(MenuItem("Quit", "quit", None))
  ])

  const EditMenu := Group("Edit", [
    Item(MenuItem("Undo", "undo", Some("CmdOrCtrl+Z"))),
    Item(MenuItem("Redo", "redo", Some("CmdOrCtrl+Shift+Z"))),
    Separator,
    Item(MenuItem("Cut", "cut", Some("CmdOrCtrl+X"))),
    Item(MenuItem("Copy", "copy", Some("CmdOrCtrl+C"))),
    Item(MenuItem("Paste", "paste", Some("CmdOrCtrl+V")))
  ])

  const ViewMenu := Group("View", [
    Item(MenuItem("Toggle Sidebar", "toggle_sidebar", Some("CmdOrCtrl+B"))),
    Separator,
    Item(MenuItem("Reload", "reload", Some("CmdOrCtrl+R")))
  ])

  const HelpMenu := Group("Help", [
    Item(MenuItem("About Ando Archive", "about", None))
  ])

  /** The whole menu bar, in the order the top-level builder adds the submenus. */
  const Layout: Menu := [DocumentsMenu, CategoriesMenu, FileMenu, EditMenu, ViewMenu, HelpMenu]

  /** The actionable items of a list of entries, in order, separators dropped. */
  function EntryItems(es: seq<Entry>): (r: seq<MenuItem>)
    ensures |r| <= |es|
  {
    if es == [] then []
    else
      var rest := EntryItems(es[1..]);
      assert es == [es[0]] + es[1..];
      match es[0]
      case Item(it) => [it] + rest
      case Separator => rest
  }

  /** Every actionable item of a menu, in top-to-bottom, left-to-right order. */
  function Items(m: Menu): seq<MenuItem>
  {
    if m == [] then []
    else
      assert m == [m[0]] + m[1..];
      EntryItems(m[0].entries) + Items(m[1..])
  }

  /** The identifiers of a list of items, position by position. */
  function Ids(items: seq<MenuItem>): seq<string> {
    seq(|items|, i requires 0 <= i < |items| => items[i].id)
  }

  function Texts(items: seq<MenuItem>): seq<string> {
    seq(|items|, i requires 0 <= i < |items| => items[i].text)
  }

  function GroupTitles(m: Menu): seq<string> {
    seq(|m|, i requires 0 <= i < |m| => m[i].title)
  }

  predicate Distinct<T(==)>(s: seq<T>) {
    forall i, j :: 0 <= i < j < |s| ==> s[i] != s[j]
  }

  /** No accelerator is bound to two items. */
  predicate AcceleratorsDistinct(items: seq<MenuItem>) {
    forall i, j :: 0 <= i < j < |items| && items[i].accelerator.Some? && items[j].accelerator.Some? ==>
      items[i].accelerator.value != items[j].accelerator.value
  }
}
