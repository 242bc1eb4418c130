/** What the fixed layout of menu.rs guarantees: the group order, unique
    identifiers, the accelerator assignment and the Search Documents entry. */
module LayoutProperties {
  import opened Wrappers
  import opened MenuLayout

  const LayoutItemList: seq<MenuItem> := [
      MenuItem("New Document", "new_document", Some("CmdOrCtrl+N")),
      MenuItem("Search Documents", "search", Some("CmdOrCtrl+F")),
      MenuItem("New Category", "new_category", Some("CmdOrCtrl+Shift+N")),
      MenuItem("Manage Categories", "manage_categories", Some("CmdOrCtrl+Shift+M")),
      MenuItem("Export Archive", "export_archive", Some("CmdOrCtrl+E")),
      MenuItem("Import Archive", "import_archive", Some("CmdOrCtrl+I")),
      MenuItem("Settings", "settings", None),
      MenuItem("Quit", "quit", None),
      MenuItem("Undo", "undo", Some("CmdOrCtrl+Z")),
      MenuItem("Redo", "redo", Some("CmdOrCtrl+Shift+Z")),
      MenuItem("Cut", "cut", Some("CmdOrCtrl+X")),
      MenuItem("Copy", "copy", Some("CmdOrCtrl+C")),
      MenuItem("Paste", "paste", Some("CmdOrCtrl+V")),
      MenuItem("Toggle Sidebar", "toggle_sidebar", Some("CmdOrCtrl+B")),
      MenuItem("Reload", "reload", Some("CmdOrCtrl+R")),
      MenuItem("About Ando Archive", "about", None)
    ]

  lemma {:induction false} ItemsAppend(m1: Menu, m2: Menu)
    ensures Items(m1 + m2) == Items(m1) + Items(m2)
  {
    if m1 != [] {
      assert (m1 + m2)[0] == m1[0] && (m1 + m2)[1..] == m1[1..] + m2;
      ItemsAppend(m1[1..], m2);
      calc {
        Items(m1 + m2);
        EntryItems(m1[0].entries) + Items(m1[1..] + m2);
        EntryItems(m1[0].entries) + (Items(m1[1..]) + Items(m2));
        (EntryItems(m1[0].entries) + Items(m1[1..])) + Items(m2);
        Items(m1) + Items(m2);
      }
    } else {
      assert m1 + m2 == m2;
    }
  }

  lemma ItemsOfOne(g: Group)
    ensures Items([g]) == EntryItems(g.entries)
  {
  }

  lemma DocumentsItems()
    ensures EntryItems(DocumentsMenu.entries) == [MenuItem("New Document", "new_document", Some("CmdOrCtrl+N")), MenuItem("Search Documents", "search", Some("CmdOrCtrl+F"))]
  {
  }

  lemma CategoriesItems()
    ensures EntryItems(CategoriesMenu.entries) == [MenuItem("New Category", "new_category", Some("CmdOrCtrl+Shift+N")), MenuItem("Manage Categories", "manage_categories", Some("CmdOrCtrl+Shift+M"))]
  {
  }

  lemma FileItems()
    ensures EntryItems(FileMenu.entries) == [MenuItem("Export Archive", "export_archive", Some("CmdOrCtrl+E")), MenuItem("Import Archive", "import_archive", Some("CmdOrCtrl+I")), MenuItem("Settings", "settings", None), MenuItem("Quit", "quit", None)]
  {
  }

  lemma EditItems()
    ensures EntryItems(EditMenu.entries) == [MenuItem("Undo", "undo", Some("CmdOrCtrl+Z")), MenuItem("Redo", "redo", Some("CmdOrCtrl+Shift+Z")), MenuItem("Cut", "cut", Some("CmdOrCtrl+X")), MenuItem("Copy", "copy", Some("CmdOrCtrl+C")), MenuItem("Paste", "paste", Some("CmdOrCtrl+V"))]
  {
  }

  lemma ViewItems()
    ensures EntryItems(ViewMenu.entries) == [MenuItem("Toggle Sidebar", "toggle_sidebar", Some("CmdOrCtrl+B")), MenuItem("Reload", "reload", Some("CmdOrCtrl+R"))]
  {
  }

  lemma HelpItems()
    ensures EntryItems(HelpMenu.entries) == [MenuItem("About Ando Archive", "about", None)]
  {
  }

  lemma LayoutItemsByGroup()
    ensures Items(Layout) == EntryItems(DocumentsMenu.entries) + EntryItems(CategoriesMenu.entries)
      + EntryItems(FileMenu.entries) + EntryItems(EditMenu.entries) + EntryItems(ViewMenu.entries)
      + EntryItems(HelpMenu.entries)
  {
    assert Layout == [DocumentsMenu] + [CategoriesMenu] + [FileMenu] + [EditMenu] + [ViewMenu] + [HelpMenu];
    ItemsAppend([DocumentsMenu] + [CategoriesMenu] + [FileMenu] + [EditMenu] + [ViewMenu], [HelpMenu]);
    ItemsAppend([DocumentsMenu] + [CategoriesMenu] + [FileMenu] + [EditMenu], [ViewMenu]);
    ItemsAppend([DocumentsMenu] + [CategoriesMenu] + [FileMenu], [EditMenu]);
    ItemsAppend([DocumentsMenu] + [CategoriesMenu], [FileMenu]);
    ItemsAppend([DocumentsMenu], [CategoriesMenu]);
    ItemsOfOne(DocumentsMenu);
    ItemsOfOne(CategoriesMenu);
    ItemsOfOne(FileMenu);
    ItemsOfOne(EditMenu);
    ItemsOfOne(ViewMenu);
    ItemsOfOne(HelpMenu);
  }

  lemma LayoutItems()
    ensures Items(Layout) == LayoutItemList
  {
    LayoutItemsByGroup();
    DocumentsItems();
    CategoriesItems();
    FileItems();
    EditItems();
    ViewItems();
    HelpItems();
  }

  /** The six submenus appear in this order on the menu bar. */
  lemma GroupOrder()
    ensures GroupTitles(Layout) == ["Documents", "Categories", "File", "Edit", "View", "Help"]
  {
  }

  lemma LayoutIds()
    ensures Ids(Items(Layout)) == ["new_document", "search", "new_category", "manage_categories",
      "export_archive", "import_archive", "settings", "quit", "undo", "redo", "cut", "copy",
      "paste", "toggle_sidebar", "reload", "about"]
  {
    LayoutItems();
  }

  /** No two items of the menu share an identifier. */
  lemma IdsUnique()
    ensures Distinct(Ids(Items(Layout)))
  {
    LayoutIds();
  }

  /** No two items of the menu share a text either. */
  lemma TextsUnique()
    ensures Distinct(Texts(Items(Layout)))
  {
    LayoutItems();
  }

  /** Every item has a non-empty text and a non-empty identifier. */
  lemma ItemsWellFormed()
    ensures forall i :: 0 <= i < |Items(Layout)| ==> Items(Layout)[i].text != "" && Items(Layout)[i].id != ""
  {
    LayoutItems();
  }

  /** Settings, Quit and About are the items without an accelerator. */
  lemma MissingAccelerators()
    ensures forall i :: 0 <= i < |Items(Layout)| ==>
      (Items(Layout)[i].accelerator.None? <==> Items(Layout)[i].id in {"settings", "quit", "about"})
  {
    LayoutItems();
  }

  /** The accelerator column of the layout, item by item. */
  const LayoutAcceleratorList: seq<Option<string>> :=
    seq(|LayoutItemList|, i requires 0 <= i < |LayoutItemList| => LayoutItemList[i].accelerator)

  lemma LayoutAccelerators()
    ensures |Items(Layout)| == |LayoutAcceleratorList|
    ensures forall i :: 0 <= i < |Items(Layout)| ==> Items(Layout)[i].accelerator == LayoutAcceleratorList[i]
  {
    LayoutItems();
  }

  lemma AcceleratorListDistinct()
    ensures forall i, j ::
      0 <= i < j < |LayoutAcceleratorList| && LayoutAcceleratorList[i].Some? && LayoutAcceleratorList[j].Some?
      ==> LayoutAcceleratorList[i].value != LayoutAcceleratorList[j].value
  {
  }

  /** No two items share an accelerator. */
  lemma AcceleratorsUnique()
    ensures AcceleratorsDistinct(Items(Layout))
  {
    LayoutAccelerators();
    AcceleratorListDistinct();
  }

  /** "Search Documents" is the third entry of the Documents submenu, right after a
      separator, and it is the only item with that text. */
  lemma SearchEntry()
    ensures Layout[0].title == "Documents"
    ensures Layout[0].entries[1] == Separator
    ensures Layout[0].entries[2] == Item(MenuItem("Search Documents", "search", Some("CmdOrCtrl+F")))
    ensures forall it :: it in Items(Layout) && it.text == "Search Documents" ==>
      it == MenuItem("Search Documents", "search", Some("CmdOrCtrl+F"))
  {
    LayoutItems();
  }
}
