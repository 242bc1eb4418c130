# Ando Archive application menu: a Dafny model

Ando Archive is a desktop document archive. Its native shell builds one
application menu and forwards menu selections to the front end as named
events. This project models the two functions of `src-tauri/src/menu.rs`
that hold all of that logic.

- `create_app_menu` builds a fixed menu bar of six submenus: Documents,
  Categories, File, Edit, View and Help. Each submenu is an ordered list of
  items and separators. An item has a text, an identifier and an optional
  accelerator. Every builder call can fail, and `?` stops at the first
  failure, so the function returns either the whole menu or an error.
- `handle_menu_event` matches the selected item's identifier against eleven
  strings. Ten of them emit `"menu_" + id` with the empty payload `()`.
  `quit` exits the process with status 0. Any other string does nothing.

Modules:

- `Wrappers` (wrappers.dfy): `Option` and `Result`. `:-` on `Result` plays the part of Rust's `?`.
- `MenuLayout` (menu_layout.dfy): the datatypes `MenuItem`, `Entry`, `Group` and `Menu`. It holds one constant per submenu and the constant `Layout`, which is the literal tree of `create_app_menu`. It also defines views of a menu: its items, identifiers, texts and group titles.
- `LayoutProperties` (layout_props.dfy): what the fixed layout guarantees.
- `MenuBuild` (menu_build.dfy): construction as a chain of fallible steps. The runtime is a parameter `rt: Step -> Option<BuildError>` that accepts or rejects each step: building an item, building a submenu, building the menu bar, or installing the menu. Every builder function (`BuildItem`, `BuildEntries`, `BuildGroup`, `BuildGroups`, `BuildMenu`) is proved equal to a reference definition. That definition lists the steps in evaluation order and takes the error of the first rejected one.
- `MenuDispatch` (menu_dispatch.dfy): `Action = Emit(name) | Exit(code) | Noop` and `HandleMenuEvent`. The model returns the action instead of calling `app.emit` or `app.exit`. `Emitted` gives the events an action emits.
- `MenuContract` (menu_contract.dfy): how the dispatcher relates to the layout's identifiers, including `EditIds`, the five identifiers it leaves unhandled.

The dispatcher does not handle every menu identifier. The Edit items `undo`,
`redo`, `cut`, `copy` and `paste` (menu.rs:58-90) have no arm in the match
and reach the no-op arm (menu.rs:172). `MenuContract.MenuItemsDispatch`
states exactly this: a menu item is ignored if and only if it is one of those
five. The dispatch is therefore not exhaustive over the menu's identifiers,
and the model states this as it is.

## Model

| member | source | states |
|---|---|---|
| `LayoutProperties.LayoutItems` | src-tauri/src/menu.rs:6-114 | the items of the menu, in order, are the sixteen items of the source with their texts, identifiers and accelerators |
| `LayoutProperties.GroupOrder` | src-tauri/src/menu.rs:116-123 | the menu bar has exactly six submenus, in the order Documents, Categories, File, Edit, View, Help |
| `LayoutProperties.LayoutIds` | src-tauri/src/menu.rs:9-111 | the identifier sequence is new_document, search, new_category, manage_categories, export_archive, import_archive, settings, quit, undo, redo, cut, copy, paste, toggle_sidebar, reload, about |
| `LayoutProperties.IdsUnique` | src-tauri/src/menu.rs:6-114 | no two items of the menu share an identifier |
| `LayoutProperties.TextsUnique` | src-tauri/src/menu.rs:8-110 | no two items of the menu share a text |
| `LayoutProperties.ItemsWellFormed` | src-tauri/src/menu.rs:8-111 | every item has a non-empty text and a non-empty identifier |
| `LayoutProperties.MissingAccelerators` | src-tauri/src/menu.rs:53-112 | an item lacks an accelerator if and only if it is settings, quit or about |
| `LayoutProperties.AcceleratorsUnique` | src-tauri/src/menu.rs:10-103 | no two items share an accelerator |
| `LayoutProperties.SearchEntry` | src-tauri/src/menu.rs:13-18 | the first submenu is Documents; its second entry is a separator and its third is "Search Documents" with id `search` and accelerator `CmdOrCtrl+F`; no other item has that text |
| `MenuBuild.FirstFailureAppend` | src-tauri/src/menu.rs:11-20 | running two step lists in sequence fails with the first list's first error, or else with the second list's |
| `MenuBuild.FirstFailureIsEarliest` | src-tauri/src/menu.rs:11-125 | a reported error is the error of a step that was rejected while every step before it succeeded |
| `MenuBuild.FirstFailureAt` | src-tauri/src/menu.rs:11-125 | if step k is the first rejected one, the construction reports exactly its error |
| `MenuBuild.BuildItem` | src-tauri/src/menu.rs:8-11 | building one item gives back that item exactly when the runtime accepts its step, and otherwise that step's error |
| `MenuBuild.BuildEntries` | src-tauri/src/menu.rs:7-19 | building a submenu's entries gives back those entries exactly when every item step succeeds, and otherwise the first failing item's error |
| `MenuBuild.BuildGroup` | src-tauri/src/menu.rs:6-20 | a submenu is its items' steps followed by its own build step; the result is the submenu unchanged on success, otherwise the first error |
| `MenuBuild.BuildGroups` | src-tauri/src/menu.rs:6-114 | building the submenus in order is all or nothing, and the error is that of the earliest rejected step |
| `MenuBuild.BuildMenu` | src-tauri/src/menu.rs:116-123 | the menu bar is built after all submenus; the result is the menu unchanged on success, otherwise the first error |
| `MenuBuild.CreateAppMenu` | src-tauri/src/menu.rs:4-126 | Ok if and only if every build step succeeds, and then the menu is the layout; an Err carries the error of the first rejected step, and no menu |
| `MenuBuild.InstallMenu` | src-tauri/src/lib.rs:22-23 | the menu is installed only if create_app_menu returned Ok and the install step succeeded; a construction error is passed on unchanged |
| `MenuBuild.AcceptingRuntimeBuildsLayout` | src-tauri/src/menu.rs:4-126 | when the runtime accepts every step, the result is Ok with the layout |
| `MenuBuild.AnyRejectionIsFatal` | src-tauri/src/menu.rs:11-123 | one rejected step anywhere in the construction makes the whole result an Err |
| `MenuDispatch.HandleMenuEvent` | src-tauri/src/menu.rs:128-174 | the result emits an event if and only if the identifier is one of the ten emitting identifiers; it exits if and only if the identifier is quit, and then with status 0; every other identifier gives Noop |
| `MenuDispatch.EventNaming` | src-tauri/src/menu.rs:131-170 | each of the ten emitting identifiers emits the event `"menu_" + id` |
| `MenuContract.QuitExits` | src-tauri/src/menu.rs:156-158 | quit exits with status 0 and emits no event |
| `MenuContract.UnknownIsNoop` | src-tauri/src/menu.rs:172 | an identifier outside the eleven matched strings does nothing and emits nothing |
| `MenuContract.EmitsOneEvent` | src-tauri/src/menu.rs:131-170 | an emitting identifier emits exactly one event, named `"menu_" + id` |
| `MenuContract.EventNamesInjective` | src-tauri/src/menu.rs:131-170 | two identifiers that emit the same event are the same identifier |
| `MenuContract.MenuItemsDispatch` | src-tauri/src/menu.rs:129-172 | a menu item falls through to the no-op arm if and only if its identifier is undo, redo, cut, copy or paste (menu.rs:58-90) |
| `MenuContract.NoDeadArms` | src-tauri/src/menu.rs:129-171 | every identifier the dispatcher acts on is the identifier of an item of the menu |
| `MenuContract.SearchScenario` | src-tauri/src/menu.rs:134-136 | the Search Documents item has id `search`, and selecting it emits exactly one event, `menu_search` |

## Left out

- The Tauri builders (`MenuItemBuilder`, `SubmenuBuilder`, `MenuBuilder`) are opaque. Each build step may succeed or fail, and the reason is not modelled. Any check they make on accelerator syntax or duplicate identifiers cannot be seen from menu.rs.
- The runtime is modelled as one verdict per step descriptor. A runtime whose answer to a step depends on the earlier calls is covered only through the descriptor of the step it is asked about.
- The menu value is the tree itself. The runtime's `Menu<Wry>` handle is not modelled.
- `app.emit` and `app.exit` are runtime calls. The model returns the `Action` instead of performing it. Event delivery to subscribers and process termination are not modelled.
- Emit failure is not modelled. The code calls `.unwrap()` on each emit, so a failed emit would panic.
- The event payload is always the unit value `()`. `Emit` therefore carries only the event name.
- src-tauri/src/lib.rs is not modelled, except the two lines that create and install the menu (`InstallMenu`). The rest registers plugins (clipboard, SQL, filesystem, dialog, logging) and wires callbacks. It also sets a floating-point minimum window size, and it has an empty close-request handler.
