/** create_app_menu as a chain of fallible build steps joined by `?`. The
    runtime's builders are opaque: each step either succeeds or reports an
    error, and the first error ends the construction with no menu at all. */
module MenuBuild {
  import opened Wrappers
  import opened MenuLayout

  datatype BuildError = BuildError(message: string)

  /** One call that the runtime may reject: building an item, building a
      submenu, building the menu bar, and installing the menu on the app. */
  datatype Step = ItemStep(item: MenuItem) | SubmenuStep(title: string) | MenuStep | InstallStep

  /** The runtime's verdict on each step: None for success, Some(e) for failure. */
  type Runtime = Step -> Option<BuildError>

  /** The build steps of a list of entries, in evaluation order; separators cannot fail. */
  function EntrySteps(es: seq<Entry>): seq<Step> {
    if es == [] then []
    else (if es[0].Item? then [ItemStep(es[0].item)] else []) + EntrySteps(es[1..])
  }

  /** A submenu builds its items first and then itself. */
  function GroupSteps(g: Group): seq<Step> {
    EntrySteps(g.entries) + [SubmenuStep(g.title)]
  }

  function GroupsSteps(gs: seq<Group>): seq<Step> {
    if gs == [] then [] else GroupSteps(gs[0]) + GroupsSteps(gs[1..])
  }

  /** Every step of building a menu bar: all submenus in order, then the bar itself. */
  function MenuSteps(m: Menu): seq<Step> {
    GroupsSteps(m) + [MenuStep]
  }

  predicate AllSucceed(rt: Runtime, steps: seq<Step>) {
    forall k :: 0 <= k < |steps| ==> rt(steps[k]).None?
  }

  /** Step k is the first one the runtime rejects. */
  predicate FailsFirstAt(rt: Runtime, steps: seq<Step>, k: nat) {
    k < |steps| && rt(steps[k]).Some? && forall j :: 0 <= j < k ==> rt(steps[j]).None?
  }

  /** The error of the earliest rejected step, if any. */
  function FirstFailure(rt: Runtime, steps: seq<Step>): (r: Option<BuildError>)
    ensures r.None? <==> AllSucceed(rt, steps)
  {
    if steps == [] then None
    else if rt(steps[0]).Some? then rt(steps[0])
    else
      var rest := FirstFailure(rt, steps[1..]);
      assert AllSucceed(rt, steps) <==> AllSucceed(rt, steps[1..]) by {
        if AllSucceed(rt, steps[1..]) {
          forall k | 0 <= k < |steps| ensures rt(steps[k]).None? {
            if k > 0 { assert steps[k] == steps[1..][k - 1]; }
          }
        }
      }
      rest
  }

  lemma {:induction false} FirstFailureIsEarliest(rt: Runtime, steps: seq<Step>)
    requires FirstFailure(rt, steps).Some?
    ensures exists k: nat :: FailsFirstAt(rt, steps, k) && FirstFailure(rt, steps) == rt(steps[k])
  {
    if rt(steps[0]).Some? {
      assert FailsFirstAt(rt, steps, 0);
    } else {
      FirstFailureIsEarliest(rt, steps[1..]);
      var k: nat :| FailsFirstAt(rt, steps[1..], k) && FirstFailure(rt, steps[1..]) == rt(steps[1..][k]);
      assert FailsFirstAt(rt, steps, k + 1) by {
        assert steps[k + 1] == steps[1..][k];
        forall j | 0 <= j < k + 1 ensures rt(steps[j]).None? {
          if j > 0 { assert steps[j] == steps[1..][j - 1]; }
        }
      }
    }
  }

  lemma {:induction false} FirstFailureAt(rt: Runtime, steps: seq<Step>, k: nat)
    requires FailsFirstAt(rt, steps, k)
    ensures FirstFailure(rt, steps) == rt(steps[k])
  {
    if k > 0 {
      assert rt(steps[0]).None?;
      assert FailsFirstAt(rt, steps[1..], k - 1) by {
        forall j | 0 <= j < k - 1 ensures rt(steps[1..][j]).None? {
          assert steps[1..][j] == steps[j + 1];
        }
      }
      FirstFailureAt(rt, steps[1..], k - 1);
    }
  }

  /** Running two step lists one after the other fails where the first fails, or else where the second does. */
  lemma {:induction false} FirstFailureAppend(rt: Runtime, a: seq<Step>, b: seq<Step>)
    ensures FirstFailure(rt, a + b) == if FirstFailure(rt, a).Some? then FirstFailure(rt, a) else FirstFailure(rt, b)
  {
    if a == [] {
      assert a + b == b;
    } else {
      assert (a + b)[0] == a[0] && (a + b)[1..] == a[1..] + b;
      FirstFailureAppend(rt, a[1..], b);
    }
  }

  /** The outcome of a build whose steps ran with the given first failure. */
  function Outcome<T>(failure: Option<BuildError>, built: T): Result<T, BuildError> {
    match failure
    case Some(e) => Err(e)
    case None => Ok(built)
  }

  /** One `?`: a step the runtime rejects turns into an early Err. */
  function Perform(rt: Runtime, s: Step): Result<(), BuildError> {
    match rt(s)
    case Some(e) => Err(e)
    case None => Ok(())
  }

  /** MenuItemBuilder::new(text).id(id).accelerator(a).build(app)? */
  function BuildItem(rt: Runtime, it: MenuItem): (r: Result<MenuItem, BuildError>)
    ensures r == Outcome(FirstFailure(rt, [ItemStep(it)]), it)
  {
    var _ :- Perform(rt, ItemStep(it));
    Ok(it)
  }

  /** The `.item(...)` and `.separator()` calls of one submenu builder, in order. */
  function BuildEntries(rt: Runtime, es: seq<Entry>): (r: Result<seq<Entry>, BuildError>)
    ensures r == Outcome(FirstFailure(rt, EntrySteps(es)), es)
  {
    if es == [] then Ok([])
    else
      var head := if es[0].Item? then [ItemStep(es[0].item)] else [];
      FirstFailureAppend(rt, head, EntrySteps(es[1..]));
      assert es == [es[0]] + es[1..];
      var first :- match es[0]
        case Separator => Ok(Separator)
        case Item(it) => var built :- BuildItem(rt, it); Ok(Item(built));
      var rest :- BuildEntries(rt, es[1..]);
      Ok([first] + rest)
  }

  /** SubmenuBuilder::new(app, title) ... .build()? */
  function BuildGroup(rt: Runtime, g: Group): (r: Result<Group, BuildError>)
    ensures r == Outcome(FirstFailure(rt, GroupSteps(g)), g)
  {
    FirstFailureAppend(rt, EntrySteps(g.entries), [SubmenuStep(g.title)]);
    var entries :- BuildEntries(rt, g.entries);
    var _ :- Perform(rt, SubmenuStep(g.title));
    Ok(Group(g.title, entries))
  }

  function BuildGroups(rt: Runtime, gs: seq<Group>): (r: Result<seq<Group>, BuildError>)
    ensures r == Outcome(FirstFailure(rt, GroupsSteps(gs)), gs)
  {
    if gs == [] then Ok([])
    else
      FirstFailureAppend(rt, GroupSteps(gs[0]), GroupsSteps(gs[1..]));
      assert gs == [gs[0]] + gs[1..];
      var first :- BuildGroup(rt, gs[0]);
      var rest :- BuildGroups(rt, gs[1..]);
      Ok([first] + rest)
  }

  /** MenuBuilder::new(app).item(..)...build()? over the already built submenus. */
  function BuildMenu(rt: Runtime, m: Menu): (r: Result<Menu, BuildError>)
    ensures r == Outcome(FirstFailure(rt, MenuSteps(m)), m)
  {
    FirstFailureAppend(rt, GroupsSteps(m), [MenuStep]);
    var groups :- BuildGroups(rt, m);
    var _ :- Perform(rt, MenuStep);
    Ok(groups)
  }

  /** create_app_menu: the fixed layout, built all or nothing. It is Ok exactly
      when every step succeeds, the menu it returns is the layout, and an Err
      carries the error of the first step the runtime rejected. */
  function CreateAppMenu(rt: Runtime): (r: Result<Menu, BuildError>)
    ensures r.Ok? <==> AllSucceed(rt, MenuSteps(Layout))
    ensures r.Ok? ==> r.value == Layout
    ensures r.Err? ==> exists k: nat :: FailsFirstAt(rt, MenuSteps(Layout), k) && rt(MenuSteps(Layout)[k]) == Some(r.error)
  {
    var r := BuildMenu(rt, Layout);
    if r.Err? then FirstFailureIsEarliest(rt, MenuSteps(Layout)); r else r
  }

  /** The setup hook: build the menu, then install it; nothing is installed unless the build is Ok. */
  function InstallMenu(rt: Runtime): (r: Result<Menu, BuildError>)
    ensures r.Ok? <==> CreateAppMenu(rt).Ok? && rt(InstallStep).None?
    ensures r.Ok? ==> r.value == Layout
    ensures CreateAppMenu(rt).Err? ==> r == Err(CreateAppMenu(rt).error)
  {
    var menu :- CreateAppMenu(rt);
    var _ :- Perform(rt, InstallStep);
    Ok(menu)
  }

  /** A runtime that accepts every step yields the layout itself. */
  lemma AcceptingRuntimeBuildsLayout(rt: Runtime)
    requires forall s :: rt(s).None?
    ensures CreateAppMenu(rt) == Ok(Layout)
  {
  }

  /** A single rejected step, wherever it sits, leaves no menu. */
  lemma AnyRejectionIsFatal(rt: Runtime, k: nat)
    requires k < |MenuSteps(Layout)| && rt(MenuSteps(Layout)[k]).Some?
    ensures CreateAppMenu(rt).Err?
  {
  }
}
