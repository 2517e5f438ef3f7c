/**
 * The dashboard page: the widget preference store (an ordered list of
 * `{id, name, enabled}` that the customize sheet toggles and reorders), the
 * visibility lookup every widget slot consults, and the team/personal view flag.
 */
module Dashboard {
  import opened Optional
  import opened JsArray
  import opened CustomizeDashboard

  const InitialWidgets: seq<Widget> := [
    Widget("aggregates", "Aggregate Cards", true),
    Widget("workSnapshot", "Work Snapshot", true),
    Widget("workload", "Workload & Sprint", true),
    Widget("activity", "Recent Activity", true),
    Widget("risks", "Risk Detection", true),
    Widget("aiSummary", "AI Summary", true),
    Widget("team", "Team Overview", true)
  ]

  const InitialIds: seq<string> :=
    ["aggregates", "workSnapshot", "workload", "activity", "risks", "aiSummary", "team"]

  /** The store starts with seven distinct ids, every widget enabled. */
  lemma InitialWidgetsWellFormed()
    ensures |InitialWidgets| == 7
    ensures Ids(InitialWidgets) == InitialIds && Distinct(InitialIds)
    ensures forall k :: 0 <= k < |InitialWidgets| ==> InitialWidgets[k].enabled
  {
  }

  /** `widgets.map((w) => (w.id === id ? { ...w, enabled: !w.enabled } : w))`. */
  function Toggle(ws: seq<Widget>, id: string): (r: seq<Widget>)
    ensures |r| == |ws| && Ids(r) == Ids(ws)
    ensures forall k :: 0 <= k < |ws| ==> r[k].name == ws[k].name
    ensures forall k :: 0 <= k < |ws| ==> r[k].enabled == (ws[k].enabled != (ws[k].id == id))
  {
    var r := seq(|ws|, k requires 0 <= k < |ws| =>
      if ws[k].id == id then ws[k].(enabled := !ws[k].enabled) else ws[k]);
    assert Ids(r) == Ids(ws);
    r
  }

  /** Toggling the same id twice restores the list. */
  lemma ToggleTwice(ws: seq<Widget>, id: string)
    ensures Toggle(Toggle(ws, id), id) == ws
  {
    var r := Toggle(Toggle(ws, id), id);
    forall k | 0 <= k < |ws| ensures r[k] == ws[k] {
      assert r[k].id == Ids(r)[k];
    }
  }

  /** Toggling an id that no widget has changes nothing. */
  lemma ToggleAbsent(ws: seq<Widget>, id: string)
    requires id !in Ids(ws)
    ensures Toggle(ws, id) == ws
  {
    var r := Toggle(ws, id);
    forall k | 0 <= k < |ws| ensures r[k] == ws[k] {
      assert r[k].id == Ids(r)[k] && ws[k].id == Ids(ws)[k];
    }
  }

  /** `widgets.find((w) => w.id === id)?.enabled ?? true`. */
  function IsWidgetEnabled(ws: seq<Widget>, id: string): (r: bool)
    ensures id !in Ids(ws) ==> r
    ensures id in Ids(ws) ==> r == ws[IndexOfId(ws, id)].enabled
  {
    assert Find(ws, IdIs(id)).None? <==> IndexOfId(ws, id) == -1;
    match Find(ws, IdIs(id))
    case None => true
    case Some(w) => w.enabled
  }

  /** A toggle flips what the lookup answers for its id and for no other id. */
  lemma ToggleFlipsVisibility(ws: seq<Widget>, id: string, other: string)
    requires id in Ids(ws)
    ensures IsWidgetEnabled(Toggle(ws, id), id) == !IsWidgetEnabled(ws, id)
    ensures other != id ==> IsWidgetEnabled(Toggle(ws, id), other) == IsWidgetEnabled(ws, other)
  {
    var r := Toggle(ws, id);
    assert IndexOfId(r, id) == IndexOfId(ws, id) && IndexOfId(r, other) == IndexOfId(ws, other);
  }

  /** The team overview is rendered only when enabled and in the team view. */
  predicate TeamOverviewShown(ws: seq<Widget>, isMyDashboard: bool) {
    IsWidgetEnabled(ws, "team") && !isMyDashboard
  }

  /** The rule for the team overview: hidden on My Dashboard; in the team view
      it follows the store's flag, so toggling "team" shows or hides it, and an
      unlisted widget counts as shown. */
  lemma TeamOverviewRule(ws: seq<Widget>, isMyDashboard: bool)
    ensures isMyDashboard ==> !TeamOverviewShown(ws, isMyDashboard)
    ensures "team" in Ids(ws) && !isMyDashboard ==>
      TeamOverviewShown(Toggle(ws, "team"), false) == !TeamOverviewShown(ws, false)
    ensures "team" !in Ids(ws) ==> TeamOverviewShown(ws, isMyDashboard) == !isMyDashboard
  {
    if "team" in Ids(ws) {
      ToggleFlipsVisibility(ws, "team", "team");
    }
  }

  /** On the initial store the team overview shows exactly in the team view. */
  lemma TeamOverviewInitially(isMyDashboard: bool)
    ensures TeamOverviewShown(InitialWidgets, isMyDashboard) <==> !isMyDashboard
  {
    InitialWidgetsWellFormed();
    assert InitialWidgets[6].id == "team";
    assert IndexOfId(InitialWidgets, "team") == 6 by {
      assert forall m :: 0 <= m < 6 ==> InitialWidgets[m].id != "team";
    }
  }

  class DashboardPage {
    var isMyDashboard: bool
    var selectedProject: string
    var widgets: seq<Widget>

    /** The store always holds the initial widgets' ids, rearranged. */
    ghost predicate Valid()
      reads this
    {
      multiset(Ids(widgets)) == multiset(InitialIds)
    }

    constructor ()
      ensures Valid()
      ensures widgets == InitialWidgets && !isMyDashboard && selectedProject == "all"
    {
      isMyDashboard := false;
      selectedProject := "all";
      widgets := InitialWidgets;
      InitialWidgetsWellFormed();
    }

    method HandleToggleWidget(id: string)
      requires Valid()
      modifies this
      ensures Valid()
      ensures widgets == Toggle(old(widgets), id)
      ensures isMyDashboard == old(isMyDashboard) && selectedProject == old(selectedProject)
    {
      widgets := Toggle(widgets, id);
    }

    /** Stores what the customize sheet emits: a rearrangement of the current list. */
    method HandleReorderWidgets(newWidgets: seq<Widget>)
      requires Valid() && multiset(Ids(newWidgets)) == multiset(Ids(widgets))
      modifies this
      ensures Valid()
      ensures widgets == newWidgets
      ensures isMyDashboard == old(isMyDashboard) && selectedProject == old(selectedProject)
    {
      widgets := newWidgets;
    }

    /** One drag-over event in the customize sheet, as wired up by the page:
        the sheet reads the current list and the page stores what it emits. */
    method DragOverWidget(panel: CustomizeDashboardPanel, targetId: string)
      requires Valid()
      requires targetId in Ids(widgets)
      requires panel.draggedItem.Some? ==> panel.draggedItem.value in Ids(widgets)
      modifies this
      ensures Valid()
      ensures widgets == if panel.EmitsReorder(targetId)
        then Reorder(old(widgets), panel.draggedItem.value, targetId)
        else old(widgets)
      ensures isMyDashboard == old(isMyDashboard) && selectedProject == old(selectedProject)
    {
      var emitted := panel.HandleDragOver(widgets, targetId);
      if emitted.Some? {
        ReorderKeepsIds(widgets, panel.draggedItem.value, targetId);
        HandleReorderWidgets(emitted.value);
      }
    }

    method SetIsMyDashboard(value: bool)
      modifies this
      ensures isMyDashboard == value
      ensures widgets == old(widgets) && selectedProject == old(selectedProject)
    {
      isMyDashboard := value;
    }

    method SetSelectedProject(project: string)
      modifies this
      ensures selectedProject == project
      ensures widgets == old(widgets) && isMyDashboard == old(isMyDashboard)
    {
      selectedProject := project;
    }
  }

  /** Whatever the history of toggles and reorders, ids stay unique. */
  lemma ValidStoreHasDistinctIds(ws: seq<Widget>)
    requires multiset(Ids(ws)) == multiset(InitialIds)
    ensures Distinct(Ids(ws)) && |ws| == 7
  {
    InitialWidgetsWellFormed();
    DistinctByMultiset(Ids(ws), InitialIds);
    assert |Ids(ws)| == |multiset(Ids(ws))|;
  }
}
