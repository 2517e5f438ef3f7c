/**
 * The customize sheet of the dashboard: it remembers which widget is being
 * dragged and, on every drag-over, emits the widget list reordered by moving
 * the dragged widget to the index the hovered widget had.
 */
module CustomizeDashboard {
  import opened Optional
  import opened JsArray

  datatype Widget = Widget(id: string, name: string, enabled: bool)

  /** The ids of a widget list, in order. */
  function Ids(ws: seq<Widget>): seq<string> {
    seq(|ws|, k requires 0 <= k < |ws| => ws[k].id)
  }

  /** The callback `(w) => w.id === id`. */
  function IdIs(id: string): Widget -> bool {
    (w: Widget) => w.id == id
  }

  /** `widgets.findIndex((w) => w.id === id)`. */
  function IndexOfId(ws: seq<Widget>, id: string): (k: int)
    ensures -1 <= k < |ws|
    ensures k == -1 <==> id !in Ids(ws)
    ensures 0 <= k ==> ws[k].id == id && forall m :: 0 <= m < k ==> ws[m].id != id
  {
    var ids := Ids(ws);
    assert forall m :: 0 <= m < |ws| ==> ids[m] == ws[m].id && (IdIs(id)(ws[m]) <==> ids[m] == id);
    FindIndex(ws, IdIs(id))
  }

  /** The list `handleDragOver` emits when `dragged` is dropped on `target`:
      the dragged widget is spliced out and spliced back in at the target's
      original index. */
  function Reorder(ws: seq<Widget>, dragged: string, target: string): (r: seq<Widget>)
    requires dragged in Ids(ws) && target in Ids(ws)
    ensures |r| == |ws|
    ensures r[IndexOfId(ws, target)].id == dragged
  {
    MovePlaces(ws, IndexOfId(ws, dragged), IndexOfId(ws, target));
    Move(ws, IndexOfId(ws, dragged), IndexOfId(ws, target))
  }

  /** Reordering keeps every widget object and adds none: a permutation. */
  lemma ReorderPermutes(ws: seq<Widget>, dragged: string, target: string)
    requires dragged in Ids(ws) && target in Ids(ws)
    ensures |Reorder(ws, dragged, target)| == |ws|
    ensures multiset(Reorder(ws, dragged, target)) == multiset(ws)
  {
    MovePermutes(ws, IndexOfId(ws, dragged), IndexOfId(ws, target));
  }

  /** The dragged widget ends at the target's original index, and with it taken
      out again the remaining widgets are in their original relative order. */
  lemma ReorderPlacesDragged(ws: seq<Widget>, dragged: string, target: string)
    requires dragged in Ids(ws) && target in Ids(ws)
    ensures var t := IndexOfId(ws, target);
      Reorder(ws, dragged, target)[t] == ws[IndexOfId(ws, dragged)] &&
      RemoveAt(Reorder(ws, dragged, target), t) == RemoveAt(ws, IndexOfId(ws, dragged))
  {
    MovePlaces(ws, IndexOfId(ws, dragged), IndexOfId(ws, target));
  }

  /** Dragging down lands the widget right after the target; dragging up, right before it. */
  lemma ReorderSideOfTarget(ws: seq<Widget>, dragged: string, target: string)
    requires dragged in Ids(ws) && target in Ids(ws)
    ensures var d, t := IndexOfId(ws, dragged), IndexOfId(ws, target);
      (d < t ==> Reorder(ws, dragged, target)[t - 1] == ws[t]) &&
      (t < d ==> Reorder(ws, dragged, target)[t + 1] == ws[t])
  {
    var d, t := IndexOfId(ws, dragged), IndexOfId(ws, target);
    if d < t { MoveAt(ws, d, t, t - 1); }
    if t < d { MoveAt(ws, d, t, t + 1); }
  }

  /** Reordering moves whole widgets, so the ids are reordered the same way. */
  lemma ReorderIds(ws: seq<Widget>, dragged: string, target: string)
    requires dragged in Ids(ws) && target in Ids(ws)
    ensures Ids(Reorder(ws, dragged, target)) == Move(Ids(ws), IndexOfId(ws, dragged), IndexOfId(ws, target))
  {
    var d, t := IndexOfId(ws, dragged), IndexOfId(ws, target);
    var r, ids := Reorder(ws, dragged, target), Ids(ws);
    MovePermutes(ids, d, t);
    forall k | 0 <= k < |ws| ensures Ids(r)[k] == Move(ids, d, t)[k] {
      MoveAt(ws, d, t, k);
      MoveAt(ids, d, t, k);
    }
  }

  /** Hence reordering keeps the multiset of ids. */
  lemma ReorderKeepsIds(ws: seq<Widget>, dragged: string, target: string)
    requires dragged in Ids(ws) && target in Ids(ws)
    ensures multiset(Ids(Reorder(ws, dragged, target))) == multiset(Ids(ws))
  {
    ReorderIds(ws, dragged, target);
    MovePermutes(Ids(ws), IndexOfId(ws, dragged), IndexOfId(ws, target));
  }

  /** One drag-over event: the dragged id and the hovered widget's id. */
  datatype DragOver = DragOver(dragged: string, target: string)

  /** Whether a drag-over reorders: an id is dragged, it is not the target,
      and both ids are listed. */
  predicate Reorders(ws: seq<Widget>, d: DragOver) {
    d.dragged != "" && d.dragged != d.target && d.dragged in Ids(ws) && d.target in Ids(ws)
  }

  /** The list after a drag gesture: every drag-over along the pointer's path
      reorders the list the previous one produced. */
  function AfterDragOvers(ws: seq<Widget>, path: seq<DragOver>): (r: seq<Widget>)
    ensures |r| == |ws|
    decreases |path|
  {
    if path == [] then ws
    else
      var next := if Reorders(ws, path[0]) then Reorder(ws, path[0].dragged, path[0].target) else ws;
      AfterDragOvers(next, path[1..])
  }

  /** However the pointer moves, a whole gesture only permutes the widgets and their ids. */
  lemma {:induction false} AfterDragOversPermutes(ws: seq<Widget>, path: seq<DragOver>)
    ensures |AfterDragOvers(ws, path)| == |ws|
    ensures multiset(AfterDragOvers(ws, path)) == multiset(ws)
    ensures multiset(Ids(AfterDragOvers(ws, path))) == multiset(Ids(ws))
    decreases |path|
  {
    if path != [] {
      var d := path[0];
      if Reorders(ws, d) {
        ReorderPermutes(ws, d.dragged, d.target);
        ReorderKeepsIds(ws, d.dragged, d.target);
        AfterDragOversPermutes(Reorder(ws, d.dragged, d.target), path[1..]);
      } else {
        AfterDragOversPermutes(ws, path[1..]);
      }
    }
  }

  class CustomizeDashboardPanel {
    /** The id of the widget being dragged, or null. */
    var draggedItem: Option<string>

    constructor ()
      ensures draggedItem == None
    {
      draggedItem := None;
    }

    method HandleDragStart(id: string)
      modifies this
      ensures draggedItem == Some(id)
    {
      draggedItem := Some(id);
    }

    method HandleDragEnd()
      modifies this
      ensures draggedItem == None
    {
      draggedItem := None;
    }

    /** Whether a drag-over of `targetId` emits a reorder at all: something is
        dragged (`!draggedItem` also holds of the empty id) and it is not the target. */
    predicate EmitsReorder(targetId: string)
      reads this
    {
      draggedItem.Some? && draggedItem.value != "" && draggedItem.value != targetId
    }

    /** Hovering `targetId` during a drag: copies `widgets` into a fresh array,
        splices the dragged widget out and back in at the target's index, and
        returns the list handed to `onReorderWidgets`, or None when nothing is
        emitted. `widgets` itself is an immutable value and is not touched. */
    method HandleDragOver(widgets: seq<Widget>, targetId: string) returns (emitted: Option<seq<Widget>>)
      requires EmitsReorder(targetId) ==> draggedItem.value in Ids(widgets) && targetId in Ids(widgets)
      ensures !EmitsReorder(targetId) ==> emitted == None
      ensures EmitsReorder(targetId) ==> emitted == Some(Reorder(widgets, draggedItem.value, targetId))
    {
      if draggedItem.None? || draggedItem.value == "" || draggedItem.value == targetId {
        return None;
      }
      var newWidgets := new Widget[|widgets|](k requires 0 <= k < |widgets| => widgets[k]);
      assert newWidgets[..] == widgets;
      var draggedIndex := IndexOfId(widgets, draggedItem.value);
      var targetIndex := IndexOfId(widgets, targetId);
      MoveInPlace(newWidgets, draggedIndex, targetIndex);
      emitted := Some(newWidgets[..]);
    }
  }
}
