/**
 * The checklist panel of a checklist node: a form that adds and edits
 * items, and buttons that delete, tick and reorder them. Every change is sent
 * as an `updateNodeData` patch carrying the whole new item list.
 */
module ChecklistSettings {

  import opened Opt
  import opened Types
  import opened Seqs

  /** The item list a node shows; a missing list reads as empty. */
  function ItemsOf(data: NodeData): (r: seq<ChecklistItem>)
    ensures data.checklistItems.Some? ==> r == data.checklistItems.value
    ensures data.checklistItems.None? ==> r == []
  {
    data.checklistItems.GetOr([])
  }

  /** The patch that replaces the node's whole item list. */
  function ItemsPatch(items: seq<ChecklistItem>): (p: NodeData)
    ensures p.checklistItems == Some(items)
    ensures p.(checklistItems := None) == EmptyData
  {
    EmptyData.(checklistItems := Some(items))
  }
  /** A node updated with the list patch shows exactly that item list, whatever its data was. */
  lemma ItemsPatchReadsBack(data: NodeData, xs: seq<ChecklistItem>)
    ensures ItemsOf(MergeData(data, ItemsPatch(xs))) == xs
    ensures MergeData(data, ItemsPatch(xs)).(checklistItems := data.checklistItems) == data
  {
    var d := MergeData(data, ItemsPatch(xs));
    assert d.extra == data.extra;
  }


  /** The add/edit form's fields. */
  datatype Draft = Draft(text: string, isChecked: bool, priority: string)

  /** The form after a reset: empty text, unticked, medium priority. */
  const BlankDraft := Draft("", false, "medium")

  /** `handleAddItem`'s list: one new item, built from the form, appended last. */
  function AppendItem(items: seq<ChecklistItem>, freshId: string, d: Draft): (r: seq<ChecklistItem>)
    ensures |r| == |items| + 1 && r[..|items|] == items
    ensures r[|items|] == ChecklistItem(freshId, d.text, d.isChecked, Some(d.priority))
  {
    items + [ChecklistItem(freshId, d.text, d.isChecked, Some(d.priority))]
  }

  /** `handleUpdateItem`'s list: the items with that id take the form's text, tick and priority and keep their id. */
  function ReviseItem(items: seq<ChecklistItem>, id: string, d: Draft): (r: seq<ChecklistItem>)
    ensures |r| == |items|
    ensures forall i :: 0 <= i < |items| && items[i].id != id ==> r[i] == items[i]
    ensures forall i :: 0 <= i < |items| && items[i].id == id ==>
      r[i] == ChecklistItem(id, d.text, d.isChecked, Some(d.priority))
  {
    MapWhere(items, (it: ChecklistItem) => it.id == id,
             (it: ChecklistItem) => it.(text := d.text, isChecked := d.isChecked, priority := Some(d.priority)))
  }

  /** `handleDeleteItem`'s list: every item with that id is gone, every other stays. */
  function RemoveItem(items: seq<ChecklistItem>, id: string): (r: seq<ChecklistItem>)
    ensures forall it :: it in r <==> it in items && it.id != id
  {
    FilterExactly(items, (it: ChecklistItem) => it.id != id);
    Filter(items, (it: ChecklistItem) => it.id != id)
  }
  /**
   * Removing distributes over concatenation and keeps a single item exactly when its
   * id differs, so the survivors keep their order and their repetitions.
   */
  lemma RemoveItemAppend(a: seq<ChecklistItem>, b: seq<ChecklistItem>, id: string)
    ensures RemoveItem(a + b, id) == RemoveItem(a, id) + RemoveItem(b, id)
    ensures forall it :: RemoveItem([it], id) == if it.id != id then [it] else []
  {
    FilterAppend(a, b, (it: ChecklistItem) => it.id != id);
  }


  /** `handleToggleItem`'s list: the items with that id flip their tick; nothing else changes. */
  function FlipItem(items: seq<ChecklistItem>, id: string): (r: seq<ChecklistItem>)
    ensures |r| == |items|
    ensures forall i :: 0 <= i < |items| && items[i].id != id ==> r[i] == items[i]
    ensures forall i :: 0 <= i < |items| && items[i].id == id ==>
      r[i].isChecked == !items[i].isChecked && r[i].(isChecked := items[i].isChecked) == items[i]
  {
    MapWhere(items, (it: ChecklistItem) => it.id == id, (it: ChecklistItem) => it.(isChecked := !it.isChecked))
  }

  /** Toggling the same item twice restores the list. */
  lemma FlipTwice(items: seq<ChecklistItem>, id: string)
    ensures FlipItem(FlipItem(items, id), id) == items
  {
    MapWhereTwice(items, (it: ChecklistItem) => it.id == id, (it: ChecklistItem) => it.(isChecked := !it.isChecked));
  }

  /** The position of the first item with that id, or -1. */
  function PositionOf(items: seq<ChecklistItem>, id: string): (i: int)
    ensures -1 <= i < |items|
    ensures i >= 0 ==> items[i].id == id && forall j :: 0 <= j < i ==> items[j].id != id
    ensures i == -1 <==> forall j :: 0 <= j < |items| ==> items[j].id != id
  {
    IndexOf(items, (it: ChecklistItem) => it.id == id)
  }

  /** Whether the item is already first (moving up) or last (moving down), where the move does nothing. */
  predicate AtEdge(items: seq<ChecklistItem>, id: string, up: bool): (e: bool)
    ensures PositionOf(items, id) >= 0 ==>
      (e <==> (up && items[0].id == id) || (!up && items[|items| - 1].id == id && PositionOf(items, id) == |items| - 1))
    ensures items == [] ==> (e <==> !up)
  {
    (up && PositionOf(items, id) == 0) || (!up && PositionOf(items, id) == |items| - 1)
  }

  /**
   * `handleMoveItem`'s list for an id that is present: unchanged at the edge,
   * otherwise the item taken out and put back one place up or down.
   */
  function MovedItems(items: seq<ChecklistItem>, id: string, up: bool): (r: seq<ChecklistItem>)
    requires PositionOf(items, id) >= 0
    ensures |r| == |items| && multiset(r) == multiset(items)
  {
    var i := PositionOf(items, id);
    if AtEdge(items, id, up) then items
    else
      MoveKeepsMultiset(items, i, if up then i - 1 else i + 1);
      Move(items, i, if up then i - 1 else i + 1)
  }

  /** Away from the edge, a move exchanges the item with its neighbour and touches nothing else. */
  lemma MoveSwapsNeighbours(items: seq<ChecklistItem>, id: string, up: bool)
    requires PositionOf(items, id) >= 0 && !AtEdge(items, id, up)
    ensures var i := PositionOf(items, id);
      var j := if up then i - 1 else i + 1;
      0 <= j < |items| && MovedItems(items, id, up) == Swap(items, i, j)
  {
    var i := PositionOf(items, id);
    MoveAdjacentIsSwap(items, i, if up then i - 1 else i + 1);
  }

  /** Ids are distinct, as fresh random ids are. */
  predicate DistinctIds(items: seq<ChecklistItem>) {
    forall i, j :: 0 <= i < j < |items| ==> items[i].id != items[j].id
  }

  /** With distinct ids, moving an item up and then down again restores the list. */
  lemma UpThenDown(items: seq<ChecklistItem>, id: string)
    requires DistinctIds(items) && PositionOf(items, id) > 0
    ensures PositionOf(MovedItems(items, id, true), id) >= 0
    ensures MovedItems(MovedItems(items, id, true), id, false) == items
  {
    var i := PositionOf(items, id);
    MoveSwapsNeighbours(items, id, true);
    var once := MovedItems(items, id, true);
    assert once[i - 1].id == id;
    assert PositionOf(once, id) == i - 1 by {
      forall j | 0 <= j < i - 1
        ensures once[j].id != id
      {
        assert once[j] == items[j];
      }
    }
    MoveSwapsNeighbours(once, id, false);
  }

  /** `getPriorityLabel`: the display name of a priority; an unknown or missing one reads as Medium. */
  function PriorityLabel(priority: Option<string>): (name: string)
    ensures name in {"High", "Medium", "Low"}
    ensures name == "High" <==> priority == Some("high")
    ensures name == "Low" <==> priority == Some("low")
  {
    match priority
    case Some("high") => "High"
    case Some("medium") => "Medium"
    case Some("low") => "Low"
    case _ => "Medium"
  }

  /**
   * `r` is `s` with the element at `from` taken out and put back at `to`,
   * told position by position.
   */
  ghost predicate MovedAt<T>(s: seq<T>, from: nat, to: nat, r: seq<T>)
    requires from < |s| && to < |s|
  {
    && |r| == |s|
    && r[to] == s[from]
    && forall m {:trigger r[m]} :: 0 <= m < |s| && m != to ==>
         r[m] == (if from < to && from <= m < to then s[m + 1]
                  else if to < from && to < m <= from then s[m - 1]
                  else s[m])
  }

  /** The position-by-position account determines the moved list. */
  lemma MovedAtIsMove<T>(s: seq<T>, from: nat, to: nat, r: seq<T>)
    requires from < |s| && to < |s|
    requires MovedAt(s, from, to, r)
    ensures r == Move(s, from, to)
  {
    var want := Move(s, from, to);
    MoveElements(s, from, to);
    forall m | 0 <= m < |s|
      ensures r[m] == want[m]
    {
      if m != to {
        var was := if from < to && from <= m < to then s[m + 1]
                   else if to < from && to < m <= from then s[m - 1]
                   else s[m];
        assert r[m] == was;
        assert want[m] == was;
      }
    }
    assert |r| == |want|;
  }

  /**
   * Copy the list into a fresh array and move one element within it, as the
   * two `splice` calls on the copied array do.
   */
  method SpliceMove<T>(items: seq<T>, from: nat, to: nat) returns (r: seq<T>)
    requires from < |items| && to < |items|
    ensures r == Move(items, from, to)
  {
    var a := new T[|items|](i requires 0 <= i < |items| => items[i]);
    assert a[..] == items;
    var x := a[from];
    if from < to {
      ShiftDown(a, from, to);
    } else if to < from {
      ShiftUp(a, to, from);
    }
    a[to] := x;
    r := a[..];
    assert MovedAt(items, from, to, r);
    MovedAtIsMove(items, from, to, r);
  }

  /** Every element of `a[lo + 1..hi + 1]` moves one place down; the rest stay. */
  method ShiftDown<T>(a: array<T>, lo: nat, hi: nat)
    requires lo < hi < a.Length
    modifies a
    ensures forall m :: 0 <= m < a.Length ==> a[m] == (if lo <= m < hi then old(a[m + 1]) else old(a[m]))
  {
    var k := lo;
    while k < hi
      invariant lo <= k <= hi
      invariant forall m :: 0 <= m < a.Length ==> a[m] == (if lo <= m < k then old(a[m + 1]) else old(a[m]))
    {
      a[k] := a[k + 1];
      k := k + 1;
    }
  }

  /** Every element of `a[lo..hi]` moves one place up; the rest stay. */
  method ShiftUp<T>(a: array<T>, lo: nat, hi: nat)
    requires lo < hi < a.Length
    modifies a
    ensures forall m :: 0 <= m < a.Length ==> a[m] == (if lo < m <= hi then old(a[m - 1]) else old(a[m]))
  {
    var k := hi;
    while k > lo
      invariant lo <= k <= hi
      invariant forall m :: 0 <= m < a.Length ==> a[m] == (if k < m <= hi then old(a[m - 1]) else old(a[m]))
    {
      a[k] := a[k - 1];
      k := k - 1;
    }
  }

  /** The panel's form state: the draft and the id of the item being edited. */
  class ChecklistForm {
    var draft: Draft
    var editingItemId: Option<string>

    constructor ()
      ensures draft == BlankDraft && editingItemId == None
    {
      draft := BlankDraft;
      editingItemId := None;
    }

    /** `handleAddItem`: nothing without text; otherwise the appended list is sent and the form reset. */
    method HandleAddItem(data: NodeData, freshId: string) returns (patch: Option<NodeData>)
      modifies this
      ensures old(draft.text) == "" ==> patch == None && draft == old(draft)
      ensures old(draft.text) != "" ==>
        patch == Some(ItemsPatch(AppendItem(ItemsOf(data), freshId, old(draft)))) && draft == BlankDraft
      ensures editingItemId == old(editingItemId)
    {
      if draft.text == "" {
        return None;
      }
      patch := Some(ItemsPatch(AppendItem(ItemsOf(data), freshId, draft)));
      draft := BlankDraft;
    }

    /** `handleUpdateItem`: needs an item being edited and text; sends the revised list and closes the edit. */
    method HandleUpdateItem(data: NodeData) returns (patch: Option<NodeData>)
      modifies this
      ensures !Truthy(old(editingItemId)) || old(draft.text) == "" ==>
        patch == None && draft == old(draft) && editingItemId == old(editingItemId)
      ensures Truthy(old(editingItemId)) && old(draft.text) != "" ==>
        && patch == Some(ItemsPatch(ReviseItem(ItemsOf(data), old(editingItemId).value, old(draft))))
        && draft == BlankDraft && editingItemId == None
    {
      if !Truthy(editingItemId) || draft.text == "" {
        return None;
      }
      patch := Some(ItemsPatch(ReviseItem(ItemsOf(data), editingItemId.value, draft)));
      editingItemId := None;
      draft := BlankDraft;
    }

    /** `handleDeleteItem`: sends the list without that id; deleting the item being edited also resets the form. */
    method HandleDeleteItem(data: NodeData, id: string) returns (patch: NodeData)
      modifies this
      ensures patch == ItemsPatch(RemoveItem(ItemsOf(data), id))
      ensures old(editingItemId) == Some(id) ==> draft == BlankDraft && editingItemId == None
      ensures old(editingItemId) != Some(id) ==> draft == old(draft) && editingItemId == old(editingItemId)
    {
      patch := ItemsPatch(RemoveItem(ItemsOf(data), id));
      if editingItemId == Some(id) {
        editingItemId := None;
        draft := BlankDraft;
      }
    }

    /** `handleEditItem`: the form takes the item's fields, a missing priority as medium. */
    method HandleEditItem(item: ChecklistItem)
      modifies this
      ensures editingItemId == Some(item.id)
      ensures draft == Draft(item.text, item.isChecked, StrOr(item.priority, "medium"))
    {
      editingItemId := Some(item.id);
      draft := Draft(item.text, item.isChecked, StrOr(item.priority, "medium"));
    }

    method HandleCancelEdit()
      modifies this
      ensures draft == BlankDraft && editingItemId == None
    {
      editingItemId := None;
      draft := BlankDraft;
    }

    /** `handleToggleItem`: sends the list with that item's tick flipped; the form is untouched. */
    method HandleToggleItem(data: NodeData, id: string) returns (patch: NodeData)
      ensures patch == ItemsPatch(FlipItem(ItemsOf(data), id))
    {
      patch := ItemsPatch(FlipItem(ItemsOf(data), id));
    }

    /**
     * `handleMoveItem` for an id that is present: nothing is sent at the edge;
     * otherwise the list with the item moved one place is sent.
     */
    method HandleMoveItem(data: NodeData, id: string, up: bool) returns (patch: Option<NodeData>)
      requires PositionOf(ItemsOf(data), id) >= 0
      ensures AtEdge(ItemsOf(data), id, up) ==> patch == None
      ensures !AtEdge(ItemsOf(data), id, up) ==> patch == Some(ItemsPatch(MovedItems(ItemsOf(data), id, up)))
    {
      var items := ItemsOf(data);
      var i := PositionOf(items, id);
      if (up && i == 0) || (!up && i == |items| - 1) {
        return None;
      }
      var moved := SpliceMove(items, i, if up then i - 1 else i + 1);
      patch := Some(ItemsPatch(moved));
    }
  }
}
