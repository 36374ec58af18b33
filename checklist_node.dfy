/** The checklist node on the canvas: its title, shown items, progress and tick boxes. */
module ChecklistNode {

  import opened Opt
  import opened Types
  import opened Seqs
  import ChecklistSettings

  /** The heading of the node: its label, or 'Checklist'. */
  function Title(data: NodeData): (t: string)
    ensures Truthy(data.caption) ==> t == data.caption.value
    ensures !Truthy(data.caption) ==> t == "Checklist"
  {
    StrOr(data.caption, "Checklist")
  }

  /** The two placeholder items shown for a node that has no item list. */
  const PlaceholderItems := [
    ChecklistItem("1", "Item 1", false, None),
    ChecklistItem("2", "Item 2", false, None)]

  /** The items the node shows: its own list, or the placeholders when it has none. */
  function ShownItems(data: NodeData): (r: seq<ChecklistItem>)
    ensures data.checklistItems.Some? ==> r == data.checklistItems.value
    ensures data.checklistItems.None? ==> r == PlaceholderItems
  {
    data.checklistItems.GetOr(PlaceholderItems)
  }

  /**
   * `toggleItem`: the patch flips the tick of the items with that id; a node
   * without a list is sent an empty list, never the placeholders.
   */
  function TogglePatch(data: NodeData, itemId: string): (p: NodeData)
    ensures data.checklistItems.None? ==> p == ChecklistSettings.ItemsPatch([])
    ensures data.checklistItems.Some? ==>
      p == ChecklistSettings.ItemsPatch(ChecklistSettings.FlipItem(data.checklistItems.value, itemId))
  {
    match data.checklistItems
    case Some(items) => ChecklistSettings.ItemsPatch(ChecklistSettings.FlipItem(items, itemId))
    case None => ChecklistSettings.ItemsPatch([])
  }

  /** Ticking from the node and ticking from the panel send the same patch whenever the node has a list. */
  lemma NodeAndPanelToggleAgree(data: NodeData, itemId: string)
    requires data.checklistItems.Some?
    ensures TogglePatch(data, itemId) == ChecklistSettings.ItemsPatch(ChecklistSettings.FlipItem(ChecklistSettings.ItemsOf(data), itemId))
  {
  }

  /** Whether an item is ticked. */
  predicate Ticked(it: ChecklistItem) {
    it.isChecked
  }

  /** The number of ticked items. */
  function TickedCount(items: seq<ChecklistItem>): (c: nat)
    ensures c <= |items|
  {
    |Filter(items, Ticked)|
  }

  /**
   * `Math.round(c / n * 100)` for c ticked of n items, computed exactly:
   * round half up of 100c/n is the floor of (200c + n) / 2n.
   */
  function RoundPercent(c: nat, n: nat): (p: nat)
    requires 0 < n && c <= n
    ensures p <= 100
  {
    DivBelow(200 * c + n, 2 * n, 101);
    (200 * c + n) / (2 * n)
  }

  /** `calculateProgress`: 0 for a missing or empty list, otherwise the rounded percentage of ticked items. */
  function Progress(data: NodeData): (p: nat)
    ensures data.checklistItems.None? || data.checklistItems == Some([]) ==> p == 0
    ensures p <= 100
  {
    match data.checklistItems
    case None => 0
    case Some(items) => if |items| == 0 then 0 else RoundPercent(TickedCount(items), |items|)
  }

  /** Every item ticked reads 100; no item ticked reads 0. */
  lemma ProgressExtremes(data: NodeData)
    requires data.checklistItems.Some? && |data.checklistItems.value| > 0
    ensures var items := data.checklistItems.value;
      (forall i :: 0 <= i < |items| ==> items[i].isChecked) ==> Progress(data) == 100
    ensures var items := data.checklistItems.value;
      (forall i :: 0 <= i < |items| ==> !items[i].isChecked) ==> Progress(data) == 0
  {
    var items := data.checklistItems.value;
    var n := |items|;
    FilterLength(items, Ticked);
    CountExtremes(items, Ticked);
    DivAtLeast(201 * n, 2 * n, 100);
    DivBelow(n, 2 * n, 1);
  }

  /** More ticked items never read as less progress. */
  lemma RoundPercentMonotone(c1: nat, c2: nat, n: nat)
    requires 0 < n && c1 <= c2 <= n
    ensures RoundPercent(c1, n) <= RoundPercent(c2, n)
  {
    DivMonotone(200 * c1 + n, 200 * c2 + n, 2 * n);
  }

  /**
   * With fewer than 200 items a reading of 100 means every item is ticked;
   * from 200 items on, rounding reads 100 with one item still open.
   */
  lemma FullReadingMeansAllTicked(c: nat, n: nat)
    requires 0 < n < 200 && c <= n
    ensures RoundPercent(c, n) == 100 <==> c == n
    ensures RoundPercent(199, 200) == 100
  {
    if c < n {
      DivBelow(200 * c + n, 2 * n, 100);
    } else {
      DivAtLeast(200 * c + n, 2 * n, 100);
    }
    DivAtLeast(200 * 199 + 200, 2 * 200, 100);
  }

  // ---- division facts ----

  lemma MulMonotone(b: nat, x: nat, y: nat)
    requires x <= y
    ensures b * x <= b * y
  {
  }

  lemma DivBounds(a: nat, b: nat)
    requires b > 0
    ensures b * (a / b) <= a < b * (a / b) + b
  {
  }

  lemma DivBelow(a: nat, b: nat, k: nat)
    requires b > 0 && a < b * k
    ensures a / b < k
  {
    DivBounds(a, b);
    if a / b >= k {
      MulMonotone(b, k, a / b);
    }
  }

  lemma DivAtLeast(a: nat, b: nat, k: nat)
    requires b > 0 && b * k <= a
    ensures k <= a / b
  {
    DivBounds(a, b);
    if a / b < k {
      MulMonotone(b, a / b + 1, k);
    }
  }

  lemma DivMonotone(a1: nat, a2: nat, b: nat)
    requires b > 0 && a1 <= a2
    ensures a1 / b <= a2 / b
  {
    DivBounds(a1, b);
    DivBounds(a2, b);
    if a1 / b > a2 / b {
      MulMonotone(b, a2 / b + 1, a1 / b);
    }
  }
}
