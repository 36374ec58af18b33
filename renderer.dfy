/** The read-only lookup the export page uses to fetch one document by name. */
module Renderer {

  import opened Opt
  import opened Types
  import opened Storage

  /**
   * `renderMindMap`: nothing when the key is missing or empty, when it does
   * not parse, or when the name has no entry; otherwise the stored entry.
   */
  function RenderMindMap(slot: StoreSlot, name: string): (r: Option<Doc>)
    ensures slot == Missing || slot == Unreadable ==> r == None
    ensures slot.Entries? ==> (r.Some? <==> name in slot.m)
    ensures r.Some? ==> r.value == slot.m[name]
  {
    match slot
    case Missing => None
    case Unreadable => None
    case Entries(m) => if name in m then Some(m[name]) else None
  }

  /** The export page sees exactly what the editor's load sees, for every store and name. */
  lemma RenderAgreesWithLoad(slot: StoreSlot, name: string)
    ensures RenderMindMap(slot, name) == LoadFrom(slot, name)
  {
  }

  /**
   * `renderMindMap` as written: it reads `mindmaps[name]` with the same
   * property lookup as the editor's load, so an inherited member passes its
   * truthiness guard too.
   */
  function RenderAsWritten(slot: StoreSlot, name: string): (r: Lookup)
    ensures slot.Entries? && name in slot.m ==> r == Entry(slot.m[name])
  {
    match slot
    case Missing => Undefined
    case Unreadable => Undefined
    case Entries(m) => PropertyLookup(m, name)
  }

  /**
   * The as-written render and load agree on a present store key, inherited
   * members included; on a missing key only the render returns nothing
   * (the load reads '{}' and still finds the inherited members).
   */
  lemma RenderAsWrittenAgreesWithLoad(slot: StoreSlot, name: string)
    ensures slot != Missing ==> RenderAsWritten(slot, name) == LoadAsWritten(slot, name)
    ensures slot == Missing ==> RenderAsWritten(slot, name) == Undefined
    ensures LoadAsWritten(Missing, name) == Inherited <==> name in InheritedMembers
  {
  }

  /**
   * On a browser with no store key, the export page and the editor disagree
   * about an inherited name: the render reports nothing, the load finds
   * `toString`. The corrected lookups agree everywhere (RenderAgreesWithLoad).
   */
  lemma RenderAndLoadDisagreeWithoutKey()
    ensures RenderAsWritten(Missing, "toString") == Undefined
    ensures LoadAsWritten(Missing, "toString") == Inherited
    ensures RenderMindMap(Missing, "toString") == LoadFrom(Missing, "toString")
  {
    assert "toString" in InheritedMembers;
  }
}
