/**
 * The persisted store of named mind maps: one storage key holding a JSON
 * object from document name to document. Every call re-reads the key, edits
 * the parsed object and writes it back; failures come back as false, null or
 * an empty list, never as an exception.
 */
module Storage {

  import opened Opt
  import opened Types

  /**
   * What the storage key holds: nothing (or an empty string), an object of
   * documents by name, or text that does not parse as such an object.
   */
  datatype StoreSlot = Missing | Entries(m: map<string, Doc>) | Unreadable

  /** The object a read starts from: a missing key reads as `{}`. */
  function Contents(slot: StoreSlot): map<string, Doc>
    requires slot != Unreadable
  {
    if slot.Entries? then slot.m else map[]
  }

  /**
   * `saveMindMap`: the document is stored under its name, replacing any entry
   * of that name, and true is returned; if the key does not parse or the
   * write fails (`writeOk` false), the store is unchanged and false is returned.
   */
  function SaveTo(slot: StoreSlot, d: Doc, writeOk: bool): (r: (StoreSlot, bool))
    ensures r.1 <==> slot != Unreadable && writeOk
    ensures !r.1 ==> r.0 == slot
    ensures r.1 ==> r.0 == Entries(Contents(slot)[d.name := d])
  {
    if slot == Unreadable || !writeOk then (slot, false)
    else (Entries(Contents(slot)[d.name := d]), true)
  }

  /** `loadMindMap`: the entry stored under the name, or nothing. */
  function LoadFrom(slot: StoreSlot, name: string): (r: Option<Doc>)
    ensures r.Some? <==> slot != Unreadable && name in Contents(slot)
    ensures r.Some? ==> r.value == Contents(slot)[name]
  {
    if slot != Unreadable && name in Contents(slot) then Some(Contents(slot)[name]) else None
  }

  /**
   * `deleteMindMap`: a stored name is removed and true returned; an absent
   * name, an unreadable key or a failed write returns false and changes nothing.
   */
  function DeleteFrom(slot: StoreSlot, name: string, writeOk: bool): (r: (StoreSlot, bool))
    ensures r.1 <==> slot != Unreadable && name in Contents(slot) && writeOk
    ensures !r.1 ==> r.0 == slot
    ensures r.1 ==> r.0 == Entries(Contents(slot) - {name})
  {
    if slot == Unreadable || name !in Contents(slot) || !writeOk then (slot, false)
    else (Entries(Contents(slot) - {name}), true)
  }

  /** `getAllMindMaps` as a set: the stored names, none when the key is missing or unreadable. */
  function Names(slot: StoreSlot): (r: set<string>)
    ensures forall n :: n in r <==> LoadFrom(slot, n).Some?
  {
    if slot == Unreadable then {} else Contents(slot).Keys
  }

  /** A save followed by a load of the same name returns the saved document. */
  lemma SaveThenLoad(slot: StoreSlot, d: Doc)
    requires slot != Unreadable
    ensures SaveTo(slot, d, true).1
    ensures LoadFrom(SaveTo(slot, d, true).0, d.name) == Some(d)
  {
  }

  /** A save changes no other entry, whether or not it succeeds. */
  lemma SaveKeepsOthers(slot: StoreSlot, d: Doc, writeOk: bool, other: string)
    requires other != d.name
    ensures LoadFrom(SaveTo(slot, d, writeOk).0, other) == LoadFrom(slot, other)
  {
  }

  /** After a successful save the name is listed, along with every name listed before. */
  lemma SaveListsName(slot: StoreSlot, d: Doc)
    requires slot != Unreadable
    ensures Names(SaveTo(slot, d, true).0) == Names(slot) + {d.name}
  {
  }

  /** Deleting twice: the second delete finds nothing, returns false and changes nothing. */
  lemma DeleteTwice(slot: StoreSlot, name: string, writeOk: bool)
    ensures var first := DeleteFrom(slot, name, writeOk);
      DeleteFrom(first.0, name, writeOk) == (first.0, false)
      && LoadFrom(first.0, name) == (if first.1 then None else LoadFrom(slot, name))
  {
  }

  /** A delete changes no other entry. */
  lemma DeleteKeepsOthers(slot: StoreSlot, name: string, writeOk: bool, other: string)
    requires other != name
    ensures LoadFrom(DeleteFrom(slot, name, writeOk).0, other) == LoadFrom(slot, other)
  {
  }

  /** Saving a new name and deleting it again leaves the same entries as before. */
  lemma SaveThenDelete(slot: StoreSlot, d: Doc)
    requires slot != Unreadable && d.name !in Contents(slot)
    ensures var saved := SaveTo(slot, d, true).0;
      var deleted := DeleteFrom(saved, d.name, true);
      deleted.1 && Contents(deleted.0) == Contents(slot)
  {
    var saved := SaveTo(slot, d, true).0;
    assert Contents(saved) - {d.name} == Contents(slot);
  }

  /**
   * Two documents A and B are saved into an empty store and A is deleted:
   * only B is listed, A no longer loads, B loads as saved.
   */
  lemma TwoDocumentsScenario(a: Doc, b: Doc)
    requires a.name == "A" && b.name == "B"
    ensures var s1 := SaveTo(Missing, a, true).0;
      var s2 := SaveTo(s1, b, true).0;
      var s3 := DeleteFrom(s2, "A", true);
      && s3.1
      && Names(s3.0) == {"B"}
      && LoadFrom(s3.0, "A") == None
      && LoadFrom(s3.0, "B") == Some(b)
  {
    var s1 := SaveTo(Missing, a, true).0;
    var s2 := SaveTo(s1, b, true).0;
    assert Contents(s2).Keys == {"A", "B"};
    assert (Contents(s2) - {"A"}).Keys == {"B"};
  }

  // ---- the lookup as written ----

  /**
   * The members every plain object inherits from `Object.prototype`. Reading
   * one of these names from the parsed store yields a function or the
   * prototype itself, both truthy.
   */
  const InheritedMembers: set<string> := {
    "constructor", "__proto__", "__defineGetter__", "__defineSetter__",
    "__lookupGetter__", "__lookupSetter__", "hasOwnProperty", "isPrototypeOf",
    "propertyIsEnumerable", "toLocaleString", "toString", "valueOf"}

  /** What `mindmaps[name]` reads: an own entry, an inherited member, or undefined. */
  datatype Lookup = Entry(doc: Doc) | Inherited | Undefined

  function PropertyLookup(m: map<string, Doc>, name: string): (r: Lookup)
    ensures r.Entry? <==> name in m
    ensures r == Inherited <==> name !in m && name in InheritedMembers
  {
    if name in m then Entry(m[name])
    else if name in InheritedMembers then Inherited
    else Undefined
  }

  /**
   * `loadMindMap` as written: `mindmaps[name] || null`. An inherited member
   * is truthy and is returned as if it were a stored document.
   */
  function LoadAsWritten(slot: StoreSlot, name: string): (r: Lookup)
    ensures slot != Unreadable && name in Contents(slot) ==> r == Entry(Contents(slot)[name])
    ensures r.Entry? ==> LoadFrom(slot, name) == Some(r.doc)
  {
    if slot == Unreadable then Undefined else PropertyLookup(Contents(slot), name)
  }

  /**
   * `deleteMindMap` as written: the truthiness guard also passes for an
   * inherited member; `delete` of a name with no own entry removes nothing,
   * yet true is returned.
   */
  function DeleteAsWritten(slot: StoreSlot, name: string, writeOk: bool): (r: (StoreSlot, bool))
    ensures !(slot != Unreadable && name in InheritedMembers) ==> r == DeleteFrom(slot, name, writeOk)
  {
    if slot == Unreadable || !writeOk then (slot, false)
    else match PropertyLookup(Contents(slot), name)
      case Entry(_) => (Entries(Contents(slot) - {name}), true)
      case Inherited => (Entries(Contents(slot)), true)
      case Undefined => (slot, false)
  }

  /**
   * `saveMindMap` as written: assigning to `mindmaps['__proto__']` replaces
   * the object's prototype instead of adding an entry, so nothing is
   * written under that name, yet true is returned.
   */
  function SaveAsWritten(slot: StoreSlot, d: Doc, writeOk: bool): (r: (StoreSlot, bool))
    ensures d.name != "__proto__" ==> r == SaveTo(slot, d, writeOk)
  {
    if slot == Unreadable || !writeOk then (slot, false)
    else if d.name == "__proto__" then (Entries(Contents(slot)), true)
    else (Entries(Contents(slot)[d.name := d]), true)
  }

  /**
   * On an empty store, the name 'toString' loads as something that is not a
   * stored document, and deleting it reports success twice in a row, while
   * the corrected operations report it absent.
   */
  lemma InheritedNameIsFound()
    ensures LoadAsWritten(Missing, "toString") == Inherited
    ensures var first := DeleteAsWritten(Missing, "toString", true);
      first.1 && DeleteAsWritten(first.0, "toString", true).1
    ensures LoadFrom(Missing, "toString") == None
    ensures !DeleteFrom(Missing, "toString", true).1
  {
  }

  /**
   * A document named '__proto__' is reported saved but does not load back:
   * the save-then-load round trip fails for that name, and holds for the
   * corrected save.
   */
  lemma ProtoNameIsNotSaved(d: Doc)
    requires d.name == "__proto__"
    ensures var saved := SaveAsWritten(Missing, d, true);
      saved.1 && LoadAsWritten(saved.0, d.name) == Inherited
    ensures LoadFrom(SaveTo(Missing, d, true).0, d.name) == Some(d)
  {
  }

  /** The storage key, read and written through the four operations. */
  class LocalStore {
    var slot: StoreSlot

    constructor (slot: StoreSlot)
      ensures this.slot == slot
    {
      this.slot := slot;
    }

    method SaveMindMap(d: Doc, writeOk: bool) returns (ok: bool)
      modifies this
      ensures (slot, ok) == SaveTo(old(slot), d, writeOk)
    {
      var r := SaveTo(slot, d, writeOk);
      slot, ok := r.0, r.1;
    }

    method LoadMindMap(name: string) returns (d: Option<Doc>)
      ensures d == LoadFrom(slot, name)
    {
      d := LoadFrom(slot, name);
    }

    method DeleteMindMap(name: string, writeOk: bool) returns (ok: bool)
      modifies this
      ensures (slot, ok) == DeleteFrom(old(slot), name, writeOk)
    {
      var r := DeleteFrom(slot, name, writeOk);
      slot, ok := r.0, r.1;
    }

    /** `getAllMindMaps`: every stored name exactly once (in no particular order). */
    method GetAllMindMaps() returns (names: seq<string>)
      ensures forall x :: x in names <==> x in Names(slot)
      ensures forall i, j :: 0 <= i < j < |names| ==> names[i] != names[j]
      ensures slot == Missing || slot == Unreadable ==> names == []
    {
      names := [];
      if slot == Unreadable {
        return;
      }
      var remaining := Contents(slot).Keys;
      while remaining != {}
        invariant remaining <= Names(slot)
        invariant forall x :: x in names <==> x in Names(slot) && x !in remaining
        invariant forall i, j :: 0 <= i < j < |names| ==> names[i] != names[j]
        invariant slot == Missing ==> names == []
        decreases |remaining|
      {
        var k :| k in remaining;
        names := names + [k];
        remaining := remaining - {k};
      }
    }
  }
}
