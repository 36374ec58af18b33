/**
 * The resource panel of a resource node: a form that adds and edits
 * resources (with a tag list of its own), and buttons that delete them.
 * Every change to the node is sent as an `updateNodeData` patch.
 */
module ResourceSettings {

  import opened Opt
  import opened Types
  import opened Seqs

  /** The resource list a node shows; a missing list reads as empty. */
  function ResourcesOf(data: NodeData): (r: seq<Resource>)
    ensures data.resources.Some? ==> r == data.resources.value
    ensures data.resources.None? ==> r == []
  {
    data.resources.GetOr([])
  }

  /** The patch that replaces the node's whole resource list. */
  function ResourcesPatch(resources: seq<Resource>): (p: NodeData)
    ensures p.resources == Some(resources)
    ensures p.(resources := None) == EmptyData
  {
    EmptyData.(resources := Some(resources))
  }
  /** A node updated with the list patch shows exactly that resource list, whatever its data was. */
  lemma ResourcesPatchReadsBack(data: NodeData, xs: seq<Resource>)
    ensures ResourcesOf(MergeData(data, ResourcesPatch(xs))) == xs
    ensures MergeData(data, ResourcesPatch(xs)).(resources := data.resources) == data
  {
    var d := MergeData(data, ResourcesPatch(xs));
    assert d.extra == data.extra;
  }


  /** The add/edit form's fields; `kind` is the resource type, `rating` 1 to 5. */
  datatype ResourceDraft = ResourceDraft(title: string, url: string, kind: string, rating: int, description: string, tags: seq<string>)

  /** The form after a reset: a website rated 5, everything else empty. */
  const BlankResource := ResourceDraft("", "", "website", 5, "", [])

  /** The resource the form describes. */
  function FromDraft(id: string, d: ResourceDraft): (x: Resource)
    ensures x.id == id && x.title == d.title && x.url == d.url && x.kind == d.kind
    ensures x.rating == Some(d.rating) && x.tags == Some(d.tags) && x.description == Some(d.description)
  {
    Resource(id, d.title, d.url, d.kind, Some(d.rating), Some(d.tags), Some(d.description))
  }

  /** `handleAddResource`'s list: the form's resource appended last. */
  function AppendResource(resources: seq<Resource>, freshId: string, d: ResourceDraft): (r: seq<Resource>)
    ensures |r| == |resources| + 1 && r[..|resources|] == resources && r[|resources|] == FromDraft(freshId, d)
  {
    resources + [FromDraft(freshId, d)]
  }

  /** `handleUpdateResource`'s list: the resources with that id take every form field and keep their id. */
  function ReviseResource(resources: seq<Resource>, id: string, d: ResourceDraft): (r: seq<Resource>)
    ensures |r| == |resources|
    ensures forall i :: 0 <= i < |resources| && resources[i].id != id ==> r[i] == resources[i]
    ensures forall i :: 0 <= i < |resources| && resources[i].id == id ==> r[i] == FromDraft(id, d)
  {
    MapWhere(resources, (x: Resource) => x.id == id, (x: Resource) => FromDraft(x.id, d))
  }

  /** `handleDeleteResource`'s list: every resource with that id is gone, every other stays. */
  function RemoveResource(resources: seq<Resource>, id: string): (r: seq<Resource>)
    ensures forall x :: x in r <==> x in resources && x.id != id
  {
    FilterExactly(resources, (x: Resource) => x.id != id);
    Filter(resources, (x: Resource) => x.id != id)
  }
  /**
   * Removing distributes over concatenation and keeps a single resource exactly when
   * its id differs, so the survivors keep their order and their repetitions.
   */
  lemma RemoveResourceAppend(a: seq<Resource>, b: seq<Resource>, id: string)
    ensures RemoveResource(a + b, id) == RemoveResource(a, id) + RemoveResource(b, id)
    ensures forall x :: RemoveResource([x], id) == if x.id != id then [x] else []
  {
    FilterAppend(a, b, (x: Resource) => x.id != id);
  }


  /** `handleEditResource`'s form: the resource's fields, a missing or zero rating as 5, missing text and tags as empty. */
  function EditDraft(x: Resource): (d: ResourceDraft)
    ensures d.title == x.title && d.url == x.url && d.kind == x.kind
    ensures d.rating == (if x.rating.Some? && x.rating.value != 0 then x.rating.value else 5)
    ensures d.description == (if x.description.Some? then x.description.value else "")
    ensures d.tags == (if x.tags.Some? then x.tags.value else [])
  {
    ResourceDraft(x.title, x.url, x.kind, IntOr(x.rating, 5), StrOr(x.description, ""), x.tags.GetOr([]))
  }

  /**
   * Saving a form and opening the saved resource again gives the same form back,
   * unless the rating was 0, which `rating || 5` reads as 5.
   */
  lemma DraftThenEdit(id: string, d: ResourceDraft)
    ensures d.rating != 0 ==> EditDraft(FromDraft(id, d)) == d
    ensures d.rating == 0 ==> EditDraft(FromDraft(id, d)) == d.(rating := 5)
  {
  }


  /**
   * Opening a fully written resource in the form and saving it unchanged
   * gives back the same list, provided no other resource shares its id.
   */
  lemma EditThenUpdateKeepsResource(resources: seq<Resource>, i: nat)
    requires i < |resources|
    requires forall j :: 0 <= j < |resources| && j != i ==> resources[j].id != resources[i].id
    requires resources[i].rating.Some? && resources[i].rating.value != 0
    requires resources[i].description.Some? && resources[i].tags.Some?
    ensures ReviseResource(resources, resources[i].id, EditDraft(resources[i])) == resources
  {
    var r := ReviseResource(resources, resources[i].id, EditDraft(resources[i]));
    assert forall j :: 0 <= j < |resources| ==> r[j] == resources[j];
  }

  // ---- the tag editor ----

  /** The characters `String.prototype.trim` removes: white space and line terminators. */
  predicate IsSpace(c: char) {
    c in {'\t', '\n', '\U{000B}', '\U{000C}', '\r', ' ', '\U{00A0}', '\U{1680}',
          '\U{2000}', '\U{2001}', '\U{2002}', '\U{2003}', '\U{2004}', '\U{2005}', '\U{2006}',
          '\U{2007}', '\U{2008}', '\U{2009}', '\U{200A}', '\U{2028}', '\U{2029}', '\U{202F}',
          '\U{205F}', '\U{3000}', '\U{FEFF}'}
  }

  /** The text without its leading white space. */
  function TrimStart(s: string): (r: string)
    ensures |r| <= |s| && r == s[|s| - |r|..]
    ensures forall i :: 0 <= i < |s| - |r| ==> IsSpace(s[i])
    ensures r != [] ==> !IsSpace(r[0])
  {
    if s != [] && IsSpace(s[0]) then TrimStart(s[1..]) else s
  }

  /** The text without its trailing white space. */
  function TrimEnd(s: string): (r: string)
    ensures |r| <= |s| && r == s[..|r|]
    ensures forall i :: |r| <= i < |s| ==> IsSpace(s[i])
    ensures r != [] ==> !IsSpace(r[|r| - 1])
  {
    if s != [] && IsSpace(s[|s| - 1]) then TrimEnd(s[..|s| - 1]) else s
  }

  /** `trim()`: the text without white space at either end. */
  function Trim(s: string): (r: string)
    ensures r != [] ==> !IsSpace(r[0]) && !IsSpace(r[|r| - 1])
    ensures |r| <= |s|
    ensures exists a, b :: TrimmedAt(s, a, b) && r == s[a..b]
  {
    TrimSlice(s);
    TrimEnd(TrimStart(s))
  }

  /** `s[a..b]` is `s` with only white space cut from its two ends. */
  ghost predicate TrimmedAt(s: string, a: int, b: int) {
    && 0 <= a <= b <= |s|
    && (forall k :: 0 <= k < a ==> IsSpace(s[k]))
    && (forall k :: b <= k < |s| ==> IsSpace(s[k]))
  }

  lemma TrimSlice(s: string)
    ensures exists a, b :: TrimmedAt(s, a, b) && TrimEnd(TrimStart(s)) == s[a..b]
  {
    var t := TrimStart(s);
    var a := |s| - |t|;
    var r := TrimEnd(t);
    var b := a + |r|;
    assert r == t[..|r|];
    assert t == s[a..];
    assert r == s[a..b];
    assert forall k :: b <= k < |s| ==> s[k] == t[k - a];
    assert TrimmedAt(s, a, b);
  }

  /** Trimming again changes nothing. */
  lemma TrimIdempotent(s: string)
    ensures Trim(Trim(s)) == Trim(s)
  {
    var t := Trim(s);
    if t != [] {
      assert TrimStart(t) == t;
      assert TrimEnd(t) == t;
    }
  }

  /** No tag occurs twice. */
  predicate DistinctTags(tags: seq<string>) {
    forall i, j :: 0 <= i < j < |tags| ==> tags[i] != tags[j]
  }

  /** `handleAddTag`'s list: the trimmed tag appended, unless it is empty or already listed. */
  function WithTag(tags: seq<string>, raw: string): (r: seq<string>)
    ensures Trim(raw) == "" || Trim(raw) in tags ==> r == tags
    ensures Trim(raw) != "" && Trim(raw) !in tags ==> r == tags + [Trim(raw)]
    ensures DistinctTags(tags) ==> DistinctTags(r)
  {
    var t := Trim(raw);
    if t == "" || t in tags then tags else tags + [t]
  }

  /** `handleRemoveTag`'s list: every copy of the tag is gone and the rest keep their order. */
  function WithoutTag(tags: seq<string>, tag: string): (r: seq<string>)
    ensures forall t :: t in r <==> t in tags && t != tag
    ensures DistinctTags(tags) ==> DistinctTags(r)
  {
    FilterExactly(tags, (t: string) => t != tag);
    WithoutKeepsDistinct(tags, tag);
    Filter(tags, (t: string) => t != tag)
  }
  /**
   * Removing a tag distributes over concatenation and keeps a single tag exactly when
   * it differs, so the remaining tags keep their order.
   */
  lemma WithoutTagAppend(a: seq<string>, b: seq<string>, tag: string)
    ensures WithoutTag(a + b, tag) == WithoutTag(a, tag) + WithoutTag(b, tag)
    ensures forall t :: WithoutTag([t], tag) == if t != tag then [t] else []
  {
    FilterAppend(a, b, (t: string) => t != tag);
  }


  lemma {:induction false} WithoutKeepsDistinct(tags: seq<string>, tag: string)
    ensures DistinctTags(tags) ==> DistinctTags(Filter(tags, (t: string) => t != tag))
  {
    if tags != [] && DistinctTags(tags) {
      var keep := (t: string) => t != tag;
      assert tags == [tags[0]] + tags[1..];
      FilterAppend([tags[0]], tags[1..], keep);
      WithoutKeepsDistinct(tags[1..], tag);
      assert DistinctTags(tags[1..]);
      assert tags[0] !in tags[1..];
    }
  }

  /** Adding a tag and removing it again restores a list that did not hold it. */
  lemma AddThenRemoveTag(tags: seq<string>, raw: string)
    requires Trim(raw) !in tags
    ensures WithoutTag(WithTag(tags, raw), Trim(raw)) == tags
  {
    var t := Trim(raw);
    var keep := (x: string) => x != t;
    if t != "" {
      FilterAppend(tags, [t], keep);
    }
    FilterAll(tags, keep);
  }

  /** `getResourceTypeLabel`: the display name of a resource type; unknown types read as Other. */
  function TypeLabel(kind: string): (name: string)
    ensures name in {"PDF Document", "Video", "Website", "Other"}
    ensures name == "Other" <==> kind !in {"pdf", "video", "website"}
  {
    match kind
    case "pdf" => "PDF Document"
    case "video" => "Video"
    case "website" => "Website"
    case _ => "Other"
  }

  /** The panel's state: the draft, the tag being typed, and the id of the resource being edited. */
  class ResourceForm {
    var draft: ResourceDraft
    var newTag: string
    var editingResourceId: Option<string>

    constructor ()
      ensures draft == BlankResource && newTag == "" && editingResourceId == None
    {
      draft := BlankResource;
      newTag := "";
      editingResourceId := None;
    }

    /** `handleAddResource`: needs a title and a URL; sends the appended list and resets the form. */
    method HandleAddResource(data: NodeData, freshId: string) returns (patch: Option<NodeData>)
      modifies this
      ensures old(draft.title) == "" || old(draft.url) == "" ==> patch == None && draft == old(draft)
      ensures old(draft.title) != "" && old(draft.url) != "" ==>
        patch == Some(ResourcesPatch(AppendResource(ResourcesOf(data), freshId, old(draft)))) && draft == BlankResource
      ensures newTag == old(newTag) && editingResourceId == old(editingResourceId)
    {
      if draft.title == "" || draft.url == "" {
        return None;
      }
      patch := Some(ResourcesPatch(AppendResource(ResourcesOf(data), freshId, draft)));
      draft := BlankResource;
    }

    /** `handleUpdateResource`: needs a resource being edited, a title and a URL; sends the revised list and closes the edit. */
    method HandleUpdateResource(data: NodeData) returns (patch: Option<NodeData>)
      modifies this
      ensures !Truthy(old(editingResourceId)) || old(draft.title) == "" || old(draft.url) == "" ==>
        patch == None && draft == old(draft) && editingResourceId == old(editingResourceId)
      ensures Truthy(old(editingResourceId)) && old(draft.title) != "" && old(draft.url) != "" ==>
        && patch == Some(ResourcesPatch(ReviseResource(ResourcesOf(data), old(editingResourceId).value, old(draft))))
        && draft == BlankResource && editingResourceId == None
      ensures newTag == old(newTag)
    {
      if !Truthy(editingResourceId) || draft.title == "" || draft.url == "" {
        return None;
      }
      patch := Some(ResourcesPatch(ReviseResource(ResourcesOf(data), editingResourceId.value, draft)));
      editingResourceId := None;
      draft := BlankResource;
    }

    /** `handleDeleteResource`: sends the list without that id; deleting the resource being edited also resets the form. */
    method HandleDeleteResource(data: NodeData, id: string) returns (patch: NodeData)
      modifies this
      ensures patch == ResourcesPatch(RemoveResource(ResourcesOf(data), id))
      ensures old(editingResourceId) == Some(id) ==> draft == BlankResource && editingResourceId == None
      ensures old(editingResourceId) != Some(id) ==> draft == old(draft) && editingResourceId == old(editingResourceId)
      ensures newTag == old(newTag)
    {
      patch := ResourcesPatch(RemoveResource(ResourcesOf(data), id));
      if editingResourceId == Some(id) {
        editingResourceId := None;
        draft := BlankResource;
      }
    }

    method HandleEditResource(x: Resource)
      modifies this
      ensures editingResourceId == Some(x.id) && draft == EditDraft(x) && newTag == old(newTag)
    {
      editingResourceId := Some(x.id);
      draft := EditDraft(x);
    }

    method HandleCancelEdit()
      modifies this
      ensures draft == BlankResource && editingResourceId == None && newTag == old(newTag)
    {
      editingResourceId := None;
      draft := BlankResource;
    }

    /** `handleAddTag`: a new, non-empty trimmed tag joins the draft's list and the tag field clears; otherwise nothing changes. */
    method HandleAddTag()
      modifies this
      ensures draft == old(draft).(tags := WithTag(old(draft.tags), old(newTag)))
      ensures newTag == (if draft.tags == old(draft.tags) then old(newTag) else "")
      ensures editingResourceId == old(editingResourceId)
      ensures DistinctTags(old(draft.tags)) ==> DistinctTags(draft.tags)
    {
      var t := Trim(newTag);
      if t == "" || t in draft.tags {
        return;
      }
      draft := draft.(tags := draft.tags + [t]);
      newTag := "";
    }

    method HandleRemoveTag(tag: string)
      modifies this
      ensures draft == old(draft).(tags := WithoutTag(old(draft.tags), tag))
      ensures newTag == old(newTag) && editingResourceId == old(editingResourceId)
    {
      draft := draft.(tags := WithoutTag(draft.tags, tag));
    }
  }
}
