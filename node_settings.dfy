/**
 * The general settings sheet of a node: content (title, description, links)
 * and the legend marker. Every change is sent as an `updateNodeData` patch.
 */
module NodeSettings {

  import opened Opt
  import opened Types
  import opened Seqs

  /** The node's content record; a missing one reads as empty. */
  function ContentOf(data: NodeData): (c: NodeContent)
    ensures data.content.Some? ==> c == data.content.value
    ensures data.content.None? ==> c.title.None? && c.description.None? && c.links.None?
  {
    data.content.GetOr(EmptyContent)
  }

  /** The node's links; missing ones read as none. */
  function LinksOf(data: NodeData): (r: seq<Link>)
    ensures data.content.Some? && data.content.value.links.Some? ==> r == data.content.value.links.value
    ensures data.content.None? || data.content.value.links.None? ==> r == []
  {
    ContentOf(data).links.GetOr([])
  }

  /**
   * `handleContentChange`: the patch carries the whole content record, the
   * node's own content overridden by the changed keys.
   */
  function ContentPatch(data: NodeData, change: NodeContent): (p: NodeData)
    ensures p.(content := None) == EmptyData
    ensures p.content == Some(MergeContent(ContentOf(data), change))
  {
    EmptyData.(content := Some(MergeContent(ContentOf(data), change)))
  }

  /**
   * Once applied, a content change sets the keys it names and keeps the
   * content keys it does not name, and every other key of the node's data.
   */
  lemma ContentChangeKeepsOtherKeys(data: NodeData, change: NodeContent)
    ensures var after := MergeData(data, ContentPatch(data, change));
      var c := after.content.value;
      && after.(content := data.content) == data
      && (change.title.Some? ==> c.title == change.title)
      && (change.title.None? ==> c.title == ContentOf(data).title)
      && (change.description.None? ==> c.description == ContentOf(data).description)
      && (change.links.None? ==> c.links == ContentOf(data).links)
  {
    var after := MergeData(data, ContentPatch(data, change));
    assert after.extra == data.extra;
  }

  /** The legend colour the node already has, or black. */
  function LegendColor(data: NodeData): (c: string)
    ensures c != ""
    ensures data.legend.Some? && data.legend.value.color != "" ==> c == data.legend.value.color
    ensures data.legend.None? || data.legend.value.color == "" ==> c == "#000000"
  {
    if data.legend.Some? && data.legend.value.color != "" then data.legend.value.color else "#000000"
  }

  /** `handleLegendChange`: the legend is shown at the chosen position and keeps its colour. */
  function LegendPatch(data: NodeData, position: string): (p: NodeData)
    ensures p == EmptyData.(legend := Some(Legend(true, position, LegendColor(data))))
    ensures data.legend.Some? && data.legend.value.color != "" ==> p.legend.value.color == data.legend.value.color
  {
    EmptyData.(legend := Some(Legend(true, position, LegendColor(data))))
  }

  /** `removeLegend`: the legend is hidden but keeps its position (or right-top) and colour. */
  function RemoveLegendPatch(data: NodeData): (p: NodeData)
    ensures p.(legend := None) == EmptyData && p.legend.Some? && !p.legend.value.enabled
    ensures p.legend.value.color == LegendColor(data)
    ensures p.legend.value.position ==
      (if data.legend.Some? && data.legend.value.position != "" then data.legend.value.position else "right-top")
  {
    var position := if data.legend.Some? && data.legend.value.position != "" then data.legend.value.position else "right-top";
    EmptyData.(legend := Some(Legend(false, position, LegendColor(data))))
  }

  /** `handleLegendColorChange`: only a node that already has a legend gets the new colour. */
  function LegendColorPatch(data: NodeData, color: string): (p: Option<NodeData>)
    ensures data.legend.None? ==> p == None
    ensures data.legend.Some? ==> p == Some(EmptyData.(legend := Some(data.legend.value.(color := color))))
  {
    if data.legend.Some? then Some(EmptyData.(legend := Some(data.legend.value.(color := color)))) else None
  }

  /** Hiding the legend and showing it again at a position brings it back in its old colour. */
  lemma LegendColorSurvivesHide(data: NodeData, position: string)
    ensures var hidden := MergeData(data, RemoveLegendPatch(data));
      LegendPatch(hidden, position).legend == Some(Legend(true, position, LegendColor(data)))
  {
  }

  /** `removeLink`'s content change: exactly the link at that index is gone, the rest keep their order. */
  function WithoutLinkChange(data: NodeData, index: int): (c: NodeContent)
    ensures c.title.None? && c.description.None?
    ensures 0 <= index < |LinksOf(data)| ==> c.links == Some(LinksOf(data)[..index] + LinksOf(data)[index + 1..])
    ensures !(0 <= index < |LinksOf(data)|) ==> c.links == Some(LinksOf(data))
  {
    WithoutIndexSlices(LinksOf(data), index);
    NodeContent(None, None, Some(WithoutIndex(LinksOf(data), index)))
  }

  /** `addLink`'s content change: the form's link appended last. */
  function WithLinkChange(data: NodeData, link: Link): (c: NodeContent)
    ensures c == NodeContent(None, None, Some(LinksOf(data) + [link]))
  {
    NodeContent(None, None, Some(LinksOf(data) + [link]))
  }

  /** Adding a link and then removing the last link restores the node's links. */
  lemma AddThenRemoveLink(data: NodeData, link: Link)
    ensures var added := MergeData(data, ContentPatch(data, WithLinkChange(data, link)));
      WithoutLinkChange(added, |LinksOf(data)|).links == Some(LinksOf(data))
  {
    var added := MergeData(data, ContentPatch(data, WithLinkChange(data, link)));
    assert LinksOf(added) == LinksOf(data) + [link];
    assert (LinksOf(data) + [link])[..|LinksOf(data)|] == LinksOf(data);
    assert (LinksOf(data) + [link])[|LinksOf(data)| + 1..] == [];
    var n := |LinksOf(data)|;
    assert 0 <= n < |LinksOf(added)|;
    assert WithoutLinkChange(added, n).links == Some(LinksOf(added)[..n] + LinksOf(added)[n + 1..]);
    assert LinksOf(added)[..n] + LinksOf(added)[n + 1..] == LinksOf(data);
  }

  /** The sheet's new-link form. */
  class LinkForm {
    var url: string
    var caption: string

    constructor ()
      ensures url == "" && caption == ""
    {
      url := "";
      caption := "";
    }

    /** `addLink`: needs both a URL and a label; sends the appended list and clears the form. */
    method AddLink(data: NodeData) returns (patch: Option<NodeData>)
      modifies this
      ensures old(url) == "" || old(caption) == "" ==> patch == None && url == old(url) && caption == old(caption)
      ensures old(url) != "" && old(caption) != "" ==>
        patch == Some(ContentPatch(data, WithLinkChange(data, Link(old(url), old(caption))))) && url == "" && caption == ""
    {
      if url == "" || caption == "" {
        return None;
      }
      patch := Some(ContentPatch(data, WithLinkChange(data, Link(url, caption))));
      url, caption := "", "";
    }
  }
}
