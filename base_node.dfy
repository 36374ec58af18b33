/**
 * The generic node on the canvas: how its data is drawn (font size, style,
 * content marker, checkbox), the in-place label editor, the checkbox, and
 * the context menu that routes to the node handlers.
 */
module BaseNode {

  import opened Opt
  import opened Types
  import NodeHandlers
  import NodeManager
  import NodeSettings

  /** `getFontSize`: pixel size of each size name; unknown or missing names draw at 12. */
  function FontSize(size: Option<string>): (px: int)
    ensures px in {12, 14, 16, 20, 24}
    ensures px == 14 <==> size == Some("s")
    ensures px == 16 <==> size == Some("m")
    ensures px == 20 <==> size == Some("l")
    ensures px == 24 <==> size == Some("xl")
  {
    match size
    case Some("xs") => 12
    case Some("s") => 14
    case Some("m") => 16
    case Some("l") => 20
    case Some("xl") => 24
    case _ => 12
  }

  /** The style every node type without a style of its own gets. */
  const PlainStyle := "bg-white border border-gray-200"

  /** `getNodeStyle`: title, topic, subtopic and section each have their own style; all other types share one. */
  function NodeStyle(nodeType: Option<string>): (style: string)
    ensures style == PlainStyle <==> nodeType !in {Some("title"), Some("topic"), Some("subtopic"), Some("section")}
  {
    match nodeType
    case Some("title") => "bg-[#E5DEFF] rounded-lg shadow-md"
    case Some("topic") => "bg-[#FEF7CD] border border-black/20 rounded"
    case Some("subtopic") => "bg-[#FDE1D3] border-2 border-black/20 rounded-lg"
    case Some("section") => "bg-transparent border-2 border-dashed border-black/40 rounded-lg"
    case _ => PlainStyle
  }

  /** The four styled types are told apart by their style. */
  lemma StyledTypesDiffer(a: string, b: string)
    requires a in {"title", "topic", "subtopic", "section"} && b in {"title", "topic", "subtopic", "section"}
    requires a != b
    ensures NodeStyle(Some(a)) != NodeStyle(Some(b))
  {
  }

  /** `hasContent`: the node has a non-empty content title or description, or at least one link. */
  predicate HasContent(data: NodeData): (h: bool)
    ensures h ==> data.content.Some?
    ensures data.content.Some? && data.content.value.links.Some? && |data.content.value.links.value| > 0 ==> h
    ensures data.content.None? || data.content.value == EmptyContent ==> !h
    ensures h <==> data.content.Some? &&
                   (|| Truthy(data.content.value.title)
                    || Truthy(data.content.value.description)
                    || (data.content.value.links.Some? && |data.content.value.links.value| > 0))
  {
    && data.content.Some?
    && (|| Truthy(data.content.value.title)
        || Truthy(data.content.value.description)
        || (data.content.value.links.Some? && |data.content.value.links.value| > 0))
  }

  /** `showCheckbox`: the checkbox is on and the node is neither a title nor a section. */
  function ShowCheckbox(data: NodeData): (show: bool)
    ensures show <==> data.hasCheckbox == Some(true) && data.nodeType != Some("title") && data.nodeType != Some("section")
  {
    BoolOr(data.hasCheckbox, false) && data.nodeType != Some("title") && data.nodeType != Some("section")
  }

  /** A node `addNode` creates without a `hasCheckbox` override never shows a checkbox, whatever its type. */
  lemma NewNodeHasNoCheckbox(nodeType: string, overrides: NodeData, clock: NodeManager.Clock)
    requires overrides.hasCheckbox.None?
    ensures !ShowCheckbox(NodeManager.NewNodeData(nodeType, overrides, clock))
  {
  }

  /** After the link form adds a link, the node shows the content marker. */
  lemma AddedLinkShowsContent(data: NodeData, link: Link)
    ensures HasContent(MergeData(data, NodeSettings.ContentPatch(data, NodeSettings.WithLinkChange(data, link))))
  {
    var after := MergeData(data, NodeSettings.ContentPatch(data, NodeSettings.WithLinkChange(data, link)));
    assert after.content.value.links == Some(NodeSettings.LinksOf(data) + [link]);
  }

  /** The context menu entries. */
  datatype MenuItem = CopyItem | PasteItem | DuplicateItem | DeleteItem

  /**
   * Each menu entry runs the node handler of the same name on this node,
   * just as the keyboard shortcut does on the selected node.
   */
  function MenuAction(item: MenuItem, id: string): (action: NodeHandlers.KeyAction)
    ensures action != NodeHandlers.NoAction && action != NodeHandlers.PasteAsNew && action.id == id
    ensures item == PasteItem ==> action == NodeHandlers.PasteIntoSelected(id)
  {
    match item
    case CopyItem => NodeHandlers.CopySelected(id)
    case PasteItem => NodeHandlers.PasteIntoSelected(id)
    case DuplicateItem => NodeHandlers.DuplicateSelected(id)
    case DeleteItem => NodeHandlers.DeleteSelected(id)
  }

  /** The menu and the keyboard agree: on the selected node, ctrl+c/v/d and Delete run the menu's action. */
  lemma MenuMatchesShortcuts(id: string)
    ensures NodeHandlers.KeyDispatch(NodeHandlers.Elsewhere, true, "c", Some(id)).action == MenuAction(CopyItem, id)
    ensures NodeHandlers.KeyDispatch(NodeHandlers.Elsewhere, true, "v", Some(id)).action == MenuAction(PasteItem, id)
    ensures NodeHandlers.KeyDispatch(NodeHandlers.Elsewhere, true, "d", Some(id)).action == MenuAction(DuplicateItem, id)
    ensures NodeHandlers.KeyDispatch(NodeHandlers.Elsewhere, false, "Delete", Some(id)).action == MenuAction(DeleteItem, id)
  {
  }

  /**
   * The node's own view state: whether the label is being edited, the label
   * text being typed (missing once a sync brings data without a label), and
   * the checkbox.
   */
  class NodeView {
    var isEditing: bool
    var caption: Option<string>
    var isChecked: bool

    constructor (data: NodeData)
      ensures !isEditing
      ensures caption == Some(StrOr(data.caption, ""))
      ensures isChecked == BoolOr(data.isChecked, false)
    {
      isEditing := false;
      caption := Some(StrOr(data.caption, ""));
      isChecked := BoolOr(data.isChecked, false);
    }

    /** New data from the canvas replaces the label text and the checkbox; editing continues. */
    method Sync(data: NodeData)
      modifies this
      ensures caption == data.caption && isChecked == BoolOr(data.isChecked, false)
      ensures isEditing == old(isEditing)
    {
      caption := data.caption;
      isChecked := BoolOr(data.isChecked, false);
    }

    method HandleDoubleClick()
      modifies this
      ensures isEditing && caption == old(caption) && isChecked == old(isChecked)
    {
      isEditing := true;
    }

    /** Typing in the label editor. */
    method HandleLabelChange(text: string)
      modifies this
      ensures caption == Some(text) && isEditing == old(isEditing) && isChecked == old(isChecked)
    {
      caption := Some(text);
    }

    /** `handleBlur`: editing ends and the label is sent. */
    method HandleBlur() returns (patch: NodeData)
      modifies this
      ensures !isEditing && caption == old(caption) && isChecked == old(isChecked)
      ensures patch == EmptyData.(caption := caption)
    {
      isEditing := false;
      patch := EmptyData.(caption := caption);
    }

    /** `handleKeyDown`: Enter without shift commits like a blur; any other key, shift+Enter included, does nothing. */
    method HandleKeyDown(key: string, shift: bool) returns (preventDefault: bool, patch: Option<NodeData>)
      modifies this
      ensures preventDefault <==> key == "Enter" && !shift
      ensures preventDefault ==> !isEditing && patch == Some(EmptyData.(caption := caption))
      ensures !preventDefault ==> isEditing == old(isEditing) && patch == None
      ensures caption == old(caption) && isChecked == old(isChecked)
    {
      if key == "Enter" && !shift {
        isEditing := false;
        return true, Some(EmptyData.(caption := caption));
      }
      return false, None;
    }

    /** `handleCheckboxChange`: the box and the node both take the new state. */
    method HandleCheckboxChange(checked: bool) returns (patch: NodeData)
      modifies this
      ensures isChecked == checked && patch == EmptyData.(isChecked := Some(checked))
      ensures isEditing == old(isEditing) && caption == old(caption)
    {
      isChecked := checked;
      patch := EmptyData.(isChecked := Some(checked));
    }
  }
}
