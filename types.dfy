/**
 * The mind-map document model: nodes, edges and their data records.
 *
 * A node's data is an open JavaScript object. Every key the editor knows is
 * an `Option` field here (`None` stands for a key that is absent or holds
 * `undefined`); keys the editor does not know are kept, as opaque text, in
 * `extra`. Object spread (`{...base, ...patch}`) is `MergeData`: a key the
 * patch carries wins, every other key keeps the base's value.
 */
module Types {

  import opened Opt

  /** A canvas position; the source's coordinates are JavaScript numbers. */
  datatype Point = Point(x: real, y: real)

  /** One link of a node's content panel. */
  datatype Link = Link(url: string, caption: string)

  /** The node's detail content: title, description and links. */
  datatype NodeContent = NodeContent(title: Option<string>, description: Option<string>, links: Option<seq<Link>>)

  /** The coloured check mark drawn at one of six positions around a node. */
  datatype Legend = Legend(enabled: bool, position: string, color: string)

  datatype Shadow = Shadow(enabled: bool, color: Option<string>, blur: Option<int>, offsetX: Option<int>, offsetY: Option<int>)

  datatype Glow = Glow(enabled: bool, color: Option<string>, blur: Option<int>)

  /** An entry of a checklist node; `priority` is 'low', 'medium' or 'high' when present. */
  datatype ChecklistItem = ChecklistItem(id: string, text: string, isChecked: bool, priority: Option<string>)

  /** An entry of a timeline node; `date` is an ISO 8601 timestamp, kept as text. */
  datatype TimelineEvent = TimelineEvent(
    id: string, title: string, date: string, isMilestone: bool,
    color: Option<string>, description: Option<string>, isCompleted: Option<bool>)

  /** An entry of a resource node; `kind` is the source's `type` ('pdf', 'video', 'website' or 'other'). */
  datatype Resource = Resource(
    id: string, title: string, url: string, kind: string,
    rating: Option<int>, tags: Option<seq<string>>, description: Option<string>)

  /** The data record of a node, and equally a partial patch of one. */
  datatype NodeData = NodeData(
    caption: Option<string>,
    nodeType: Option<string>,
    backgroundColor: Option<string>,
    strokeColor: Option<string>,
    strokeWidth: Option<int>,
    strokeStyle: Option<string>,
    fontFamily: Option<string>,
    fontSize: Option<string>,
    textAlign: Option<string>,
    opacity: Option<real>,
    content: Option<NodeContent>,
    legend: Option<Legend>,
    hasCheckbox: Option<bool>,
    isChecked: Option<bool>,
    rotation: Option<int>,
    aspectRatio: Option<bool>,
    shadow: Option<Shadow>,
    glow: Option<Glow>,
    zIndex: Option<int>,
    checklistItems: Option<seq<ChecklistItem>>,
    timelineEvents: Option<seq<TimelineEvent>>,
    startDate: Option<string>,
    endDate: Option<string>,
    resources: Option<seq<Resource>>,
    position: Option<Point>,
    extra: map<string, string>)

  /** The empty object `{}`. */
  const EmptyData := NodeData(
    None, None, None, None, None, None, None, None, None, None, None, None, None,
    None, None, None, None, None, None, None, None, None, None, None, None, map[])

  /**
   * A node on the canvas. `kind` is the renderer selector (the source's `type`);
   * `selected` is the flag the diagram engine sets on the selected node.
   */
  datatype Node = Node(id: string, kind: string, position: Point, data: NodeData, selected: bool)

  datatype EdgeData = EdgeData(
    caption: Option<string>,
    arrowStart: Option<bool>,
    arrowEnd: Option<bool>,
    pathStyle: Option<string>,
    strokeStyle: Option<string>,
    strokeColor: Option<string>,
    strokeWidth: Option<int>)

  const EmptyEdgeData := EdgeData(None, None, None, None, None, None, None)

  /** The only arrow-head marker the editor creates. */
  datatype Marker = ArrowClosed

  /** The style record the diagram engine reads; `strokeDasharray` is the dash pattern. */
  datatype EdgeStyle = EdgeStyle(stroke: Option<string>, strokeWidth: Option<int>, strokeDasharray: Option<string>)

  /** A connection between two nodes; `kind` is the rendering hint (the source's `type`). */
  datatype Edge = Edge(
    id: string, source: string, target: string,
    sourceHandle: Option<string>, targetHandle: Option<string>,
    kind: string, animated: bool, data: EdgeData,
    markerStart: Option<Marker>, markerEnd: Option<Marker>, style: EdgeStyle)

  /** A named document, the unit the store saves, loads and deletes. */
  datatype Doc = Doc(nodes: seq<Node>, edges: seq<Edge>, name: string)

  // JavaScript `a || d`: `a` when it is truthy, `d` otherwise.

  function StrOr(a: Option<string>, d: string): (r: string)
    ensures Truthy(a) ==> r == a.value
    ensures !Truthy(a) ==> r == d
    ensures r == "" ==> d == ""
  {
    if a.Some? && a.value != "" then a.value else d
  }

  function IntOr(a: Option<int>, d: int): (r: int)
    ensures a.Some? && a.value != 0 ==> r == a.value
    ensures a.None? || a.value == 0 ==> r == d
    ensures r == 0 ==> d == 0
  {
    if a.Some? && a.value != 0 then a.value else d
  }

  function RealOr(a: Option<real>, d: real): (r: real)
    ensures a.Some? && a.value != 0.0 ==> r == a.value
    ensures a.None? || a.value == 0.0 ==> r == d
    ensures r == 0.0 ==> d == 0.0
  {
    if a.Some? && a.value != 0.0 then a.value else d
  }

  function BoolOr(a: Option<bool>, d: bool): (r: bool)
    ensures r <==> a == Some(true) || d
  {
    if a.Some? && a.value then true else d
  }

  /** A string key that is present and not empty (JavaScript truthiness of a string). */
  predicate Truthy(a: Option<string>): (t: bool)
    ensures t ==> a.Some? && |a.value| > 0
    ensures a.Some? && |a.value| > 0 ==> t
  {
    a.Some? && a.value != ""
  }

  /** One key of `{...base, ...patch}`. */
  function Pick<T>(base: Option<T>, patch: Option<T>): (r: Option<T>)
    ensures r.Some? <==> base.Some? || patch.Some?
    ensures patch.Some? ==> r == patch
    ensures patch.None? ==> r == base
  {
    if patch.Some? then patch else base
  }

  /** `small`'s key, when it has one, is present in `big` with the same value. */
  predicate Covers<T(==)>(big: Option<T>, small: Option<T>) {
    small.Some? ==> big == small
  }

  /** Every key `small` carries appears verbatim in `big`. */
  predicate Extends(big: NodeData, small: NodeData) {
    && Covers(big.caption, small.caption)
    && Covers(big.nodeType, small.nodeType)
    && Covers(big.backgroundColor, small.backgroundColor)
    && Covers(big.strokeColor, small.strokeColor)
    && Covers(big.strokeWidth, small.strokeWidth)
    && Covers(big.strokeStyle, small.strokeStyle)
    && Covers(big.fontFamily, small.fontFamily)
    && Covers(big.fontSize, small.fontSize)
    && Covers(big.textAlign, small.textAlign)
    && Covers(big.opacity, small.opacity)
    && Covers(big.content, small.content)
    && Covers(big.legend, small.legend)
    && Covers(big.hasCheckbox, small.hasCheckbox)
    && Covers(big.isChecked, small.isChecked)
    && Covers(big.rotation, small.rotation)
    && Covers(big.aspectRatio, small.aspectRatio)
    && Covers(big.shadow, small.shadow)
    && Covers(big.glow, small.glow)
    && Covers(big.zIndex, small.zIndex)
    && Covers(big.checklistItems, small.checklistItems)
    && Covers(big.timelineEvents, small.timelineEvents)
    && Covers(big.startDate, small.startDate)
    && Covers(big.endDate, small.endDate)
    && Covers(big.resources, small.resources)
    && Covers(big.position, small.position)
    && (forall k :: k in small.extra ==> k in big.extra && big.extra[k] == small.extra[k])
  }

  /** Every key the patch lacks keeps its value from `base`. */
  predicate KeepsAbsent(r: NodeData, base: NodeData, patch: NodeData) {
    && (patch.caption.None? ==> r.caption == base.caption)
    && (patch.nodeType.None? ==> r.nodeType == base.nodeType)
    && (patch.backgroundColor.None? ==> r.backgroundColor == base.backgroundColor)
    && (patch.strokeColor.None? ==> r.strokeColor == base.strokeColor)
    && (patch.strokeWidth.None? ==> r.strokeWidth == base.strokeWidth)
    && (patch.strokeStyle.None? ==> r.strokeStyle == base.strokeStyle)
    && (patch.fontFamily.None? ==> r.fontFamily == base.fontFamily)
    && (patch.fontSize.None? ==> r.fontSize == base.fontSize)
    && (patch.textAlign.None? ==> r.textAlign == base.textAlign)
    && (patch.opacity.None? ==> r.opacity == base.opacity)
    && (patch.content.None? ==> r.content == base.content)
    && (patch.legend.None? ==> r.legend == base.legend)
    && (patch.hasCheckbox.None? ==> r.hasCheckbox == base.hasCheckbox)
    && (patch.isChecked.None? ==> r.isChecked == base.isChecked)
    && (patch.rotation.None? ==> r.rotation == base.rotation)
    && (patch.aspectRatio.None? ==> r.aspectRatio == base.aspectRatio)
    && (patch.shadow.None? ==> r.shadow == base.shadow)
    && (patch.glow.None? ==> r.glow == base.glow)
    && (patch.zIndex.None? ==> r.zIndex == base.zIndex)
    && (patch.checklistItems.None? ==> r.checklistItems == base.checklistItems)
    && (patch.timelineEvents.None? ==> r.timelineEvents == base.timelineEvents)
    && (patch.startDate.None? ==> r.startDate == base.startDate)
    && (patch.endDate.None? ==> r.endDate == base.endDate)
    && (patch.resources.None? ==> r.resources == base.resources)
    && (patch.position.None? ==> r.position == base.position)
    && (forall k :: k in base.extra && k !in patch.extra ==> k in r.extra && r.extra[k] == base.extra[k])
  }

  /**
   * `{...base, ...patch}`: the patch's keys verbatim, every other key from
   * `base`, and no key that neither has. Merging an empty patch, or a patch
   * whose keys `base` already holds, changes nothing.
   */
  function MergeData(base: NodeData, patch: NodeData): (r: NodeData)
    ensures Extends(r, patch)
    ensures KeepsAbsent(r, base, patch)
    ensures r.extra.Keys == base.extra.Keys + patch.extra.Keys
  {
    NodeData(
      Pick(base.caption, patch.caption),
      Pick(base.nodeType, patch.nodeType),
      Pick(base.backgroundColor, patch.backgroundColor),
      Pick(base.strokeColor, patch.strokeColor),
      Pick(base.strokeWidth, patch.strokeWidth),
      Pick(base.strokeStyle, patch.strokeStyle),
      Pick(base.fontFamily, patch.fontFamily),
      Pick(base.fontSize, patch.fontSize),
      Pick(base.textAlign, patch.textAlign),
      Pick(base.opacity, patch.opacity),
      Pick(base.content, patch.content),
      Pick(base.legend, patch.legend),
      Pick(base.hasCheckbox, patch.hasCheckbox),
      Pick(base.isChecked, patch.isChecked),
      Pick(base.rotation, patch.rotation),
      Pick(base.aspectRatio, patch.aspectRatio),
      Pick(base.shadow, patch.shadow),
      Pick(base.glow, patch.glow),
      Pick(base.zIndex, patch.zIndex),
      Pick(base.checklistItems, patch.checklistItems),
      Pick(base.timelineEvents, patch.timelineEvents),
      Pick(base.startDate, patch.startDate),
      Pick(base.endDate, patch.endDate),
      Pick(base.resources, patch.resources),
      Pick(base.position, patch.position),
      base.extra + patch.extra)
  }

  /** Two records that agree on every key are the same record. */
  lemma SameKeys(a: NodeData, b: NodeData)
    requires Extends(a, b) && Extends(b, a)
    ensures a == b
  {
    assert a.extra == b.extra;
  }

  /** Spreading a patch whose keys `base` already holds, the empty patch included, changes nothing. */
  lemma MergeAlreadyPresent(base: NodeData, patch: NodeData)
    requires Extends(base, patch)
    ensures MergeData(base, patch) == base
  {
    var r := MergeData(base, patch);
    assert Extends(base, r);
    assert Extends(r, base);
    SameKeys(r, base);
  }

  /** Spreading the empty object changes nothing. */
  lemma MergeEmpty(base: NodeData)
    ensures MergeData(base, EmptyData) == base
  {
    MergeAlreadyPresent(base, EmptyData);
  }

  /** Spreading the same patch twice is spreading it once. */
  lemma MergeIdempotent(base: NodeData, patch: NodeData)
    ensures MergeData(MergeData(base, patch), patch) == MergeData(base, patch)
  {
    MergeAlreadyPresent(MergeData(base, patch), patch);
  }

  /** `{...base, ...patch}` for edge data, with the same meaning as `MergeData`. */
  function MergeEdgeData(base: EdgeData, patch: EdgeData): (r: EdgeData)
    ensures patch.caption.Some? ==> r.caption == patch.caption
    ensures patch.arrowStart.Some? ==> r.arrowStart == patch.arrowStart
    ensures patch.arrowEnd.Some? ==> r.arrowEnd == patch.arrowEnd
    ensures patch.pathStyle.Some? ==> r.pathStyle == patch.pathStyle
    ensures patch.strokeStyle.Some? ==> r.strokeStyle == patch.strokeStyle
    ensures patch.strokeColor.Some? ==> r.strokeColor == patch.strokeColor
    ensures patch.strokeWidth.Some? ==> r.strokeWidth == patch.strokeWidth
    ensures patch == EmptyEdgeData ==> r == base
    ensures patch.pathStyle.None? ==> r.pathStyle == base.pathStyle
    ensures patch.strokeStyle.None? ==> r.strokeStyle == base.strokeStyle
    ensures patch.arrowStart.None? ==> r.arrowStart == base.arrowStart
    ensures patch.arrowEnd.None? ==> r.arrowEnd == base.arrowEnd
    ensures patch.caption.None? ==> r.caption == base.caption
    ensures patch.strokeColor.None? ==> r.strokeColor == base.strokeColor
    ensures patch.strokeWidth.None? ==> r.strokeWidth == base.strokeWidth
  {
    EdgeData(
      Pick(base.caption, patch.caption),
      Pick(base.arrowStart, patch.arrowStart),
      Pick(base.arrowEnd, patch.arrowEnd),
      Pick(base.pathStyle, patch.pathStyle),
      Pick(base.strokeStyle, patch.strokeStyle),
      Pick(base.strokeColor, patch.strokeColor),
      Pick(base.strokeWidth, patch.strokeWidth))
  }

  /** `{...base, ...patch}` for a node's content record. */
  function MergeContent(base: NodeContent, patch: NodeContent): (r: NodeContent)
    ensures patch.title.Some? ==> r.title == patch.title
    ensures patch.description.Some? ==> r.description == patch.description
    ensures patch.links.Some? ==> r.links == patch.links
    ensures patch.title.None? ==> r.title == base.title
    ensures patch.description.None? ==> r.description == base.description
    ensures patch.links.None? ==> r.links == base.links
  {
    NodeContent(Pick(base.title, patch.title), Pick(base.description, patch.description), Pick(base.links, patch.links))
  }

  const EmptyContent := NodeContent(None, None, None)
}
