/**
 * The edge operations: restyling an edge from the settings panel, creating
 * an edge when the user connects two handles, and selecting an edge by
 * clicking it.
 */
module EdgeHandlers {

  import opened Opt
  import opened Types
  import opened Seqs
  import opened EditorState

  /** The diagram-engine edge type each path style is drawn with; unknown styles fall back to 'default'. */
  function PathStyleType(pathStyle: string): (kind: string)
    ensures kind in {"default", "bezier", "step", "smoothstep"}
    ensures kind == "smoothstep" <==> pathStyle == "smoothstep"
    ensures kind == "step" <==> pathStyle == "step" || pathStyle == "zigzag"
    ensures kind == "bezier" <==> pathStyle in {"curved", "loopback", "wavy"}
  {
    match pathStyle
    case "straight" => "default"
    case "curved" => "bezier"
    case "step" => "step"
    case "smoothstep" => "smoothstep"
    // The custom styles have no renderer of their own and borrow a close one.
    case "loopback" => "bezier"
    case "zigzag" => "step"
    case "wavy" => "bezier"
    case _ => "default"
  }

  /** The marker an arrow flag asks for: an explicit flag decides, an absent one keeps the current marker. */
  function MarkerFor(flag: Option<bool>, current: Option<Marker>): (m: Option<Marker>)
    ensures flag == Some(true) ==> m == Some(ArrowClosed)
    ensures flag == Some(false) ==> m == None
    ensures flag == None ==> m == current
  {
    match flag
    case Some(on) => if on then Some(ArrowClosed) else None
    case None => current
  }

  /** The dash pattern of a stroke style; every style but dashed and dotted is a solid line. */
  function DashFor(strokeStyle: Option<string>): (dash: Option<string>)
    ensures dash.Some? <==> strokeStyle == Some("dashed") || strokeStyle == Some("dotted")
  {
    if strokeStyle == Some("dashed") then Some("5,5")
    else if strokeStyle == Some("dotted") then Some("1,5")
    else None
  }

  /**
   * One edge after `updateEdge`. The markers follow explicit arrow flags; the
   * type is recomputed only for a truthy path style; the data takes every key
   * of the patch; stroke colour and width keep their old values unless the
   * patch's are truthy; the dash pattern is recomputed from the patch alone.
   * Identity and endpoints never change.
   */
  function UpdatedEdge(e: Edge, patch: EdgeData): (r: Edge)
    ensures r.id == e.id && r.source == e.source && r.target == e.target
    ensures r.sourceHandle == e.sourceHandle && r.targetHandle == e.targetHandle && r.animated == e.animated
    ensures r.markerEnd == MarkerFor(patch.arrowEnd, e.markerEnd)
    ensures r.markerStart == MarkerFor(patch.arrowStart, e.markerStart)
    ensures r.kind == (if Truthy(patch.pathStyle) then PathStyleType(patch.pathStyle.value) else e.kind)
    ensures r.data == MergeEdgeData(e.data, patch)
    ensures r.style.stroke == (if Truthy(patch.strokeColor) then patch.strokeColor else e.style.stroke)
    ensures r.style.strokeWidth == (if patch.strokeWidth.Some? && patch.strokeWidth.value != 0 then patch.strokeWidth else e.style.strokeWidth)
    ensures r.style.strokeDasharray == DashFor(patch.strokeStyle)
  {
    var kind := if Truthy(patch.pathStyle) then PathStyleType(patch.pathStyle.value) else e.kind;
    var stroke := if Truthy(patch.strokeColor) then patch.strokeColor else e.style.stroke;
    var width := if patch.strokeWidth.Some? && patch.strokeWidth.value != 0 then patch.strokeWidth else e.style.strokeWidth;
    e.(kind := kind,
       markerEnd := MarkerFor(patch.arrowEnd, e.markerEnd),
       markerStart := MarkerFor(patch.arrowStart, e.markerStart),
       data := MergeEdgeData(e.data, patch),
       style := EdgeStyle(stroke, width, DashFor(patch.strokeStyle)))
  }

  /** `updateEdge` over the list: only edges with that id change; order and length are kept. */
  function UpdateEdgeIn(edges: seq<Edge>, id: string, patch: EdgeData): (r: seq<Edge>)
    ensures |r| == |edges|
    ensures forall i :: 0 <= i < |edges| && edges[i].id != id ==> r[i] == edges[i]
    ensures forall i :: 0 <= i < |edges| && edges[i].id == id ==> r[i] == UpdatedEdge(edges[i], patch)
  {
    MapWhere(edges, (e: Edge) => e.id == id, (e: Edge) => UpdatedEdge(e, patch))
  }

  /**
   * An edge is consistent when its type matches its stated (truthy) path
   * style and its markers match its stated arrow flags.
   */
  predicate Consistent(e: Edge) {
    && (Truthy(e.data.pathStyle) ==> e.kind == PathStyleType(e.data.pathStyle.value))
    && (e.data.arrowEnd == Some(true) ==> e.markerEnd == Some(ArrowClosed))
    && (e.data.arrowEnd == Some(false) ==> e.markerEnd == None)
    && (e.data.arrowStart == Some(true) ==> e.markerStart == Some(ArrowClosed))
    && (e.data.arrowStart == Some(false) ==> e.markerStart == None)
  }

  /** Updating a consistent edge yields a consistent edge, whatever the patch. */
  lemma UpdatePreservesConsistency(e: Edge, patch: EdgeData)
    requires Consistent(e)
    ensures Consistent(UpdatedEdge(e, patch))
  {
  }

  /** The dash pattern agrees with the stored stroke style. */
  predicate DashMatchesStyle(e: Edge) {
    e.style.strokeDasharray == DashFor(e.data.strokeStyle)
  }

  /** A patch that states a stroke style leaves the dash pattern in agreement with it. */
  lemma StatedStrokeStyleSetsDash(e: Edge, patch: EdgeData)
    requires patch.strokeStyle.Some?
    ensures DashMatchesStyle(UpdatedEdge(e, patch))
  {
  }

  /**
   * A patch without a stroke style clears the dash pattern even though the
   * stored style is still 'dashed': changing only the label of a dashed edge
   * draws it solid. The settings form always sends every field, so it never
   * sends such a patch.
   */
  lemma CaptionOnlyPatchClearsDash(e: Edge, caption: string)
    requires e.data.strokeStyle == Some("dashed") && DashMatchesStyle(e)
    ensures var r := UpdatedEdge(e, EmptyEdgeData.(caption := Some(caption)));
      && e.style.strokeDasharray == Some("5,5")
      && r.style.strokeDasharray == None
      && r.data.strokeStyle == Some("dashed")
      && !DashMatchesStyle(r)
  {
  }

  /** A path style with no renderer of its own collapses the type, while the data keeps the style as stated. */
  lemma CustomPathStyleKeptInData(e: Edge)
    ensures var r := UpdatedEdge(e, EmptyEdgeData.(pathStyle := Some("zigzag")));
      r.kind == "step" && r.data.pathStyle == Some("zigzag")
  {
  }

  /** What the diagram engine reports when two handles are joined. */
  datatype Connection = Connection(source: string, target: string, sourceHandle: Option<string>, targetHandle: Option<string>)

  /** The data every new edge starts with. */
  const ConnectData := EdgeData(None, None, Some(true), Some("smoothstep"), Some("solid"), Some("#000000"), Some(1))

  /** The edge `onConnect` creates: animated, smoothstep, a closed arrow at its end, default data. */
  function NewEdge(conn: Connection, id: string): (e: Edge)
    ensures e.id == id && e.source == conn.source && e.target == conn.target
    ensures e.sourceHandle == conn.sourceHandle && e.targetHandle == conn.targetHandle
    ensures e.kind == "smoothstep" && e.animated
    ensures e.data == ConnectData && e.markerEnd == Some(ArrowClosed) && e.markerStart == None
    ensures Consistent(e)
  {
    Edge(id, conn.source, conn.target, conn.sourceHandle, conn.targetHandle,
         "smoothstep", true, ConnectData, None, Some(ArrowClosed), EdgeStyle(None, None, None))
  }

  /** `onConnect`: the new edge is appended and the existing edges are kept. */
  function Connect(edges: seq<Edge>, conn: Connection, id: string): (r: seq<Edge>)
    ensures |r| == |edges| + 1 && r[..|edges|] == edges && r[|edges|] == NewEdge(conn, id)
  {
    edges + [NewEdge(conn, id)]
  }

  /** Every edge of a list is consistent. */
  predicate AllConsistent(edges: seq<Edge>) {
    forall i :: 0 <= i < |edges| ==> Consistent(edges[i])
  }

  /** Connecting and updating keep every edge of the list consistent. */
  lemma EdgeListStaysConsistent(edges: seq<Edge>, conn: Connection, newId: string, id: string, patch: EdgeData)
    requires AllConsistent(edges)
    ensures AllConsistent(Connect(edges, conn, newId))
    ensures AllConsistent(UpdateEdgeIn(edges, id, patch))
  {
    var r := UpdateEdgeIn(edges, id, patch);
    forall i | 0 <= i < |edges|
      ensures Consistent(r[i])
    {
      if edges[i].id == id {
        UpdatePreservesConsistency(edges[i], patch);
      }
    }
  }

  /** `onEdgeClick`: clicking the selected edge clears the selection, clicking any other edge selects it. */
  function ClickEdge(selected: Option<string>, id: string): (r: Option<string>)
    ensures r == None <==> selected == Some(id)
    ensures r.Some? ==> r.value == id
  {
    if selected == Some(id) then None else Some(id)
  }

  /** Two clicks on the same edge restore a selection that was empty or on that edge. */
  lemma ClickTwice(selected: Option<string>, id: string)
    requires selected == None || selected == Some(id)
    ensures ClickEdge(ClickEdge(selected, id), id) == selected
  {
  }

  /** The edge handlers bound to the editor's canvas, with the selected edge. */
  class EdgeHandlers {
    const canvas: Canvas
    var selectedEdge: Option<string>

    constructor (canvas: Canvas)
      ensures this.canvas == canvas && selectedEdge == None
    {
      this.canvas := canvas;
      selectedEdge := None;
    }

    method UpdateEdge(id: string, patch: EdgeData)
      modifies canvas
      ensures canvas.edges == UpdateEdgeIn(old(canvas.edges), id, patch)
      ensures canvas.nodes == old(canvas.nodes)
    {
      canvas.edges := UpdateEdgeIn(canvas.edges, id, patch);
    }

    method OnConnect(conn: Connection, id: string)
      modifies canvas
      ensures canvas.edges == Connect(old(canvas.edges), conn, id)
      ensures canvas.nodes == old(canvas.nodes)
    {
      canvas.edges := Connect(canvas.edges, conn, id);
    }

    method OnEdgeClick(id: string)
      modifies this
      ensures selectedEdge == ClickEdge(old(selectedEdge), id)
    {
      selectedEdge := ClickEdge(selectedEdge, id);
    }
  }
}
