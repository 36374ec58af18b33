/**
 * The node operations behind the editor's menus and shortcuts: delete,
 * update, add, copy, paste and duplicate, the keyboard dispatch that routes
 * to them, and the persisted one-slot clipboard.
 */
module NodeHandlers {

  import opened Opt
  import opened Types
  import opened Seqs
  import NodeManager
  import opened EditorState

  /**
   * The persisted clipboard slot: nothing stored (or an empty string), the
   * data of the last copied node, or text that does not parse as node data.
   */
  datatype Clipboard = Empty | Holds(data: NodeData) | Unparsable

  /** The notifications the handlers raise, by kind. */
  datatype Notice = Added | Deleted | Copied | Pasted | CreatedFromClipboard | PasteFailed | Duplicated

  // ---- the list transforms ----

  /**
   * `deleteNode`: every node with that id is removed (ids may repeat), every
   * other node stays. Edges are not touched.
   */
  function DeleteNodeFrom(nodes: seq<Node>, id: string): (r: seq<Node>)
    ensures forall n :: n in r <==> n in nodes && n.id != id
  {
    FilterExactly(nodes, (n: Node) => n.id != id);
    Filter(nodes, (n: Node) => n.id != id)
  }

  /** Deleting distributes over concatenation, so the nodes that stay keep their order. */
  lemma DeleteNodeAppend(a: seq<Node>, b: seq<Node>, id: string)
    ensures DeleteNodeFrom(a + b, id) == DeleteNodeFrom(a, id) + DeleteNodeFrom(b, id)
  {
    FilterAppend(a, b, (n: Node) => n.id != id);
  }

  /** Deleting an id no node has leaves the list as it was. */
  lemma DeleteAbsentId(nodes: seq<Node>, id: string)
    requires forall i :: 0 <= i < |nodes| ==> nodes[i].id != id
    ensures DeleteNodeFrom(nodes, id) == nodes
  {
    FilterAll(nodes, (n: Node) => n.id != id);
  }

  /**
   * `updateNodeData`: each node with that id gets its data overridden by the
   * patch's keys; its id, renderer, position and selection stay; every other
   * node is returned as it was.
   */
  function UpdateNodeDataIn(nodes: seq<Node>, id: string, patch: NodeData): (r: seq<Node>)
    ensures |r| == |nodes|
    ensures forall i :: 0 <= i < |nodes| ==>
      && r[i].id == nodes[i].id && r[i].kind == nodes[i].kind
      && r[i].position == nodes[i].position && r[i].selected == nodes[i].selected
    ensures forall i :: 0 <= i < |nodes| && nodes[i].id != id ==> r[i] == nodes[i]
    ensures forall i :: 0 <= i < |nodes| && nodes[i].id == id ==>
      Extends(r[i].data, patch) && KeepsAbsent(r[i].data, nodes[i].data, patch)
    ensures forall i :: 0 <= i < |nodes| && nodes[i].id == id ==>
      r[i].data.extra.Keys == nodes[i].data.extra.Keys + patch.extra.Keys
  {
    MapWhere(nodes, (n: Node) => n.id == id, (n: Node) => n.(data := MergeData(n.data, patch)))
  }

  /** An empty patch leaves the list value-equal. */
  lemma UpdateWithEmptyPatch(nodes: seq<Node>, id: string)
    ensures UpdateNodeDataIn(nodes, id, EmptyData) == nodes
  {
    var r := UpdateNodeDataIn(nodes, id, EmptyData);
    forall i | 0 <= i < |nodes|
      ensures r[i] == nodes[i]
    {
      MergeEmpty(nodes[i].data);
    }
  }

  /** `nodes.find(node => node.id === id)`. */
  function FindNode(nodes: seq<Node>, id: string): (r: Option<Node>)
    ensures r.Some? <==> exists i :: 0 <= i < |nodes| && nodes[i].id == id
    ensures r.Some? ==> r.value in nodes && r.value.id == id
    ensures r.Some? ==> exists i :: 0 <= i < |nodes| && nodes[i] == r.value &&
                                    forall j :: 0 <= j < i ==> nodes[j].id != id
  {
    var k := IndexOf(nodes, (n: Node) => n.id == id);
    Find(nodes, (n: Node) => n.id == id)
  }

  /** The id of the first node the diagram engine marks selected. */
  function FirstSelectedId(nodes: seq<Node>): (r: Option<string>)
    ensures r.Some? <==> exists i :: 0 <= i < |nodes| && nodes[i].selected
    ensures r.Some? ==> exists i :: 0 <= i < |nodes| && nodes[i].selected && nodes[i].id == r.value &&
                                    forall j :: 0 <= j < i ==> !nodes[j].selected
  {
    var k := IndexOf(nodes, (n: Node) => n.selected);
    match Find(nodes, (n: Node) => n.selected)
    case Some(n) => Some(n.id)
    case None => None
  }

  /** The position a duplicate is placed at: 50 to the right of and 50 below its source. */
  function Offset(p: Point): (r: Point)
    ensures r.x > p.x && r.y > p.y
    ensures r.x - p.x == r.y - p.y == 50.0
  {
    Point(p.x + 50.0, p.y + 50.0)
  }

  /** `data.nodeType || 'topic'`: the type a pasted or duplicated node is created with. */
  function TypeOrTopic(data: NodeData): (t: string)
    ensures t != ""
    ensures Truthy(data.nodeType) ==> t == data.nodeType.value
    ensures !Truthy(data.nodeType) ==> t == "topic"
  {
    StrOr(data.nodeType, "topic")
  }

  // ---- what each operation does to (nodes, clipboard) ----

  /** The nodes, clipboard and notifications after an operation. */
  datatype Effect = Effect(nodes: seq<Node>, clipboard: Clipboard, notices: seq<Notice>)

  /** `copyNode`: the first node with that id has its data put on the clipboard; an unknown id changes nothing. */
  function CopyEffect(nodes: seq<Node>, clip: Clipboard, id: string): (e: Effect)
    ensures e.nodes == nodes
    ensures FindNode(nodes, id).None? ==> e == Effect(nodes, clip, [])
    ensures FindNode(nodes, id).Some? ==> e.clipboard == Holds(FindNode(nodes, id).value.data) && e.notices == [Copied]
  {
    match FindNode(nodes, id)
    case Some(n) => Effect(nodes, Holds(n.data), [Copied])
    case None => Effect(nodes, clip, [])
  }

  /**
   * `pasteNode`: nothing without a clipboard; an error notice and no change
   * when it does not parse; otherwise a merge into the target node (as
   * `updateNodeData`), or, without a target, a new node created by `addNode`
   * with the clipboard data as overrides. The clipboard is only read.
   */
  function PasteEffect(nodes: seq<Node>, clip: Clipboard, target: Option<string>, randomPos: Point, clock: NodeManager.Clock): (e: Effect)
    ensures e.clipboard == clip
    ensures clip.Empty? ==> e == Effect(nodes, clip, [])
    ensures clip.Unparsable? ==> e == Effect(nodes, clip, [PasteFailed])
    ensures clip.Holds? && Truthy(target) ==> e.nodes == UpdateNodeDataIn(nodes, target.value, clip.data) && e.notices == [Pasted]
    ensures clip.Holds? && !Truthy(target) ==>
      && e.nodes == NodeManager.AddNode(nodes, Some(TypeOrTopic(clip.data)), clip.data, randomPos, clock)
      && e.notices == [Added, CreatedFromClipboard]
  {
    match clip
    case Empty => Effect(nodes, clip, [])
    case Unparsable => Effect(nodes, clip, [PasteFailed])
    case Holds(data) =>
      if Truthy(target) then Effect(UpdateNodeDataIn(nodes, target.value, data), clip, [Pasted])
      else Effect(NodeManager.AddNode(nodes, Some(TypeOrTopic(data)), data, randomPos, clock), clip, [Added, CreatedFromClipboard])
  }

  /**
   * `duplicateNode`: a new node created by `addNode` from the first node with
   * that id, with its data as overrides and its position moved by (50, 50);
   * an unknown id changes nothing.
   */
  function DuplicateEffect(nodes: seq<Node>, clip: Clipboard, id: string, clock: NodeManager.Clock): (e: Effect)
    ensures e.clipboard == clip
    ensures FindNode(nodes, id).None? ==> e == Effect(nodes, clip, [])
  {
    match FindNode(nodes, id)
    case None => Effect(nodes, clip, [])
    case Some(src) =>
      var at := Offset(src.position);
      // The overrides carry a position, so `addNode` draws no random point.
      Effect(NodeManager.AddNode(nodes, Some(TypeOrTopic(src.data)), src.data.(position := Some(at)), at, clock), clip, [Added, Duplicated])
  }

  /**
   * Duplicating a node appends exactly one node, at the source's position plus
   * (50, 50), whose data holds every key of the source's data (with the new
   * position recorded under `position`).
   */
  lemma DuplicateAppendsCopy(nodes: seq<Node>, clip: Clipboard, id: string, clock: NodeManager.Clock)
    requires FindNode(nodes, id).Some?
    ensures var src := FindNode(nodes, id).value;
      var e := DuplicateEffect(nodes, clip, id, clock);
      && |e.nodes| == |nodes| + 1
      && e.nodes[..|nodes|] == nodes
      && e.nodes[|nodes|].position == Offset(src.position)
      && Extends(e.nodes[|nodes|].data, src.data.(position := Some(Offset(src.position))))
      && e.notices == [Added, Duplicated]
  {
  }

  /**
   * Copying a node and pasting without a target appends one node whose data
   * holds every key of the copied data, placed at the copied data's own
   * `position` key when it has one and at a fresh point otherwise.
   */
  lemma CopyThenPasteAsNew(nodes: seq<Node>, clip: Clipboard, id: string, randomPos: Point, clock: NodeManager.Clock)
    requires FindNode(nodes, id).Some?
    ensures var src := FindNode(nodes, id).value;
      var copied := CopyEffect(nodes, clip, id);
      var pasted := PasteEffect(copied.nodes, copied.clipboard, None, randomPos, clock);
      && |pasted.nodes| == |nodes| + 1
      && pasted.nodes[..|nodes|] == nodes
      && Extends(pasted.nodes[|nodes|].data, src.data)
      && pasted.nodes[|nodes|].position == src.data.position.GetOr(randomPos)
  {
  }

  /**
   * Adding a node and then deleting its id restores the list, unless some
   * earlier node already had that id.
   */
  lemma AddThenDelete(nodes: seq<Node>, nodeType: string, overrides: NodeData, randomPos: Point, clock: NodeManager.Clock)
    requires nodeType != ""
    requires forall i :: 0 <= i < |nodes| ==> nodes[i].id != NodeManager.NewId(nodes)
    ensures DeleteNodeFrom(NodeManager.AddNode(nodes, Some(nodeType), overrides, randomPos, clock), NodeManager.NewId(nodes)) == nodes
  {
    var added := NodeManager.AddNode(nodes, Some(nodeType), overrides, randomPos, clock);
    var id := NodeManager.NewId(nodes);
    assert added == nodes + [added[|nodes|]];
    DeleteNodeAppend(nodes, [added[|nodes|]], id);
    DeleteAbsentId(nodes, id);
    assert DeleteNodeFrom([added[|nodes|]], id) == [];
  }

  /**
   * Ids repeat: with nodes '1' and '2', deleting '1' and adding a node gives
   * the new node id '2' again, and deleting '2' then removes both.
   */
  lemma IdReuseAfterDelete(n1: Node, n2: Node, nodeType: string, overrides: NodeData, randomPos: Point, clock: NodeManager.Clock)
    requires n1.id == "1" && n2.id == "2" && nodeType != ""
    ensures var afterDelete := DeleteNodeFrom([n1, n2], "1");
      var afterAdd := NodeManager.AddNode(afterDelete, Some(nodeType), overrides, randomPos, clock);
      && afterDelete == [n2]
      && |afterAdd| == 2 && afterAdd[0].id == "2" && afterAdd[1].id == "2"
      && DeleteNodeFrom(afterAdd, "2") == []
  {
    var afterDelete := DeleteNodeFrom([n1, n2], "1");
    DeleteNodeAppend([n1], [n2], "1");
    assert [n1, n2] == [n1] + [n2];
    assert afterDelete == [n2];
    assert NodeManager.DecimalString(2) == "2";
    var afterAdd := NodeManager.AddNode(afterDelete, Some(nodeType), overrides, randomPos, clock);
    assert afterAdd == [afterAdd[0]] + [afterAdd[1]];
    DeleteNodeAppend([afterAdd[0]], [afterAdd[1]], "2");
  }

  // ---- keyboard dispatch ----

  /** Where the key event happened: a text input, a text area, or anywhere else. */
  datatype Focus = TextInput | TextArea | Elsewhere

  datatype KeyAction =
    | NoAction
    | CopySelected(id: string)
    | PasteIntoSelected(id: string)
    | PasteAsNew
    | DeleteSelected(id: string)
    | DuplicateSelected(id: string)

  /** Whether the browser's default action is suppressed, and which handler runs. */
  datatype Dispatch = Dispatch(preventDefault: bool, action: KeyAction)

  /**
   * The keydown listener. Typing in a text field triggers nothing. Otherwise,
   * on the first selected node: ctrl+c copies it, ctrl+v pastes into it (or
   * as a new node when none is selected), Delete or Backspace deletes it,
   * ctrl+d duplicates it and always suppresses the browser's bookmark
   * shortcut. The source tests the four cases one after another; their keys
   * differ, so at most one applies.
   */
  function KeyDispatch(focus: Focus, ctrl: bool, key: string, selected: Option<string>): (d: Dispatch)
    ensures focus != Elsewhere ==> d == Dispatch(false, NoAction)
    ensures d.preventDefault <==> focus == Elsewhere && ctrl && key == "d"
    ensures d.action.CopySelected? || d.action.PasteIntoSelected? || d.action.DeleteSelected? || d.action.DuplicateSelected? ==>
      selected == Some(d.action.id)
    ensures d.action == PasteAsNew <==> focus == Elsewhere && ctrl && key == "v" && selected.None?
    ensures d.action.DeleteSelected? <==> focus == Elsewhere && (key == "Delete" || key == "Backspace") && selected.Some?
    ensures d.action.CopySelected? <==> focus == Elsewhere && ctrl && key == "c" && selected.Some?
    ensures d.action.PasteIntoSelected? <==> focus == Elsewhere && ctrl && key == "v" && selected.Some?
    ensures d.action.DuplicateSelected? <==> focus == Elsewhere && ctrl && key == "d" && selected.Some?
  {
    if focus != Elsewhere then Dispatch(false, NoAction)
    else if ctrl && key == "c" then
      Dispatch(false, if selected.Some? then CopySelected(selected.value) else NoAction)
    else if ctrl && key == "v" then
      Dispatch(false, if selected.Some? then PasteIntoSelected(selected.value) else PasteAsNew)
    else if key == "Delete" || key == "Backspace" then
      Dispatch(false, if selected.Some? then DeleteSelected(selected.value) else NoAction)
    else if ctrl && key == "d" then
      Dispatch(true, if selected.Some? then DuplicateSelected(selected.value) else NoAction)
    else Dispatch(false, NoAction)
  }

  /** What running a dispatched action does. */
  function Perform(nodes: seq<Node>, clip: Clipboard, action: KeyAction, randomPos: Point, clock: NodeManager.Clock): (e: Effect)
    ensures action == NoAction ==> e == Effect(nodes, clip, [])
  {
    match action
    case NoAction => Effect(nodes, clip, [])
    case CopySelected(id) => CopyEffect(nodes, clip, id)
    case PasteIntoSelected(id) => PasteEffect(nodes, clip, Some(id), randomPos, clock)
    case PasteAsNew => PasteEffect(nodes, clip, None, randomPos, clock)
    case DeleteSelected(id) => Effect(DeleteNodeFrom(nodes, id), clip, [Deleted])
    case DuplicateSelected(id) => DuplicateEffect(nodes, clip, id, clock)
  }

  /**
   * The node handlers bound to the editor's canvas, with the clipboard slot
   * they share across documents.
   */
  class NodeHandlers {
    const canvas: Canvas
    var clipboard: Clipboard

    constructor (canvas: Canvas, clipboard: Clipboard)
      ensures this.canvas == canvas && this.clipboard == clipboard
    {
      this.canvas := canvas;
      this.clipboard := clipboard;
    }

    method DeleteNode(id: string) returns (notices: seq<Notice>)
      modifies canvas
      ensures canvas.nodes == DeleteNodeFrom(old(canvas.nodes), id)
      ensures canvas.edges == old(canvas.edges)
      ensures notices == [Deleted]
    {
      canvas.nodes := DeleteNodeFrom(canvas.nodes, id);
      notices := [Deleted];
    }

    method UpdateNodeData(id: string, patch: NodeData)
      modifies canvas
      ensures canvas.nodes == UpdateNodeDataIn(old(canvas.nodes), id, patch)
      ensures canvas.edges == old(canvas.edges)
    {
      canvas.nodes := UpdateNodeDataIn(canvas.nodes, id, patch);
    }

    /** The hook's `addNode`: `addNode` on the canvas, then an "added" notice even when no type was given. */
    method AddNode(nodeType: Option<string>, overrides: NodeData, randomPos: Point, clock: NodeManager.Clock) returns (notices: seq<Notice>)
      modifies canvas
      ensures canvas.nodes == NodeManager.AddNode(old(canvas.nodes), nodeType, overrides, randomPos, clock)
      ensures canvas.edges == old(canvas.edges)
      ensures notices == [Added]
    {
      canvas.nodes := NodeManager.AddNode(canvas.nodes, nodeType, overrides, randomPos, clock);
      notices := [Added];
    }

    method CopyNode(id: string) returns (notices: seq<Notice>)
      modifies this
      ensures var e := CopyEffect(canvas.nodes, old(clipboard), id);
        clipboard == e.clipboard && notices == e.notices
    {
      var e := CopyEffect(canvas.nodes, clipboard, id);
      clipboard := e.clipboard;
      notices := e.notices;
    }

    method PasteNode(target: Option<string>, randomPos: Point, clock: NodeManager.Clock) returns (notices: seq<Notice>)
      modifies canvas
      ensures var e := PasteEffect(old(canvas.nodes), clipboard, target, randomPos, clock);
        canvas.nodes == e.nodes && notices == e.notices
      ensures canvas.edges == old(canvas.edges)
    {
      var e := PasteEffect(canvas.nodes, clipboard, target, randomPos, clock);
      canvas.nodes := e.nodes;
      notices := e.notices;
    }

    method DuplicateNode(id: string, clock: NodeManager.Clock) returns (notices: seq<Notice>)
      modifies canvas
      ensures var e := DuplicateEffect(old(canvas.nodes), clipboard, id, clock);
        canvas.nodes == e.nodes && notices == e.notices
      ensures canvas.edges == old(canvas.edges)
    {
      var e := DuplicateEffect(canvas.nodes, clipboard, id, clock);
      canvas.nodes := e.nodes;
      notices := e.notices;
    }

    /** The `duplicate-node` event from the context menu: the same path as `DuplicateNode`. */
    method OnDuplicateEvent(detailId: string, clock: NodeManager.Clock) returns (notices: seq<Notice>)
      modifies canvas
      ensures var e := DuplicateEffect(old(canvas.nodes), clipboard, detailId, clock);
        canvas.nodes == e.nodes && notices == e.notices
      ensures canvas.edges == old(canvas.edges)
    {
      notices := DuplicateNode(detailId, clock);
    }

    /** The keydown listener: dispatch on the first selected node, then run the chosen handler. */
    method HandleKeyDown(focus: Focus, ctrl: bool, key: string, randomPos: Point, clock: NodeManager.Clock)
      returns (preventDefault: bool, notices: seq<Notice>)
      modifies this, canvas
      ensures var d := KeyDispatch(focus, ctrl, key, FirstSelectedId(old(canvas.nodes)));
        var e := Perform(old(canvas.nodes), old(clipboard), d.action, randomPos, clock);
        && preventDefault == d.preventDefault
        && canvas.nodes == e.nodes && clipboard == e.clipboard && notices == e.notices
      ensures canvas.edges == old(canvas.edges)
    {
      var d := KeyDispatch(focus, ctrl, key, FirstSelectedId(canvas.nodes));
      preventDefault := d.preventDefault;
      match d.action
      case NoAction =>
        notices := [];
      case CopySelected(id) =>
        notices := CopyNode(id);
      case PasteIntoSelected(id) =>
        notices := PasteNode(Some(id), randomPos, clock);
      case PasteAsNew =>
        notices := PasteNode(None, randomPos, clock);
      case DeleteSelected(id) =>
        notices := DeleteNode(id);
      case DuplicateSelected(id) =>
        notices := DuplicateNode(id, clock);
    }
  }
}
