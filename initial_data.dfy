/** The canonical empty document: one title node and no edges. */
module InitialData {

  import opened Opt
  import opened Types
  import NodeManager

  const InitialNodes: seq<Node> := [
    Node("1", "base", Point(400.0, 200.0),
      EmptyData.(
        caption := Some("Main Idea"),
        nodeType := Some("title"),
        backgroundColor := Some("white"),
        strokeColor := Some("black"),
        strokeWidth := Some(1),
        strokeStyle := Some("solid"),
        fontSize := Some("xs"),
        textAlign := Some("center"),
        opacity := Some(1.0)),
      false)]

  const InitialEdges: seq<Edge> := []

  /** One node, id '1', drawn by the generic renderer at (400, 200), a title labelled 'Main Idea'; no edges. */
  lemma InitialDocumentShape()
    ensures |InitialNodes| == 1 && InitialEdges == []
    ensures InitialNodes[0].id == "1" && InitialNodes[0].kind == "base"
    ensures InitialNodes[0].position == Point(400.0, 200.0)
    ensures InitialNodes[0].data.nodeType == Some("title") && InitialNodes[0].data.caption == Some("Main Idea")
    ensures InitialNodes[0].kind == NodeManager.RenderKind("title")
  {
  }

  /**
   * The initial node is what `addNode('title', {label: 'Main Idea'})` would
   * build, except that it carries no `hasCheckbox` and `isChecked` keys: its
   * style fields are exactly `addNode`'s defaults.
   */
  lemma InitialNodeUsesAddNodeDefaults(clock: NodeManager.Clock)
    ensures var built := NodeManager.NewNodeData("title", EmptyData.(caption := Some("Main Idea")), clock);
      InitialNodes[0].data == built.(hasCheckbox := None, isChecked := None)
  {
    var built := NodeManager.NewNodeData("title", EmptyData.(caption := Some("Main Idea")), clock);
    var expected := built.(hasCheckbox := None, isChecked := None);
    assert Extends(InitialNodes[0].data, expected) && Extends(expected, InitialNodes[0].data);
    SameKeys(InitialNodes[0].data, expected);
  }
}
