/** The editor's live document state: the node list and the edge list every handler reads and replaces. */
module EditorState {

  import opened Types
  import InitialData

  class Canvas {
    var nodes: seq<Node>
    var edges: seq<Edge>

    /** The editor opens on the canonical empty document. */
    constructor ()
      ensures nodes == InitialData.InitialNodes && edges == InitialData.InitialEdges
    {
      nodes := InitialData.InitialNodes;
      edges := InitialData.InitialEdges;
    }
  }
}
