/**
 * The document lifecycle of the editor: creating, loading, saving, exporting
 * and deleting named mind maps against the persisted store, and keeping the
 * canvas and the current document name in step.
 */
module Lifecycle {

  import opened Opt
  import opened Types
  import opened Storage
  import opened EditorState
  import InitialData

  /**
   * Everything the transitions read and change: the store, the current
   * document name ('' for an unsaved document), the canvas, and the name
   * waiting for delete confirmation.
   */
  datatype Editor = Editor(slot: StoreSlot, current: string, nodes: seq<Node>, edges: seq<Edge>, pending: Option<string>)

  /** The notification (or export window) a transition produces. */
  datatype Report =
    | Silent
    | Created(name: string) | CreateFailed
    | Loaded(name: string) | LoadFailed(name: string)
    | Deleted(name: string) | DeleteFailed(name: string)
    | Saved(name: string)
    | ExportError | OpenExport(name: string)

  datatype Step = Step(editor: Editor, report: Report)

  /** The document every new mind map starts as. */
  function Fresh(name: string): Doc {
    Doc(InitialData.InitialNodes, InitialData.InitialEdges, name)
  }

  /**
   * `createNewMindMap`, given the prompt's answer: a cancelled or empty name
   * does nothing; otherwise a fresh document is stored under the name and, if
   * that succeeds, shown and made current; if it fails nothing changes.
   */
  function Create(e: Editor, answer: Option<string>, writeOk: bool): (s: Step)
    ensures !Truthy(answer) ==> s == Step(e, Silent)
    ensures Truthy(answer) && SaveTo(e.slot, Fresh(answer.value), writeOk).1 ==>
      s == Step(e.(slot := SaveTo(e.slot, Fresh(answer.value), writeOk).0,
                   current := answer.value, nodes := InitialData.InitialNodes, edges := []),
                Created(answer.value))
    ensures Truthy(answer) && !SaveTo(e.slot, Fresh(answer.value), writeOk).1 ==> s == Step(e, CreateFailed)
  {
    if !Truthy(answer) then Step(e, Silent)
    else
      var name := answer.value;
      var (slot, ok) := SaveTo(e.slot, Fresh(name), writeOk);
      if ok then Step(e.(slot := slot, current := name, nodes := InitialData.InitialNodes, edges := []), Created(name))
      else Step(e, CreateFailed)
  }

  /** `loadExistingMindMap`: a stored document replaces the canvas and becomes current; an absent one changes nothing. */
  function Load(e: Editor, name: string): (s: Step)
    ensures LoadFrom(e.slot, name).None? ==> s == Step(e, LoadFailed(name))
    ensures LoadFrom(e.slot, name).Some? ==>
      s == Step(e.(nodes := LoadFrom(e.slot, name).value.nodes, edges := LoadFrom(e.slot, name).value.edges, current := name), Loaded(name))
  {
    match LoadFrom(e.slot, name)
    case Some(d) => Step(e.(nodes := d.nodes, edges := d.edges, current := name), Loaded(name))
    case None => Step(e, LoadFailed(name))
  }

  /** `handleDeleteMindMap`: only records the name awaiting confirmation. */
  function RequestDelete(e: Editor, name: string): (r: Editor)
    ensures r.pending == Some(name) && r.(pending := e.pending) == e
  {
    e.(pending := Some(name))
  }

  /**
   * `confirmDeleteMindMap`: nothing without a (non-empty) name; otherwise the
   * store delete runs, and if it succeeds on the current document the editor
   * goes back to the initial canvas with no current name.
   */
  function ConfirmDelete(e: Editor, target: Option<string>, writeOk: bool): (s: Step)
    ensures !Truthy(target) ==> s == Step(e, Silent)
    ensures Truthy(target) && !DeleteFrom(e.slot, target.value, writeOk).1 ==> s == Step(e, DeleteFailed(target.value))
    ensures Truthy(target) && DeleteFrom(e.slot, target.value, writeOk).1 ==>
      && s.report == Deleted(target.value)
      && s.editor.slot == DeleteFrom(e.slot, target.value, writeOk).0
      && s.editor.pending == e.pending
      && (e.current == target.value ==>
            s.editor.current == "" && s.editor.nodes == InitialData.InitialNodes && s.editor.edges == [])
      && (e.current != target.value ==>
            s.editor.current == e.current && s.editor.nodes == e.nodes && s.editor.edges == e.edges)
  {
    if !Truthy(target) then Step(e, Silent)
    else
      var name := target.value;
      var (slot, ok) := DeleteFrom(e.slot, name, writeOk);
      if !ok then Step(e, DeleteFailed(name))
      else if e.current == name then
        Step(e.(slot := slot, current := "", nodes := InitialData.InitialNodes, edges := []), Deleted(name))
      else Step(e.(slot := slot), Deleted(name))
  }

  /** The confirm button of the delete dialog: confirm the pending name, then clear it. */
  function ConfirmPending(e: Editor, writeOk: bool): (s: Step)
    ensures s.editor.pending == None
    ensures s.editor.(pending := e.pending) == ConfirmDelete(e, e.pending, writeOk).editor
  {
    var s := ConfirmDelete(e, e.pending, writeOk);
    Step(s.editor.(pending := None), s.report)
  }

  /**
   * `saveCurrentMindMap`: with a current name the canvas is stored under it;
   * without one, the prompt's answer becomes the current name first (an
   * empty or cancelled answer aborts). Success is reported whatever the
   * store returns.
   */
  function SaveCurrent(e: Editor, answer: Option<string>, writeOk: bool): (s: Step)
    ensures e.current == "" && !Truthy(answer) ==> s == Step(e, Silent)
    ensures e.current != "" ==>
      s == Step(e.(slot := SaveTo(e.slot, Doc(e.nodes, e.edges, e.current), writeOk).0), Saved(e.current))
    ensures e.current == "" && Truthy(answer) ==>
      s == Step(e.(slot := SaveTo(e.slot, Doc(e.nodes, e.edges, answer.value), writeOk).0, current := answer.value),
                Saved(answer.value))
  {
    if e.current == "" then
      if !Truthy(answer) then Step(e, Silent)
      else
        var name := answer.value;
        Step(e.(slot := SaveTo(e.slot, Doc(e.nodes, e.edges, name), writeOk).0, current := name), Saved(name))
    else Step(e.(slot := SaveTo(e.slot, Doc(e.nodes, e.edges, e.current), writeOk).0), Saved(e.current))
  }

  /** `handleExport`: an error without a current name, otherwise the export page for it. */
  function Export(e: Editor): (r: Report)
    ensures r == ExportError <==> e.current == ""
    ensures r != ExportError ==> r == OpenExport(e.current)
  {
    if e.current == "" then ExportError else OpenExport(e.current)
  }

  // ---- the canvas agrees with the store ----

  /** Every entry is stored under its own name, as saves always do. */
  predicate WellKeyed(slot: StoreSlot) {
    slot != Unreadable ==> forall k :: k in Contents(slot) ==> Contents(slot)[k].name == k
  }

  /** The canvas shows exactly what the store holds under the current name (trivially so for an unsaved document). */
  predicate InStep(e: Editor) {
    e.current != "" ==> LoadFrom(e.slot, e.current) == Some(Doc(e.nodes, e.edges, e.current))
  }

  /** Saving and deleting keep every entry stored under its own name. */
  lemma StoreStaysWellKeyed(slot: StoreSlot, d: Doc, name: string, writeOk: bool)
    requires WellKeyed(slot)
    ensures WellKeyed(SaveTo(slot, d, writeOk).0)
    ensures WellKeyed(DeleteFrom(slot, name, writeOk).0)
  {
  }

  /**
   * A successful create, a successful load from a well-keyed store, and a save
   * whose write succeeds each leave the canvas in step with the store.
   */
  lemma TransitionsBringInStep(e: Editor, answer: Option<string>, name: string)
    requires WellKeyed(e.slot)
    ensures Create(e, answer, true).report.Created? ==> InStep(Create(e, answer, true).editor)
    ensures Load(e, name).report.Loaded? ==> InStep(Load(e, name).editor)
    ensures e.slot != Unreadable ==> InStep(SaveCurrent(e, answer, true).editor)
  {
  }

  /** A confirmed delete keeps the canvas in step with the store. */
  lemma ConfirmDeleteKeepsInStep(e: Editor, target: Option<string>, writeOk: bool)
    requires InStep(e)
    ensures InStep(ConfirmDelete(e, target, writeOk).editor)
  {
    if Truthy(target) && e.current != "" && e.current != target.value {
      DeleteKeepsOthers(e.slot, target.value, writeOk, e.current);
    }
  }

  /** Saving and then loading the current document changes nothing on the canvas. */
  lemma SaveThenReload(e: Editor)
    requires e.current != "" && e.slot != Unreadable
    ensures var saved := SaveCurrent(e, None, true).editor;
      Load(saved, e.current).editor == saved
  {
    SaveThenLoad(e.slot, Doc(e.nodes, e.edges, e.current));
  }

  /** A created document loads back as the initial canvas. */
  lemma CreateThenLoad(e: Editor, name: string)
    requires name != "" && e.slot != Unreadable
    ensures var created := Create(e, Some(name), true).editor;
      var loaded := Load(created, name);
      loaded.report == Loaded(name) && loaded.editor.nodes == InitialData.InitialNodes && loaded.editor.edges == []
  {
    SaveThenLoad(e.slot, Fresh(name));
  }

  /**
   * The storage controls of the editor, bound to the shared canvas and the
   * store, with the current document name and the name awaiting deletion.
   */
  class MindMapLifecycle {
    const canvas: Canvas
    const store: LocalStore
    var currentName: string
    var pendingDelete: Option<string>

    function State(): Editor
      reads this, canvas, store
    {
      Editor(store.slot, currentName, canvas.nodes, canvas.edges, pendingDelete)
    }

    constructor (canvas: Canvas, store: LocalStore)
      ensures this.canvas == canvas && this.store == store
      ensures currentName == "" && pendingDelete == None
    {
      this.canvas := canvas;
      this.store := store;
      currentName := "";
      pendingDelete := None;
    }

    method CreateNewMindMap(answer: Option<string>, writeOk: bool) returns (report: Report)
      modifies this, canvas, store
      ensures Step(State(), report) == Create(old(State()), answer, writeOk)
    {
      if !Truthy(answer) {
        return Silent;
      }
      var name := answer.value;
      var ok := store.SaveMindMap(Fresh(name), writeOk);
      if ok {
        canvas.nodes := InitialData.InitialNodes;
        canvas.edges := [];
        currentName := name;
        report := Created(name);
      } else {
        report := CreateFailed;
      }
    }

    method LoadExistingMindMap(name: string) returns (report: Report)
      modifies this, canvas
      ensures Step(State(), report) == Load(old(State()), name)
    {
      var d := store.LoadMindMap(name);
      if d.Some? {
        canvas.nodes := d.value.nodes;
        canvas.edges := d.value.edges;
        currentName := name;
        report := Loaded(name);
      } else {
        report := LoadFailed(name);
      }
    }

    method HandleDeleteMindMap(name: string)
      modifies this
      ensures State() == RequestDelete(old(State()), name)
    {
      pendingDelete := Some(name);
    }

    method ConfirmDeleteMindMap(target: Option<string>, writeOk: bool) returns (report: Report)
      modifies this, canvas, store
      ensures Step(State(), report) == ConfirmDelete(old(State()), target, writeOk)
    {
      if !Truthy(target) {
        return Silent;
      }
      var name := target.value;
      var ok := store.DeleteMindMap(name, writeOk);
      if ok {
        if currentName == name {
          canvas.nodes := InitialData.InitialNodes;
          canvas.edges := [];
          currentName := "";
        }
        report := Deleted(name);
      } else {
        report := DeleteFailed(name);
      }
    }

    /** The dialog's confirm button. */
    method ConfirmPendingDelete(writeOk: bool) returns (report: Report)
      modifies this, canvas, store
      ensures Step(State(), report) == ConfirmPending(old(State()), writeOk)
    {
      report := ConfirmDeleteMindMap(pendingDelete, writeOk);
      pendingDelete := None;
    }

    method SaveCurrentMindMap(answer: Option<string>, writeOk: bool) returns (report: Report)
      modifies this, store
      ensures Step(State(), report) == SaveCurrent(old(State()), answer, writeOk)
    {
      if currentName == "" {
        if !Truthy(answer) {
          return Silent;
        }
        currentName := answer.value;
      }
      // The store's answer is dropped: success is reported either way.
      var _ := store.SaveMindMap(Doc(canvas.nodes, canvas.edges, currentName), writeOk);
      report := Saved(currentName);
    }

    method HandleExport() returns (report: Report)
      ensures report == Export(State())
    {
      report := if currentName == "" then ExportError else OpenExport(currentName);
    }
  }
}
