# Mind map editor: document model and edit operations

This project models the logic of a browser mind-map editor and proves properties of that model. The editor is a React and ReactFlow application.

A mind map is a list of nodes and a list of edges. Each node carries a record of optional fields: its label, its type, its style, and structured content such as links, a legend, checklist items, timeline events and resources. The model covers:

- the node operations: add, update-by-id, delete, copy, paste and duplicate, plus the keyboard shortcuts and context menu that route to them;
- the edge operations: update by id with its three translation tables, connect, and click-to-select;
- the local store of named documents, and the read-only renderer that looks documents up in it;
- the document lifecycle: create, load, save, delete with confirmation, and export;
- the settings panels that edit checklist items, timeline events, resources and tags, content links, legends, shadows, glows, layers, rotation and the transparent background;
- the checklist node (toggling, placeholder items, progress) and the generic node (font size, style, checkbox, in-place label editing).

How the source's JavaScript is expressed:

- A node's data is the `Types.NodeData` record. `None` stands for a key that is absent or `undefined`, and unknown keys live in a string map.
- Object spread `{...base, ...patch}` is `Types.MergeData`: the patch's keys win and every other key is kept.
- `a || d` is `StrOr`, `IntOr`, `RealOr` or `BoolOr`, with JavaScript's falsy values (`""`, `0`, `false`, absent).
- The shared React state (nodes, edges) is the `EditorState.Canvas` class. Each hook is a class that holds a reference to it and updates it in place.
- The local store is the `Storage.LocalStore` class, holding one slot: no entry, a map of documents, or unreadable text.
- Every operation that has state is a method proved against a pure function. The lemmas are stated about those functions.
- The label field is called `caption`, because `label` is reserved in Dafny.

## Model

| member | source | states |
|---|---|---|
| NodeManager.DecimalString | src/components/mindmap/MindMapNodeManager.ts:13 | The id text is a non-empty string of decimal digits, with at least two digits from 10 on |
| NodeManager.DecimalRoundTrip | src/components/mindmap/MindMapNodeManager.ts:13 | Reading the decimal text back gives the number it was made from |
| NodeManager.DecimalStringInjective | src/components/mindmap/MindMapNodeManager.ts:13 | Different counts give different id strings |
| NodeManager.NewId | src/components/mindmap/MindMapNodeManager.ts:13 | A new node's id reads as the current node count plus one |
| NodeManager.RenderKind | src/components/mindmap/MindMapNodeManager.ts:40-53 | The renderer is the type itself exactly for section, checklist, timeline and resource (and base); every other type draws as base |
| NodeManager.ShapesRenderAsBase | src/components/mindmap/MindMapNodeManager.ts:40-53 | Circle, rectangle, square and triangle all draw with the generic renderer |
| NodeManager.UpperAscii | src/components/mindmap/MindMapNodeManager.ts:75 | A lower-case ASCII letter becomes its upper-case letter; every other character is kept; the result is never a lower-case letter |
| NodeManager.Capitalize | src/components/mindmap/MindMapNodeManager.ts:75 | Same length; the first character is upper-cased (ASCII letters only, see Left out) and the rest are kept |
| NodeManager.DefaultLabel | src/components/mindmap/MindMapNodeManager.ts:56-77 | The eight known types get their fixed label; any other type gets itself capitalised |
| NodeManager.DefaultLabelExamples | src/components/mindmap/MindMapNodeManager.ts:56-77 | topic gives "Topic", checklist gives "Study Checklist", an unknown "circle" gives "Circle" |
| NodeManager.TypeSpecificData | src/components/mindmap/MindMapNodeManager.ts:80-114 | Checklist items appear exactly for checklist, events exactly for timeline, resources exactly for resource; a timeline starts now and ends a week later, and no other type gets dates; any other type adds no keys |
| NodeManager.StarterContents | src/components/mindmap/MindMapNodeManager.ts:86-110 | Three unchecked items with ids 1-3 and priorities high/medium/low; three events whose first and last are milestones dated now and next week; two resources |
| NodeManager.NewNodeData | src/components/mindmap/MindMapNodeManager.ts:15-29 | Every override key appears verbatim; each missing style key gets its default (white, black, 1, solid, xs, center, 1, false, false, the type's label and the type); missing list keys and timeline dates come from the type's starter data |
| NodeManager.AddNode | src/components/mindmap/MindMapNodeManager.ts:4-37 | An absent or empty type leaves the list unchanged; otherwise exactly one node is appended, with the old nodes kept, id = count+1, the type's renderer, the override position or else the random one, and NewNodeData as its data |
| InitialData.InitialDocumentShape | src/components/mindmap/MindMapInitialData.ts:4-23 | One node, id 1, generic renderer, at (400,200), a title labelled Main Idea; no edges |
| InitialData.InitialNodeUsesAddNodeDefaults | src/components/mindmap/MindMapInitialData.ts:8-18 | The starting node's data equals what addNode builds for a title labelled Main Idea, without the checkbox keys |
| EditorState.Canvas.constructor | src/components/mindmap/MindMap.tsx:54-55 | The canvas starts with the initial nodes and no edges |
| Types.StrOr | src/components/mindmap/settings/ShapeSettings.tsx:52 | JavaScript `or` default on text: a non-empty value wins, else the default; the result is empty only if the default is |
| Types.IntOr | src/components/mindmap/settings/ShapeSettings.tsx:53-55 | JavaScript `or` default on numbers: a non-zero value wins, else the default; the result is 0 only if the default is |
| Types.BoolOr | src/components/mindmap/settings/ShapeSettings.tsx:29-30 | JavaScript `or` default on flags: true exactly when the value is true or the default is |
| Types.RealOr | src/components/mindmap/MindMapNodeManager.ts:24 | JavaScript `or` default on decimals: a non-zero value wins, else the default; the result is 0 only if the default is |
| Types.Truthy | src/components/mindmap/BaseNode.tsx:131 | A text key counts as set exactly when it is present and non-empty |
| Types.Pick | src/components/mindmap/hooks/useMindMapNodeHandlers.ts:32-35 | One key of a spread: present when either side has it; the patch's value wins |
| Types.MergeData | src/components/mindmap/hooks/useMindMapNodeHandlers.ts:32-35 | Spread: every patch key is in the result verbatim, every key the patch lacks keeps its old value, and no other unknown key appears |
| Types.SameKeys | src/components/mindmap/types.ts:23-41 | Two records that each carry all of the other's keys are equal |
| Types.MergeAlreadyPresent | src/components/mindmap/hooks/useMindMapNodeHandlers.ts:32-35 | Merging a patch whose keys the data already holds changes nothing |
| Types.MergeEmpty | src/components/mindmap/hooks/useMindMapNodeHandlers.ts:32-35 | Merging an empty patch changes nothing |
| Types.MergeIdempotent | src/components/mindmap/hooks/useMindMapNodeHandlers.ts:32-35 | Applying the same patch twice is the same as applying it once |
| Types.MergeEdgeData | src/components/mindmap/hooks/useMindMapEdgeHandlers.ts:47-50 | Each key the edge patch gives wins; each it lacks is kept; an empty patch changes nothing |
| Types.MergeContent | src/components/mindmap/NodeSettings.tsx:40-46 | Each content key the change gives wins, each it lacks is kept |
| Seqs.Filter | src/components/mindmap/hooks/useMindMapNodeHandlers.ts:17 | No longer than the input; every kept element is in the input and satisfies the predicate |
| Seqs.FilterAppend | src/components/mindmap/hooks/useMindMapNodeHandlers.ts:17 | Filtering a concatenation filters each part |
| Seqs.FilterKeeps | src/components/mindmap/hooks/useMindMapNodeHandlers.ts:17 | An element that satisfies the predicate is kept |
| Seqs.FilterExactly | src/components/mindmap/hooks/useMindMapNodeHandlers.ts:17 | An element is in the result if and only if it is in the input and satisfies the predicate |
| Seqs.FilterAll | src/components/mindmap/hooks/useMindMapNodeHandlers.ts:17 | When every element passes, the filter returns the list itself |
| Seqs.Count | src/components/mindmap/node-components/ChecklistNode.tsx:44 | The count of passing elements is at most the length |
| Seqs.FilterLength | src/components/mindmap/node-components/ChecklistNode.tsx:44 | The length of the filtered list is the count of passing elements |
| Seqs.CountExtremes | src/components/mindmap/node-components/ChecklistNode.tsx:44 | None passing gives 0; all passing gives the length |
| Seqs.MapWhere | src/components/mindmap/hooks/useMindMapNodeHandlers.ts:27-38 | Same length; each element that matches is transformed, every other one kept |
| Seqs.MapWhereTwice | src/components/mindmap/settings/ChecklistSettings.tsx:103-105 | A self-inverse transform applied twice by id restores the list |
| Seqs.IndexOf | src/components/mindmap/settings/ChecklistSettings.tsx:111 | findIndex: the first matching index, or -1 exactly when nothing matches |
| Seqs.Find | src/components/mindmap/hooks/useMindMapNodeHandlers.ts:55 | find: present exactly when some element matches, and then the first one |
| Seqs.WithoutIndex | src/components/mindmap/NodeSettings.tsx:92 | One element shorter exactly when the index is in range; every kept element comes from the input |
| Seqs.WithoutIndexSlices | src/components/mindmap/NodeSettings.tsx:90 | Dropping one index keeps the elements before and after it in order; an out-of-range index changes nothing |
| Seqs.RemoveAt | src/components/mindmap/settings/ChecklistSettings.tsx:121 | Removing one element shortens the list by one |
| Seqs.InsertAt | src/components/mindmap/settings/ChecklistSettings.tsx:122 | Inserting one element lengthens the list by one |
| Seqs.Swap | src/components/mindmap/settings/ChecklistSettings.tsx:120-122 | The two positions exchange, all others are kept, and the elements are a permutation of the input |
| Seqs.Move | src/components/mindmap/settings/ChecklistSettings.tsx:120-122 | Moving an element keeps the length |
| Seqs.MoveKeepsMultiset | src/components/mindmap/settings/ChecklistSettings.tsx:120-122 | Moving an element is a permutation |
| Seqs.MoveElements | src/components/mindmap/settings/ChecklistSettings.tsx:120-122 | The moved element lands at the target; the elements in between shift by one toward the gap; the rest stay |
| Seqs.MoveIsSplice | src/components/mindmap/settings/ChecklistSettings.tsx:121-122 | Moving is removing at the source, then inserting that element at the target |
| Seqs.MoveAdjacentIsSwap | src/components/mindmap/settings/ChecklistSettings.tsx:117-122 | Moving to a neighbouring index is swapping with it |
| NodeHandlers.DeleteNodeFrom | src/components/mindmap/hooks/useMindMapNodeHandlers.ts:16-17 | A node survives if and only if it was there and its id differs, so every node with a repeated id goes |
| NodeHandlers.DeleteNodeAppend | src/components/mindmap/hooks/useMindMapNodeHandlers.ts:16-17 | Deleting keeps order: deleting from a concatenation deletes from each part |
| NodeHandlers.DeleteAbsentId | src/components/mindmap/hooks/useMindMapNodeHandlers.ts:16-17 | Deleting an id no node has leaves the list unchanged |
| NodeHandlers.UpdateNodeDataIn | src/components/mindmap/hooks/useMindMapNodeHandlers.ts:26-40 | Same length; id, renderer, position and selection kept; nodes with another id unchanged; a matching node's data carries every patch key, keeps every key the patch lacks, and has exactly the unknown keys of the two |
| NodeHandlers.UpdateWithEmptyPatch | src/components/mindmap/hooks/useMindMapNodeHandlers.ts:26-40 | An empty patch leaves the node list equal |
| NodeHandlers.FindNode | src/components/mindmap/hooks/useMindMapNodeHandlers.ts:55 | Some exactly when a node has the id; the result is the FIRST node with that id |
| NodeHandlers.FirstSelectedId | src/components/mindmap/hooks/useMindMapNodeHandlers.ts:131 | Some exactly when a node is selected; the result is the id of the FIRST selected node |
| NodeHandlers.Offset | src/components/mindmap/hooks/useMindMapNodeHandlers.ts:109-112 | A duplicate lands 50 to the right and 50 below its source, so never on it |
| NodeHandlers.TypeOrTopic | src/components/mindmap/hooks/useMindMapNodeHandlers.ts:106 | The node's type when it is non-empty, else "topic"; never empty |
| NodeHandlers.CopyEffect | src/components/mindmap/hooks/useMindMapNodeHandlers.ts:54-64 | An unknown id changes nothing; a known one puts the first such node's data on the clipboard with a Copied notice; nodes never change |
| NodeHandlers.PasteEffect | src/components/mindmap/hooks/useMindMapNodeHandlers.ts:67-99 | Empty clipboard: nothing. Unparsable: nodes unchanged, error notice. A truthy target merges the data like updateNodeData; otherwise addNode with type data.nodeType or topic |
| NodeHandlers.DuplicateEffect | src/components/mindmap/hooks/useMindMapNodeHandlers.ts:102-121 | An unknown id changes nothing; the clipboard is never touched |
| NodeHandlers.DuplicateAppendsCopy | src/components/mindmap/hooks/useMindMapNodeHandlers.ts:102-121 | Duplicating a known id appends one node at the source position plus (50,50), carrying all the source data, with the old nodes kept |
| NodeHandlers.CopyThenPasteAsNew | src/components/mindmap/hooks/useMindMapNodeHandlers.ts:54-99 | Copy then paste with nothing selected appends one node holding all the copied data, at the copied position if the data has one |
| NodeHandlers.AddThenDelete | src/components/mindmap/hooks/useMindMapNodeHandlers.ts:16-17 | Deleting the id just added restores the list when no older node shares it |
| NodeHandlers.IdReuseAfterDelete | src/components/mindmap/MindMapNodeManager.ts:13 | After deleting node 1 of [1,2], the next add also gets id 2, and deleting 2 removes both |
| NodeHandlers.KeyDispatch | src/components/mindmap/hooks/useMindMapNodeHandlers.ts:124-163 | Typing in an input does nothing; otherwise ctrl+c copies, ctrl+v pastes into the selected node or creates one, Delete/Backspace deletes, ctrl+d duplicates (each iff its key and, where it names a node, a selected node); only ctrl+d suppresses the default |
| NodeHandlers.Perform | src/components/mindmap/hooks/useMindMapNodeHandlers.ts:131-162 | No action means no change |
| NodeHandlers.NodeHandlers.constructor | src/components/mindmap/hooks/useMindMapNodeHandlers.ts:12-13 | The handlers act on the given canvas and clipboard |
| NodeHandlers.NodeHandlers.DeleteNode | src/components/mindmap/hooks/useMindMapNodeHandlers.ts:16-23 | The nodes become DeleteNodeFrom of the old nodes; edges are untouched; a Deleted notice always |
| NodeHandlers.NodeHandlers.UpdateNodeData | src/components/mindmap/hooks/useMindMapNodeHandlers.ts:26-41 | The nodes become UpdateNodeDataIn of the old nodes; edges untouched |
| NodeHandlers.NodeHandlers.AddNode | src/components/mindmap/hooks/useMindMapNodeHandlers.ts:44-51 | The nodes become addNode's result; an Added notice always |
| NodeHandlers.NodeHandlers.CopyNode | src/components/mindmap/hooks/useMindMapNodeHandlers.ts:54-64 | Clipboard and notices as CopyEffect |
| NodeHandlers.NodeHandlers.PasteNode | src/components/mindmap/hooks/useMindMapNodeHandlers.ts:67-99 | Nodes and notices as PasteEffect; edges untouched |
| NodeHandlers.NodeHandlers.DuplicateNode | src/components/mindmap/hooks/useMindMapNodeHandlers.ts:102-121 | Nodes and notices as DuplicateEffect |
| NodeHandlers.NodeHandlers.OnDuplicateEvent | src/components/mindmap/hooks/useMindMapNodeHandlers.ts:173-184 | The duplicate-node event has exactly the effect of duplicateNode on its detail id |
| NodeHandlers.NodeHandlers.HandleKeyDown | src/components/mindmap/hooks/useMindMapNodeHandlers.ts:124-170 | The key is dispatched on the first selected node and the chosen action's effect is applied |
| EdgeHandlers.PathStyleType | src/components/mindmap/hooks/useMindMapEdgeHandlers.ts:27-40 | smoothstep iff smoothstep; step iff step or zigzag; bezier iff curved, loopback or wavy; default otherwise |
| EdgeHandlers.MarkerFor | src/components/mindmap/hooks/useMindMapEdgeHandlers.ts:18-24 | true gives a closed arrow, false removes the marker, absent keeps it |
| EdgeHandlers.DashFor | src/components/mindmap/hooks/useMindMapEdgeHandlers.ts:53-57 | A dash pattern exists iff the stroke style is dashed or dotted |
| EdgeHandlers.UpdatedEdge | src/components/mindmap/hooks/useMindMapEdgeHandlers.ts:14-60 | Identity, endpoints and animation kept; markers, type, data and style follow the tables; stroke and width keep old values when the patch's are falsy |
| EdgeHandlers.UpdateEdgeIn | src/components/mindmap/hooks/useMindMapEdgeHandlers.ts:15-61 | Same length; matching edges updated, every other edge unchanged |
| EdgeHandlers.UpdatePreservesConsistency | src/components/mindmap/hooks/useMindMapEdgeHandlers.ts:27-50 | An edge whose type agrees with its stored path style keeps agreeing after any update |
| EdgeHandlers.StatedStrokeStyleSetsDash | src/components/mindmap/hooks/useMindMapEdgeHandlers.ts:53-57 | A patch that states a stroke style leaves the dash pattern matching the stored style |
| EdgeHandlers.CaptionOnlyPatchClearsDash | src/components/mindmap/hooks/useMindMapEdgeHandlers.ts:53-57 | A label-only patch clears a dashed edge's dash pattern while its data still says dashed |
| EdgeHandlers.CustomPathStyleKeptInData | src/components/mindmap/hooks/useMindMapEdgeHandlers.ts:27-50 | zigzag draws as step yet stays zigzag in the data |
| EdgeHandlers.NewEdge | src/components/mindmap/hooks/useMindMapEdgeHandlers.ts:70-85 | A connection becomes an animated smoothstep edge with the default data and a closed end arrow, and it is consistent |
| EdgeHandlers.Connect | src/components/mindmap/hooks/useMindMapEdgeHandlers.ts:67-91 | One edge is appended and the others are kept |
| EdgeHandlers.EdgeListStaysConsistent | src/components/mindmap/hooks/useMindMapEdgeHandlers.ts:14-91 | Connecting and updating keep every edge's type in agreement with its data |
| EdgeHandlers.ClickEdge | src/components/mindmap/hooks/useMindMapEdgeHandlers.ts:96 | Clicking the selected edge clears the selection; clicking any other selects exactly that one |
| EdgeHandlers.ClickTwice | src/components/mindmap/hooks/useMindMapEdgeHandlers.ts:96 | Two clicks on the same edge restore the selection |
| EdgeHandlers.EdgeHandlers.constructor | src/components/mindmap/hooks/useMindMapEdgeHandlers.ts:10-11 | No edge is selected at first |
| EdgeHandlers.EdgeHandlers.UpdateEdge | src/components/mindmap/hooks/useMindMapEdgeHandlers.ts:14-64 | Edges become UpdateEdgeIn of the old edges; nodes untouched |
| EdgeHandlers.EdgeHandlers.OnConnect | src/components/mindmap/hooks/useMindMapEdgeHandlers.ts:67-91 | Edges become Connect of the old edges; nodes untouched |
| EdgeHandlers.EdgeHandlers.OnEdgeClick | src/components/mindmap/hooks/useMindMapEdgeHandlers.ts:94-97 | The selection becomes ClickEdge of the old one |
| Storage.SaveTo | src/utils/mindmapStorage.ts:3-21 | Success iff the store is readable and the write works; on success the entry under the name is the document and the others stay; on failure nothing changes |
| Storage.LoadFrom | src/utils/mindmapStorage.ts:23-32 | Found iff the store is readable and holds the name, and then it is the stored document |
| Storage.DeleteFrom | src/utils/mindmapStorage.ts:45-61 | Success iff readable, present and written; on success exactly that entry goes; otherwise nothing changes |
| Storage.Names | src/utils/mindmapStorage.ts:33-38 | A name is listed exactly when loading it finds a document |
| Storage.SaveThenLoad | src/utils/mindmapStorage.ts:8-27 | Saving then loading the same name gives back the document |
| Storage.SaveKeepsOthers | src/utils/mindmapStorage.ts:8-14 | Saving never changes what another name loads |
| Storage.SaveListsName | src/utils/mindmapStorage.ts:8-38 | After a save the stored names are the old ones plus the saved name |
| Storage.DeleteTwice | src/utils/mindmapStorage.ts:50-56 | A second delete of the same name fails and changes nothing; after a successful delete the name loads nothing |
| Storage.DeleteKeepsOthers | src/utils/mindmapStorage.ts:50-52 | Deleting never changes what another name loads |
| Storage.SaveThenDelete | src/utils/mindmapStorage.ts:8-52 | Saving a new name then deleting it restores the stored contents |
| Storage.TwoDocumentsScenario | src/utils/mindmapStorage.ts:3-61 | Save A, save B, delete A: only B is listed and loads, A loads nothing |
| Storage.PropertyLookup | src/utils/mindmapStorage.ts:27 | Property access on a parsed object: an own key gives its entry; a missing name inherited from Object.prototype gives that member |
| Storage.LoadAsWritten | src/utils/mindmapStorage.ts:23-32 | Agrees with LoadFrom on every stored name and whenever it finds an entry |
| Storage.DeleteAsWritten | src/utils/mindmapStorage.ts:45-61 | Agrees with DeleteFrom on every name that is not an inherited member |
| Storage.SaveAsWritten | src/utils/mindmapStorage.ts:3-21 | Agrees with SaveTo on every name except __proto__ |
| Storage.InheritedNameIsFound | src/utils/mindmapStorage.ts:27-50 | On an empty store, "toString" is found by load and deleted successfully, twice; the corrected versions find nothing and fail |
| Storage.ProtoNameIsNotSaved | src/utils/mindmapStorage.ts:8-16 | Saving under "__proto__" reports success but loads no document; the corrected save stores it |
| Storage.LocalStore.constructor | src/utils/mindmapStorage.ts:5 | The store starts with the given slot |
| Storage.LocalStore.SaveMindMap | src/utils/mindmapStorage.ts:3-21 | The slot and the result are those of SaveTo |
| Storage.LocalStore.LoadMindMap | src/utils/mindmapStorage.ts:23-32 | The result is LoadFrom of the slot |
| Storage.LocalStore.DeleteMindMap | src/utils/mindmapStorage.ts:45-61 | The slot and the result are those of DeleteFrom |
| Storage.LocalStore.GetAllMindMaps | src/utils/mindmapStorage.ts:34-43 | Lists exactly the stored names, each once; an absent or unreadable store lists nothing |
| Renderer.RenderMindMap | src/utils/mindmapRenderer.ts:3-25 | No store or an unreadable one gives nothing; otherwise a name gives its stored entry exactly when present |
| Renderer.RenderAgreesWithLoad | src/utils/mindmapRenderer.ts:3-25 | The render lookup equals the store's load for every store state |
| Renderer.RenderAsWritten | src/utils/mindmapRenderer.ts:12-20 | A stored name gives its entry |
| Renderer.RenderAsWrittenAgreesWithLoad | src/utils/mindmapRenderer.ts:5-17 | As written, render equals load whenever the store key exists; with no store key render gives nothing while load finds inherited names |
| Renderer.RenderAndLoadDisagreeWithoutKey | src/utils/mindmapRenderer.ts:3-15 | With no store key, the as-written render finds nothing for "toString" while the as-written load finds it; the corrected pair agree |
| Lifecycle.Create | src/components/mindmap/MindMapStorage.ts:44-69 | An empty or cancelled name changes nothing; a successful save opens the initial document under that name; a failed one reports and changes nothing |
| Lifecycle.Load | src/components/mindmap/MindMapStorage.ts:71-88 | A found document replaces nodes and edges and becomes current; otherwise only a failure report |
| Lifecycle.RequestDelete | src/components/mindmap/MindMapStorage.ts:90-92 | Only the pending name changes |
| Lifecycle.ConfirmDelete | src/components/mindmap/MindMapStorage.ts:94-115 | No name: nothing. Failure: report only. Success: the entry goes; deleting the current document resets to the initial document with no name; another leaves the editor alone |
| Lifecycle.ConfirmPending | src/components/mindmap/MindMap.tsx:114-117 | The dialog confirms the pending name, then clears it |
| Lifecycle.SaveCurrent | src/components/mindmap/MindMapStorage.ts:117-134 | With a current name it saves under it; without one an empty answer aborts, otherwise the answer becomes current and is saved; success is reported whatever the store returns |
| Lifecycle.Export | src/components/mindmap/MindMapStorage.ts:30-42 | An error exactly when there is no current name; otherwise the current name is opened |
| Lifecycle.StoreStaysWellKeyed | src/utils/mindmapStorage.ts:8-51 | Save and delete keep every stored document filed under its own name |
| Lifecycle.TransitionsBringInStep | src/components/mindmap/MindMapStorage.ts:44-134 | After a successful create, a load, or a save with a working store, the store holds exactly the editor's current nodes and edges under the current name |
| Lifecycle.ConfirmDeleteKeepsInStep | src/components/mindmap/MindMapStorage.ts:94-115 | Confirming a delete keeps the editor in step with the store |
| Lifecycle.SaveThenReload | src/components/mindmap/MindMapStorage.ts:71-128 | Saving the current document then loading it changes nothing |
| Lifecycle.CreateThenLoad | src/components/mindmap/MindMapStorage.ts:44-88 | Creating a map then loading it gives the initial nodes and no edges |
| Lifecycle.MindMapLifecycle.constructor | src/components/mindmap/MindMap.tsx:54-55 | No current document and nothing pending |
| Lifecycle.MindMapLifecycle.CreateNewMindMap | src/components/mindmap/MindMapStorage.ts:44-69 | The new state and report are those of Create |
| Lifecycle.MindMapLifecycle.LoadExistingMindMap | src/components/mindmap/MindMapStorage.ts:71-88 | The new state and report are those of Load |
| Lifecycle.MindMapLifecycle.HandleDeleteMindMap | src/components/mindmap/MindMapStorage.ts:90-92 | The new state is RequestDelete's |
| Lifecycle.MindMapLifecycle.ConfirmDeleteMindMap | src/components/mindmap/MindMapStorage.ts:94-115 | The new state and report are those of ConfirmDelete |
| Lifecycle.MindMapLifecycle.ConfirmPendingDelete | src/components/mindmap/MindMap.tsx:114-117 | The new state and report are those of ConfirmPending |
| Lifecycle.MindMapLifecycle.SaveCurrentMindMap | src/components/mindmap/MindMapStorage.ts:117-134 | The new state and report are those of SaveCurrent |
| Lifecycle.MindMapLifecycle.HandleExport | src/components/mindmap/MindMapStorage.ts:30-42 | The report is Export of the state |
| ChecklistSettings.ItemsOf | src/components/mindmap/settings/ChecklistSettings.tsx:26 | The node's item list, or none when the key is absent |
| ChecklistSettings.ItemsPatch | src/components/mindmap/settings/ChecklistSettings.tsx:41 | The patch carries the item list and nothing else |
| ChecklistSettings.ItemsPatchReadsBack | src/components/mindmap/settings/ChecklistSettings.tsx:41 | After the list patch is merged, the panel reads back exactly that list, and no other key has changed |
| ChecklistSettings.AppendItem | src/components/mindmap/settings/ChecklistSettings.tsx:29-41 | One item appended last, built from the form with the fresh id; earlier items unchanged |
| ChecklistSettings.ReviseItem | src/components/mindmap/settings/ChecklistSettings.tsx:50-59 | Matching items take the form's text, flag and priority and keep their id; others unchanged |
| ChecklistSettings.RemoveItem | src/components/mindmap/settings/ChecklistSettings.tsx:71-73 | An item survives iff it was there and its id differs |
| ChecklistSettings.RemoveItemAppend | src/components/mindmap/settings/ChecklistSettings.tsx:71-73 | Removal distributes over concatenation and keeps a single item iff its id differs, so the survivors keep their order and repetitions |
| ChecklistSettings.FlipItem | src/components/mindmap/settings/ChecklistSettings.tsx:103-105 | Matching items flip their check and change nothing else; others unchanged |
| ChecklistSettings.FlipTwice | src/components/mindmap/settings/ChecklistSettings.tsx:103-105 | Toggling twice restores the list |
| ChecklistSettings.PositionOf | src/components/mindmap/settings/ChecklistSettings.tsx:111 | The first index with the id, or -1 exactly when none |
| ChecklistSettings.AtEdge | src/components/mindmap/settings/ChecklistSettings.tsx:112-117 | For a present id: moving up from the first place or down from the last; on an empty list only a move down returns early |
| ChecklistSettings.MovedItems | src/components/mindmap/settings/ChecklistSettings.tsx:110-125 | Moving keeps the length and is a permutation |
| ChecklistSettings.MoveSwapsNeighbours | src/components/mindmap/settings/ChecklistSettings.tsx:112-122 | Away from the edge, a move swaps the item with its neighbour above or below |
| ChecklistSettings.UpThenDown | src/components/mindmap/settings/ChecklistSettings.tsx:110-125 | With unique ids, moving an item up and then down restores the list |
| ChecklistSettings.PriorityLabel | src/components/mindmap/settings/ChecklistSettings.tsx:136-143 | High iff high, Low iff low, Medium for everything else |
| ChecklistSettings.SpliceMove | src/components/mindmap/settings/ChecklistSettings.tsx:120-122 | The array copy with the splice-out and splice-in gives exactly Move |
| ChecklistSettings.ShiftDown | src/components/mindmap/settings/ChecklistSettings.tsx:121 | The elements of the range move one place toward the front; the rest stay |
| ChecklistSettings.ShiftUp | src/components/mindmap/settings/ChecklistSettings.tsx:122 | The elements of the range move one place toward the back; the rest stay |
| ChecklistSettings.ChecklistForm.constructor | src/components/mindmap/settings/ChecklistSettings.tsx:19-26 | Blank form, nothing being edited |
| ChecklistSettings.ChecklistForm.HandleAddItem | src/components/mindmap/settings/ChecklistSettings.tsx:28-47 | Empty text: nothing. Otherwise the AppendItem patch, and the form is reset |
| ChecklistSettings.ChecklistForm.HandleUpdateItem | src/components/mindmap/settings/ChecklistSettings.tsx:49-68 | Needs an editing id and text; then the ReviseItem patch, form reset, editing cleared |
| ChecklistSettings.ChecklistForm.HandleDeleteItem | src/components/mindmap/settings/ChecklistSettings.tsx:70-82 | The RemoveItem patch; the form resets only if that item was being edited |
| ChecklistSettings.ChecklistForm.HandleEditItem | src/components/mindmap/settings/ChecklistSettings.tsx:84-91 | The form takes the item, priority defaulting to medium |
| ChecklistSettings.ChecklistForm.HandleCancelEdit | src/components/mindmap/settings/ChecklistSettings.tsx:93-100 | Blank form, nothing being edited |
| ChecklistSettings.ChecklistForm.HandleToggleItem | src/components/mindmap/settings/ChecklistSettings.tsx:102-108 | The FlipItem patch |
| ChecklistSettings.ChecklistForm.HandleMoveItem | src/components/mindmap/settings/ChecklistSettings.tsx:110-125 | At the edge nothing; otherwise the MovedItems patch |
| ChecklistNode.Title | src/components/mindmap/node-components/ChecklistNode.tsx:67 | The label if non-empty, else "Checklist" |
| ChecklistNode.ShownItems | src/components/mindmap/node-components/ChecklistNode.tsx:51-54 | The stored items, or the two placeholders when there are none |
| ChecklistNode.TogglePatch | src/components/mindmap/node-components/ChecklistNode.tsx:23-31 | A missing list sends []; otherwise the FlipItem patch |
| ChecklistNode.NodeAndPanelToggleAgree | src/components/mindmap/node-components/ChecklistNode.tsx:23-31 | The node's toggle sends the same patch as the settings panel's toggle |
| ChecklistNode.TickedCount | src/components/mindmap/node-components/ChecklistNode.tsx:44 | At most the number of items |
| ChecklistNode.RoundPercent | src/components/mindmap/node-components/ChecklistNode.tsx:45 | The rounded percentage is at most 100 |
| ChecklistNode.Progress | src/components/mindmap/node-components/ChecklistNode.tsx:42-46 | 0 for a missing or empty list, never above 100 |
| ChecklistNode.ProgressExtremes | src/components/mindmap/node-components/ChecklistNode.tsx:42-46 | All ticked reads 100; none ticked reads 0 |
| ChecklistNode.RoundPercentMonotone | src/components/mindmap/node-components/ChecklistNode.tsx:45 | Ticking more never lowers the percentage |
| ChecklistNode.FullReadingMeansAllTicked | src/components/mindmap/node-components/ChecklistNode.tsx:45 | Below 200 items, 100 is shown iff all are ticked; at 200 items, 199 ticked already shows 100 |
| TimelineSettings.EventsOf | src/components/mindmap/settings/TimelineSettings.tsx:37 | The node's event list, or none when the key is absent |
| TimelineSettings.EventsPatch | src/components/mindmap/settings/TimelineSettings.tsx:69 | The patch carries the event list and nothing else |
| TimelineSettings.EventsPatchReadsBack | src/components/mindmap/settings/TimelineSettings.tsx:69 | After the list patch is merged, the panel reads back exactly that list, and no other key has changed |
| TimelineSettings.AppendEvent | src/components/mindmap/settings/TimelineSettings.tsx:54-69 | One event appended last, built from the form with the fresh id and the ISO date; earlier events unchanged |
| TimelineSettings.ReviseEvent | src/components/mindmap/settings/TimelineSettings.tsx:81-93 | Matching events take the form's fields and keep their id; others unchanged |
| TimelineSettings.RemoveEvent | src/components/mindmap/settings/TimelineSettings.tsx:108-110 | An event survives iff it was there and its id differs |
| TimelineSettings.RemoveEventAppend | src/components/mindmap/settings/TimelineSettings.tsx:108-110 | Removal distributes over concatenation and keeps a single event iff its id differs, so the survivors keep their order and repetitions |
| TimelineSettings.FlipCompletion | src/components/mindmap/settings/TimelineSettings.tsx:148-151 | Matching events flip completion (a missing flag reads false) and change nothing else; others unchanged |
| TimelineSettings.FlipCompletionTwice | src/components/mindmap/settings/TimelineSettings.tsx:148-151 | When the flag is stored, toggling twice restores the list |
| TimelineSettings.FlipCompletionTwiceWritesFlag | src/components/mindmap/settings/TimelineSettings.tsx:148-151 | An event without the flag comes back from two toggles with it written as false |
| TimelineSettings.DayPart | src/components/mindmap/settings/TimelineSettings.tsx:129 | The prefix of the ISO text before its first T |
| TimelineSettings.EditDraft | src/components/mindmap/settings/TimelineSettings.tsx:124-134 | The form takes the event, its date cut to the day, its colour and description defaulting to the blank form's |
| TimelineSettings.EditThenUpdateKeepsEvent | src/components/mindmap/settings/TimelineSettings.tsx:80-134 | Editing an event and saving it unchanged, with the same date, gives back the same event |
| TimelineSettings.TimelineForm.constructor | src/components/mindmap/settings/TimelineSettings.tsx:21-35 | Dates from the data when non-empty; blank form; nothing being edited |
| TimelineSettings.TimelineForm.HandleStartDateSelect | src/components/mindmap/settings/TimelineSettings.tsx:39-44 | The picker shows the choice; a patch is sent only when a date is chosen |
| TimelineSettings.TimelineForm.HandleEndDateSelect | src/components/mindmap/settings/TimelineSettings.tsx:46-51 | The picker shows the choice; a patch is sent only when a date is chosen |
| TimelineSettings.TimelineForm.HandleAddEvent | src/components/mindmap/settings/TimelineSettings.tsx:53-78 | Needs a title and a date; then the AppendEvent patch and a reset form |
| TimelineSettings.TimelineForm.HandleUpdateEvent | src/components/mindmap/settings/TimelineSettings.tsx:80-105 | Needs an editing id, a title and a date; then the ReviseEvent patch, reset form, editing cleared |
| TimelineSettings.TimelineForm.HandleDeleteEvent | src/components/mindmap/settings/TimelineSettings.tsx:107-122 | The RemoveEvent patch; the form resets only if that event was being edited |
| TimelineSettings.TimelineForm.HandleEditEvent | src/components/mindmap/settings/TimelineSettings.tsx:124-134 | The form takes EditDraft of the event |
| TimelineSettings.TimelineForm.HandleCancelEdit | src/components/mindmap/settings/TimelineSettings.tsx:136-146 | Blank form (colour #4c86e0, flags false), nothing being edited |
| TimelineSettings.TimelineForm.HandleToggleEventCompletion | src/components/mindmap/settings/TimelineSettings.tsx:148-154 | The FlipCompletion patch |
| ResourceSettings.ResourcesOf | src/components/mindmap/settings/ResourceSettings.tsx:30 | The node's resource list, or none when the key is absent |
| ResourceSettings.ResourcesPatch | src/components/mindmap/settings/ResourceSettings.tsx:48 | The patch carries the resource list and nothing else |
| ResourceSettings.ResourcesPatchReadsBack | src/components/mindmap/settings/ResourceSettings.tsx:48 | After the list patch is merged, the panel reads back exactly that list, and no other key has changed |
| ResourceSettings.FromDraft | src/components/mindmap/settings/ResourceSettings.tsx:36-44 | The new resource carries the given id and every field of the form |
| ResourceSettings.AppendResource | src/components/mindmap/settings/ResourceSettings.tsx:33-45 | One resource appended last, built from the form; earlier ones unchanged |
| ResourceSettings.ReviseResource | src/components/mindmap/settings/ResourceSettings.tsx:60-72 | Matching resources take the form's fields and keep their id; others unchanged |
| ResourceSettings.RemoveResource | src/components/mindmap/settings/ResourceSettings.tsx:87-89 | A resource survives iff it was there and its id differs |
| ResourceSettings.RemoveResourceAppend | src/components/mindmap/settings/ResourceSettings.tsx:87-89 | Removal distributes over concatenation and keeps a single resource iff its id differs, so the survivors keep their order and repetitions |
| ResourceSettings.EditDraft | src/components/mindmap/settings/ResourceSettings.tsx:103-113 | The form takes the resource, with rating 5, description "" and tags [] for missing ones |
| ResourceSettings.DraftThenEdit | src/components/mindmap/settings/ResourceSettings.tsx:104-113 | Opening a saved form gives the form back, except that a rating of 0 comes back as 5 |
| ResourceSettings.EditThenUpdateKeepsResource | src/components/mindmap/settings/ResourceSettings.tsx:59-113 | With a unique id and all optional fields set, editing and saving unchanged gives back the list |
| ResourceSettings.TrimStart | src/components/mindmap/settings/ResourceSettings.tsx:128 | A suffix of the text with only white space removed, starting with non-space |
| ResourceSettings.TrimEnd | src/components/mindmap/settings/ResourceSettings.tsx:128 | A prefix of the text with only white space removed, ending with non-space |
| ResourceSettings.Trim | src/components/mindmap/settings/ResourceSettings.tsx:128 | The result is a slice of the text with only white space cut from either end, and it neither starts nor ends with white space |
| ResourceSettings.TrimIdempotent | src/components/mindmap/settings/ResourceSettings.tsx:128 | Trimming twice is trimming once |
| ResourceSettings.WithTag | src/components/mindmap/settings/ResourceSettings.tsx:127-136 | An empty or already-present trimmed tag is rejected; otherwise it is appended; the list stays duplicate-free |
| ResourceSettings.WithoutTag | src/components/mindmap/settings/ResourceSettings.tsx:138-143 | A tag survives iff it was there and differs; duplicate-free stays duplicate-free |
| ResourceSettings.WithoutTagAppend | src/components/mindmap/settings/ResourceSettings.tsx:138-143 | Removal distributes over concatenation and keeps a single tag iff it differs, so the remaining tags keep their order |
| ResourceSettings.WithoutKeepsDistinct | src/components/mindmap/settings/ResourceSettings.tsx:140 | Filtering a duplicate-free list keeps it duplicate-free |
| ResourceSettings.AddThenRemoveTag | src/components/mindmap/settings/ResourceSettings.tsx:127-143 | Adding a new tag and removing it restores the list |
| ResourceSettings.TypeLabel | src/components/mindmap/settings/ResourceSettings.tsx:154-161 | Other exactly for kinds that are not pdf, video or website |
| ResourceSettings.ResourceForm.constructor | src/components/mindmap/settings/ResourceSettings.tsx:19-28 | Blank form (website, rating 5), empty tag field, nothing being edited |
| ResourceSettings.ResourceForm.HandleAddResource | src/components/mindmap/settings/ResourceSettings.tsx:32-57 | Needs a title and a url; then the AppendResource patch and a reset form |
| ResourceSettings.ResourceForm.HandleUpdateResource | src/components/mindmap/settings/ResourceSettings.tsx:59-84 | Needs an editing id, a title and a url; then the ReviseResource patch, reset form, editing cleared |
| ResourceSettings.ResourceForm.HandleDeleteResource | src/components/mindmap/settings/ResourceSettings.tsx:86-101 | The RemoveResource patch; the form resets only if that resource was being edited |
| ResourceSettings.ResourceForm.HandleEditResource | src/components/mindmap/settings/ResourceSettings.tsx:103-113 | The form takes EditDraft of the resource |
| ResourceSettings.ResourceForm.HandleCancelEdit | src/components/mindmap/settings/ResourceSettings.tsx:115-125 | Blank form, nothing being edited |
| ResourceSettings.ResourceForm.HandleAddTag | src/components/mindmap/settings/ResourceSettings.tsx:127-136 | The form's tags become WithTag; the field clears only when a tag was added; duplicate-free is kept |
| ResourceSettings.ResourceForm.HandleRemoveTag | src/components/mindmap/settings/ResourceSettings.tsx:138-143 | The form's tags become WithoutTag |
| NodeSettings.ContentOf | src/components/mindmap/NodeSettings.tsx:40-44 | The node's content record; an absent one has no keys |
| NodeSettings.LinksOf | src/components/mindmap/NodeSettings.tsx:82 | The node's links, or none when the content or its links are absent |
| NodeSettings.ContentPatch | src/components/mindmap/NodeSettings.tsx:40-46 | The patch carries only the content: the old content merged with the change |
| NodeSettings.ContentChangeKeepsOtherKeys | src/components/mindmap/NodeSettings.tsx:36-46 | Applied, a content change sets the keys it names, keeps the other content keys and every other data key |
| NodeSettings.LegendColor | src/components/mindmap/NodeSettings.tsx:53 | The legend's colour when it is non-empty, else black; never empty |
| NodeSettings.LegendPatch | src/components/mindmap/NodeSettings.tsx:48-56 | Enabled, at the chosen position, keeping a set colour (else #000000) |
| NodeSettings.RemoveLegendPatch | src/components/mindmap/NodeSettings.tsx:58-66 | Disabled, keeping the colour and the position (default right-top) |
| NodeSettings.LegendColorPatch | src/components/mindmap/NodeSettings.tsx:68-77 | No legend: nothing is sent; otherwise only the colour changes |
| NodeSettings.LegendColorSurvivesHide | src/components/mindmap/NodeSettings.tsx:48-66 | Hiding a legend and showing it again keeps its colour |
| NodeSettings.WithoutLinkChange | src/components/mindmap/NodeSettings.tsx:89-94 | Exactly the link at that index goes, the rest keep their order; an out-of-range index removes nothing |
| NodeSettings.WithLinkChange | src/components/mindmap/NodeSettings.tsx:79-87 | The links with the new one appended |
| NodeSettings.AddThenRemoveLink | src/components/mindmap/NodeSettings.tsx:79-94 | Adding a link and removing the last index restores the links |
| NodeSettings.LinkForm.constructor | src/components/mindmap/NodeSettings.tsx:34 | Empty url and label |
| NodeSettings.LinkForm.AddLink | src/components/mindmap/NodeSettings.tsx:79-87 | Needs url and label; then the link is appended and the form cleared |
| ShapeSettings.LayerPatch | src/components/mindmap/settings/ShapeSettings.tsx:72-75 | zIndex plus or minus one, a missing one read as 0 |
| ShapeSettings.ForwardThenBackward | src/components/mindmap/settings/ShapeSettings.tsx:72-75 | Forward then backward returns to the same layer |
| ShapeSettings.TransparentPatch | src/components/mindmap/settings/ShapeSettings.tsx:147-149 | transparent when on, white when off |
| ShapeSettings.TransparentSwitchReadsBack | src/components/mindmap/settings/ShapeSettings.tsx:147-149 | After the switch, the background reads transparent exactly when it was switched on |
| ShapeSettings.RotationValue | src/components/mindmap/settings/ShapeSettings.tsx:333-371 | The slider sends its value; reset sends 0; the presets send 0, 90, 180, 270 |
| ShapeSettings.ShadowOf | src/components/mindmap/settings/ShapeSettings.tsx:49-55 | The node's shadow record; an absent one is disabled and has no settings |
| ShapeSettings.GlowOf | src/components/mindmap/settings/ShapeSettings.tsx:63-67 | The node's glow record; an absent one is disabled and has no settings |
| ShapeSettings.ShadowSwitchPatch | src/components/mindmap/settings/ShapeSettings.tsx:46-58 | On: existing truthy values or rgba(0,0,0,0.3), 5, 3, 3. Off: disabled with all four cleared |
| ShapeSettings.ShadowOffOnUsesDefaults | src/components/mindmap/settings/ShapeSettings.tsx:46-58 | Switching the shadow off and on again gives the defaults, not the old values |
| ShapeSettings.ShadowOnIsStable | src/components/mindmap/settings/ShapeSettings.tsx:46-58 | Switching on a fully set shadow keeps it |
| ShapeSettings.GlowSwitchPatch | src/components/mindmap/settings/ShapeSettings.tsx:60-70 | On: existing truthy values or #9b87f5 and 8. Off: disabled with both cleared |
| ShapeSettings.ShadowPickPatch | src/components/mindmap/settings/ShapeSettings.tsx:252-269 | A colour button or the blur slider enables the shadow and changes only that value |
| ShapeSettings.GlowPickPatch | src/components/mindmap/settings/ShapeSettings.tsx:297-314 | A colour button or the blur slider enables the glow and changes only that value |
| ShapeSettings.ShapePanel.constructor | src/components/mindmap/settings/ShapeSettings.tsx:27-30 | Rotation, aspect lock and the two switches start from the data |
| ShapeSettings.ShapePanel.HandleRotationChange | src/components/mindmap/settings/ShapeSettings.tsx:36-39 | Shows and sends RotationValue |
| ShapeSettings.ShapePanel.HandleAspectRatioChange | src/components/mindmap/settings/ShapeSettings.tsx:41-44 | Shows and sends the checked flag |
| ShapeSettings.ShapePanel.HandleShadowChange | src/components/mindmap/settings/ShapeSettings.tsx:46-58 | Shows the switch and sends ShadowSwitchPatch |
| ShapeSettings.ShapePanel.HandleGlowChange | src/components/mindmap/settings/ShapeSettings.tsx:60-70 | Shows the switch and sends GlowSwitchPatch |
| BaseNode.FontSize | src/components/mindmap/BaseNode.tsx:19-28 | 14, 16, 20, 24 exactly for s, m, l, xl; 12 for xs and anything else |
| BaseNode.NodeStyle | src/components/mindmap/BaseNode.tsx:30-43 | The plain style exactly for types other than title, topic, subtopic and section |
| BaseNode.StyledTypesDiffer | src/components/mindmap/BaseNode.tsx:30-43 | The four styled types all look different |
| BaseNode.HasContent | src/components/mindmap/BaseNode.tsx:131 | Shown exactly when the content has a non-empty title, a non-empty description or at least one link |
| BaseNode.ShowCheckbox | src/components/mindmap/BaseNode.tsx:134 | Shown iff the checkbox is on and the type is neither title nor section |
| BaseNode.NewNodeHasNoCheckbox | src/components/mindmap/BaseNode.tsx:134 | A node added without a checkbox override never shows one |
| BaseNode.AddedLinkShowsContent | src/components/mindmap/BaseNode.tsx:131 | After a link is added, the content marker shows |
| BaseNode.MenuAction | src/components/mindmap/BaseNode.tsx:76-90 | Each menu entry acts on this node; paste pastes into it |
| BaseNode.MenuMatchesShortcuts | src/components/mindmap/BaseNode.tsx:187-204 | On the selected node, the menu runs what ctrl+c, ctrl+v, ctrl+d and Delete run |
| BaseNode.NodeView.constructor | src/components/mindmap/BaseNode.tsx:46-49 | Not editing; the label (or "") and the check flag (or false) from the data |
| BaseNode.NodeView.Sync | src/components/mindmap/BaseNode.tsx:51-57 | New data replaces the label and the check flag |
| BaseNode.NodeView.HandleDoubleClick | src/components/mindmap/BaseNode.tsx:59-61 | Editing starts |
| BaseNode.NodeView.HandleLabelChange | src/components/mindmap/BaseNode.tsx:177-179 | The typed text becomes the label |
| BaseNode.NodeView.HandleBlur | src/components/mindmap/BaseNode.tsx:63-66 | Editing ends and exactly the label is sent |
| BaseNode.NodeView.HandleKeyDown | src/components/mindmap/BaseNode.tsx:68-74 | Enter without shift, and only it, ends editing and sends exactly the label, as a blur does |
| BaseNode.NodeView.HandleCheckboxChange | src/components/mindmap/BaseNode.tsx:92-95 | The box shows and sends exactly the new check flag |

## Left out

- Rendering: JSX, CSS classes other than the node styles, the legend badge placement (src/components/mindmap/BaseNode.tsx:97-127), priority and icon colours, sidebars, dialogs and the export page.
- `src/components/mindmap/MindMapKeyboardHandlers.tsx` is not part of this model: it is imported but never called, and repeats the shortcut dispatch that is modelled.
- `src/components/mindmap/EdgeSettings.tsx` is not part of this model. Its only effect is one edge update with all seven fields, which `EdgeHandlers.UpdatedEdge` covers.
- ReactFlow's `addEdge`: its id generation and its duplicate-edge check are foreign code. The model takes the new edge's id as a parameter and always appends.
- JSON and `localStorage`: the store is a map of documents. A parse failure is the `Unreadable` slot, and a failing `setItem` is the `writeOk` input. Serialisation is treated as an identity.
- The clipboard's copy is the node data itself; a failed parse of it is the `Unparsable` clipboard.
- `Object.keys` order is not modelled: `Storage.LocalStore.GetAllMindMaps` promises the stored names, each once, in some order.
- Nondeterminism: uuid ids, `Math.random` positions and the clock are parameters (`freshId`, `randomPos`, `Clock`, `iso`). Dates are opaque ISO text; date-fns formatting is left out.
- Toasts, `prompt`, `window.open` and console logging: toasts are the `Notice` and `Report` values, and prompt answers are `Option<string>` inputs.
- React effect registration, listener clean-up, stale closures and the `window.mindmapApi` wiring (src/components/mindmap/MindMap.tsx:99-106). Node components return patches that the caller applies with `updateNodeData`.
- ChecklistNode.Progress: computes `Math.round` exactly on rationals, as `(200c+n) div 2n`; floating-point error in `completed / length * 100` is not modelled.
- ChecklistSettings.ChecklistForm.HandleMoveItem: requires the id to be present. The source does not guard this: with findIndex's -1 it moves the LAST item to the front in both directions ([a,b,c] becomes [c,a,b]), except that moving down on an empty list returns early and moving up on an empty list inserts `undefined`.
- ChecklistSettings.MovedItems: requires the id to be present, for the same reason.
- Capitalize: upper-cases only the ASCII letters `a`-`z` and keeps the length. JavaScript's `toUpperCase` is Unicode-aware ('é' becomes 'É', and 'ß' becomes "SS", which changes the length); the Unicode case tables are not modelled.
- NodeManager.UpperAscii: the same ASCII-only case mapping, for the same reason.
- NodeManager.DefaultLabel: for a type name outside the label table, the label is exact only for type names whose first character is ASCII, because it uses Capitalize.
- Lifecycle.TransitionsBringInStep: is proved of the corrected store operations (SaveTo, LoadFrom, DeleteFrom). As written, `createNewMindMap("__proto__")` reports success and stores nothing, so the editor is not in step with the store afterwards (see Findings).
- Lifecycle.Load, Lifecycle.ConfirmDelete, Lifecycle.Create and the Lifecycle.MindMapLifecycle methods: they run on the corrected store operations. For the twelve names inherited from `Object.prototype` the program as written differs: loading "toString" on an empty store reports success and passes `undefined` to the node and edge setters, and confirming the delete of "toString" succeeds, where the model reports LoadFailed and DeleteFailed.
- Storage.LocalStore.LoadMindMap, Storage.LocalStore.SaveMindMap and Storage.LocalStore.DeleteMindMap: they run on the corrected LoadFrom, SaveTo and DeleteFrom. The as-written behaviour is modelled separately by Storage.LoadAsWritten, Storage.SaveAsWritten and Storage.DeleteAsWritten.
- Renderer.RenderMindMap: is the corrected lookup, which agrees with the corrected load everywhere; the as-written lookup is Renderer.RenderAsWritten (see Findings).
- A patch key explicitly set to `undefined` is the same as an absent key in this model.
- Timeline date sorting and marker positions in `TimelineNode.tsx`, and `SectionNode.tsx`'s local shadow copy, are view state.

## Findings

| source | as written | input that shows it | evidently intended | confidence | as-written member | corrected member |
|---|---|---|---|---|---|---|
| src/utils/mindmapStorage.ts:8-50 | The store is a plain object indexed by the document name, so names inherited from `Object.prototype` are found on an empty store, and `__proto__` cannot be stored | On an empty store, `loadMindMap("toString")` returns a function, and `deleteMindMap("toString")` returns true, twice. Saving a map named `__proto__` returns true, but loading it afterwards finds no document | Only names that were saved are found, and every saved name loads back | not executed | Storage.InheritedNameIsFound, Storage.ProtoNameIsNotSaved | Storage.SaveThenLoad, Storage.DeleteTwice, Lifecycle.TransitionsBringInStep |
| src/utils/mindmapRenderer.ts:3-15 | The export page reads the store without the empty-object fallback the editor's load uses, so the two disagree whenever the store key is missing: the render reports nothing, the load finds the names inherited from `Object.prototype` | With no `mindmaps` key in local storage, `renderMindMap("toString")` returns null while `loadMindMap("toString")` returns a function | The export page shows exactly what the editor would load, for every store state | not executed | Renderer.RenderAndLoadDisagreeWithoutKey, Renderer.RenderAsWrittenAgreesWithLoad | Renderer.RenderAgreesWithLoad |
