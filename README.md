# Dope Lineage: the lineage-expansion engine

This project models the part of the Dope Lineage viewer (`App.jsx`) that decides
what the strain graph holds. It is not about how the graph is drawn.

- **The catalog.** `GENETICS_DB.nodes` is a fixed table of 28 strain records. Each
  record has an id, display fields, an optional ordered list of parent ids, and an
  optional map from parent id to edge role. The catalog is the `Catalog` module.
  `Find` is the lookup `nodes.find(n => n.id === id)`: the first record with that
  id, or nothing.
- **The start graph.** The loaded set starts as `INITIAL_NODES = {dd, melon, sundae}`.
  The canvas starts with those three nodes and the edges `e1` (melon to dd) and `e2`
  (sundae to dd). These are `Graph.InitialIds`, `Graph.InitialNodes` and
  `Graph.InitialEdges`.
- **Parent expansion.** `expandParents` walks the focal record's parents in their
  declared order. It skips every parent that is already loaded, or that the catalog
  does not have. For each other parent it appends that parent's node, then an edge
  from the parent to the focal node. The edge id is `<parent>-<child>`, and its role
  is the record's `parentRoles` entry for that parent, or `normal`. It adds the
  parent to a copy of the loaded set. When it appended anything, it puts the elements
  on the canvas and stores the copy as the new loaded set.
  - The walk is two things in the model: the loop method `Expansion.ComputeExpansion`,
    and the specification functions `Delta` and `Emitted`, which the loop is proved
    against.
  - Three definitions underlie every contract. `Expansion.RoleOf` is the role choice
    of App.jsx:357-360. `Expansion.ParentEdge` is the edge built at App.jsx:362-370.
    `Graph.AddElement` and `Graph.AddElements` are `cy.add` at App.jsx:378, which
    leaves a node whose id is already on the canvas in place.
  - Every parent is checked against the loaded set as it was before the walk. So a
    parent listed twice is emitted twice (`RepeatedParentEmittedTwice`).
- **Selection and reset.** The viewer's state is the class `Graph.LineageGraph`. It
  holds the loaded set, the canvas nodes (a map from id to node data), the canvas
  edges (a set), and the selected node's data.
  - `SelectNode` is a tap on a node. It selects the node's canvas data, then expands
    the node's parents when the catalog has the node and the record lists parents.
  - `Deselect` is a tap on the background, or the detail panel's close button.
  - `ResetView` removes every node outside the start set, and every edge that loses
    an end. It restores the loaded set and clears the selection.

The predicate `Graph.ConsistentCanvas` holds for the canvas under either tap
handler. It holds these facts:
- each node is stored under its own id;
- the start nodes and start edges stay unchanged;
- every edge joins two shown nodes;
- every edge added since the start leaves a node outside the start set.

The class invariant `Valid` adds two facts that tie the loaded set to the canvas:
- the canvas shows exactly the loaded ids;
- every node outside the start set carries its catalog data.

The state a selection produces is given by `Expansion.SelectionDelta` and
`Expansion.NewParents`, and lemmas about those functions state the properties.
`Scenarios` works the general results out on the viewer's own catalog:
- FPOG's parents get the roles F1 component, F1 component and final cross;
- Devil Driver adds nothing at start;
- Melonade adds exactly its two parents;
- Sour Diesel's dangling parents are skipped.

Selection stores the node's data as the canvas holds it. The start nodes carry the
inline data of App.jsx:163-165, not their catalog records. For example, Devil
Driver's notes there are "Elite bag appeal.". So selecting a start node yields that
inline data.

## Model

| member | source | states |
|---|---|---|
| Catalog.Find | App.jsx:340 | The lookup finds a record exactly when some record has the id, and the record it returns has that id and belongs to the catalog. |
| Catalog.FindFirstMatch | App.jsx:274 | The record found is the first one with that id: no earlier record has it. |
| Catalog.FindListedRecord | App.jsx:274 | In a catalog without duplicate ids, looking up a record's id returns that very record. |
| Catalog.DbIdsUnique | App.jsx:13-146 | No two records of the catalog share an id. |
| Expansion.ComputeExpansion | App.jsx:332-374 | The loop's element list is the walk's delta. Its new set is the old loaded set plus the emitted parents, built on a copy. A record without parents yields nothing. |
| Expansion.EmittedMembers | App.jsx:338-341 | A parent is emitted if and only if it is listed, not loaded, and in the catalog. A loaded or missing parent contributes neither a node nor an edge. |
| Expansion.DeltaShape | App.jsx:342-371 | The delta has two elements per emitted parent, in parent order. First comes the parent's catalog data as a node, then the edge `<parent>-<child>` from the parent to the focal node with the parent's role. |
| Expansion.DeltaAppend | App.jsx:338 | Walking a list split in two emits the first part's elements before the second's, so the output follows the declared parent order. |
| Expansion.NothingToExpand | App.jsx:336-376 | A selection adds no element if and only if it adds no parent. That happens if and only if the catalog lacks the node, or each of its parents is loaded or missing, which covers a record without parents. |
| Expansion.ExpandTwice | App.jsx:339 | Once a selection's parents are loaded, selecting the same node again adds nothing. |
| Expansion.RepeatedParentEmittedTwice | App.jsx:339 | A parent that is listed twice and not yet loaded is emitted twice, with its node and edge repeated, because each occurrence is checked against the pre-walk set. |
| Graph.AddElementsKeeps | App.jsx:378 | Adding elements to the canvas never removes a node or changes its data. |
| Graph.AddDeltaNodes | App.jsx:342-378 | Adding a delta shows exactly the old ids plus the emitted parents. Every node that was not shown before carries its catalog data, and old nodes are kept as they were. |
| Graph.AddDeltaEdges | App.jsx:362-378 | Adding a delta adds exactly one edge per emitted parent, from the parent to the focal node. |
| Graph.DeltaKeepsConsistent | App.jsx:338-378 | Expanding a shown node against any set holding the start set keeps the canvas consistent. The new nodes are catalog records outside the start set, and each new edge runs from one of them to the shown node. |
| Graph.LineageGraph.constructor | App.jsx:154-169 | The start state: the loaded set `INITIAL_NODES`, the three inline start nodes, edges `e1` and `e2`, and nothing selected. |
| Graph.LineageGraph.ExpandParents | App.jsx:332-401 | The new loaded set is the old one plus the emitted parents. The canvas gains the delta. The selection is untouched. The invariant is kept, so every new edge's ends are loaded. |
| Graph.LineageGraph.SelectNode | App.jsx:269-277 | Selects the tapped node's data. The loaded set and canvas grow by the selection's new parents and delta, or stay unchanged when there is nothing to expand. The invariant is kept. |
| Graph.LineageGraph.SelectNodeAsWritten | App.jsx:269-277 | The tap handler as written: the expansion sees the start set instead of the current loaded set, and the loaded set becomes the start set plus this expansion's parents. The canvas stays consistent. |
| Graph.LineageGraph.Deselect | App.jsx:287-289 | Clears the selection and changes nothing else. |
| Graph.LineageGraph.ResetView | App.jsx:403-417 | From any state with a consistent canvas, including one the handler as written leaves, reset leaves exactly the start nodes and the start edges, and sets the loaded set to `INITIAL_NODES` with nothing selected. Since that state is fixed, reset is idempotent. |
| Scenarios.Lookup | App.jsx:13-146 | Each catalog record is what looking up its id returns. |
| Scenarios.SelectTwoParents | App.jsx:338-371 | Selecting a record with two parents, both unloaded and in the catalog, adds the first parent's node and edge, then the second's. |
| Scenarios.SelectThreeParents | App.jsx:338-371 | Selecting a record with three unloaded catalog parents adds each node and edge in declared order. |
| Scenarios.SelectMissingParents | App.jsx:340-341 | Selecting a record whose two parents are both missing from the catalog adds nothing. |
| Scenarios.FpogEdges | App.jsx:44-50 | FPOG's edges from Green Ribbon and GDP have the role F1 component. The edge from Tahoe Alien has the role final cross. |
| Scenarios.FpogRoles | App.jsx:356-360 | Selecting FPOG while none of its parents is loaded adds Green Ribbon, GDP and Tahoe Alien in that order, with roles F1 component, F1 component and final cross. |
| Scenarios.SelectDdAtStart | App.jsx:24 | Selecting Devil Driver while Sundae Driver and Melonade are loaded, as at start, adds nothing. |
| Scenarios.SelectMelonAtStart | App.jsx:99 | Selecting Melonade while neither parent is loaded, as at start, adds exactly Watermelon Zkittlez and Lemon Tree, each with a normal edge to Melonade. |
| Scenarios.SourDieselParentsMissing | App.jsx:128 | The catalog has no record for `chemdog_91` or `super_skunk`. |
| Scenarios.DanglingParentsSkipped | App.jsx:128 | Selecting Sour Diesel adds nothing, whatever is loaded. |
| Scenarios.MelonAndLemonTreeParents | App.jsx:114 | Against a set holding none of their parents, Melonade adds its two parents and Lemon Tree adds Lemon Skunk and Sour Diesel. |
| Scenarios.MelonThenLemonTree | App.jsx:378 | When both selections are expanded against the same set, Watermelon Zkittlez stays on the canvas after Lemon Tree's expansion. |
| Scenarios.StaleLoadedSession | App.jsx:316 | With the handler as written, selecting Melonade and then Lemon Tree leaves Watermelon Zkittlez on the canvas but outside the loaded set. |
| Scenarios.ResetAfterStaleSession | App.jsx:403-417 | After that session, reset brings the graph back to the start state, where the invariant holds again. |

## Left out

- Rendering is left out: the Cytoscape instance, style rules, hover restyling, `cy.animate`, `cy.fit` and the fade-in timers. They are presentation and timing in a library this model cannot see. The `style: { opacity: 0 }` attached to each added element goes with them.
- The dagre layout and `layout.run()` are left out. They are a third-party layout algorithm that moves nodes but never adds or removes them.
- Cytoscape's handling of an element whose id is already on the canvas is approximated. The canvas ignores a node whose id is present, and edges form a set, so re-adding an edge changes nothing.
- Edge removal inside `cy.remove` is modelled only as "an edge survives if and only if both its ends remain".
- React state plumbing is left out: `useState`, `useRef` and the `useEffect` guard `!cyRef.current || cyInstance.current`. The model holds the state values directly. The `!cyInstance.current` guard of `resetView` is left out too, since the canvas exists in every modelled state.
- The sidebar, legend, hint and the `loadedNodes.size` counter are left out. They are display only.
- `console.log` calls are left out. They are output only.
- Display fields are carried as opaque data: label, type, breeder, origin, generation, notes and lineage formula. No property depends on them, except that a node shows its record's fields.
- A role string that is present but empty falls back to `normal` in JavaScript. Roles here are the three known values, so that case cannot arise in the model.
- Prototype keys in `parentRoles` lookups cannot arise in the model, because roles are a finite map.
- `Graph.InitialEdges`: the start edges `e1` and `e2` carry no role in the source. They are modelled with the role `normal`, which is how they display.
- Records have no `children` field (App.jsx:13-146), so no pass over children is modelled.
- vite.config.js is not part of this model. It is build configuration.

## Findings

| source | as written | input that shows it | evidently intended | confidence | as-written member | corrected member |
|---|---|---|---|---|---|---|
| App.jsx:269-277 | The tap handler is registered once, in an effect with an empty dependency list (App.jsx:316). It therefore keeps the first render's `expandParents`, whose `loadedNodes` is always `INITIAL_NODES`. Every expansion is checked against the start set, and stores the start set plus its own parents as the new loaded set. | From the start, select Melonade, then Lemon Tree. The canvas holds seven strains. The loaded set is {dd, melon, sundae, lemon_skunk, sour_diesel}, which lacks Watermelon Zkittlez and Lemon Tree. The "strains loaded" counter shows 5. | The loaded set accumulates every strain on the canvas: each expansion is checked against the current loaded set, and the loaded set always equals the canvas's ids. | high (not executed) | Graph.LineageGraph.SelectNodeAsWritten | Graph.LineageGraph.SelectNode |

`Scenarios.StaleLoadedSession` exhibits the discrepancy. The corrected
`SelectNode` threads the current loaded set into `ExpandParents`, and it keeps the
invariant `Valid`, under which the loaded set is exactly the set of canvas ids.
`ResetView` needs only a consistent canvas, which the as-written handler keeps, so
`Scenarios.ResetAfterStaleSession` shows that a reset after the session above
brings back the start state and the invariant.
