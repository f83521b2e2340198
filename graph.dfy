/**
 * The viewer's graph state: the ids loaded so far, the nodes and edges on the
 * canvas, and the selected node; selecting a node expands its parents,
 * tapping the background deselects, and reset returns to the start graph.
 */
module Graph {
  import opened Options
  import opened Catalog
  import opened Expansion

  /** The ids on the graph at start and after a reset (`INITIAL_NODES`). */
  const InitialIds: set<Id> := {"dd", "melon", "sundae"}

  /** The start graph's nodes, with the data the start graph gives them. */
  const InitialNodes: map<Id, StrainData> := map[
    "dd" := StrainData("dd", "Devil Driver", Verified, Some("Tiki Madman"), Some("USA / Michigan"), Some(0),
                       Some("Elite bag appeal."), None),
    "melon" := StrainData("melon", "Melonade", Documented, Some("Midwest Best"), Some("California"), Some(1),
                          None, None),
    "sundae" := StrainData("sundae", "Sundae Driver", Documented, Some("Cannarado Genetics"), Some("Colorado"),
                           Some(1), None, None)
  ]

  /** The start graph's edges: both parents of `dd` point to it. */
  const InitialEdges: set<Edge> := {Edge("e1", "melon", "dd", Normal), Edge("e2", "sundae", "dd", Normal)}

  /** The elements on the canvas: nodes by id, and edges. */
  datatype Canvas = Canvas(nodes: map<Id, StrainData>, edges: set<Edge>)

  /** Adds one element to the canvas; a node whose id is already there is not added again. */
  function AddElement(c: Canvas, el: Element): Canvas {
    match el
    case NodeEl(d) => if d.id in c.nodes then c else c.(nodes := c.nodes[d.id := d])
    case EdgeEl(e) => c.(edges := c.edges + {e})
  }

  /** Adds a batch of elements to the canvas, first to last. */
  function AddElements(c: Canvas, els: seq<Element>): Canvas
    decreases |els|
  {
    if els == [] then c
    else AddElement(AddElements(c, els[..|els| - 1]), els[|els| - 1])
  }

  /** Adding a batch followed by two more elements adds the batch, then those two. */
  lemma AddTwo(c: Canvas, els: seq<Element>, a: Element, b: Element)
    ensures AddElements(c, els + [a, b]) == AddElement(AddElement(AddElements(c, els), a), b)
  {
    var d := els + [a, b];
    assert d[..|d| - 1] == els + [a];
    assert (els + [a])[..|els|] == els;
  }

  /** Adding elements never removes a node from the canvas nor changes its data. */
  lemma {:induction false} AddElementsKeeps(c: Canvas, els: seq<Element>)
    ensures forall k :: k in c.nodes ==> k in AddElements(c, els).nodes && AddElements(c, els).nodes[k] == c.nodes[k]
    decreases |els|
  {
    if els != [] {
      AddElementsKeeps(c, els[..|els| - 1]);
    }
  }

  /**
   * Adding an expansion's delta to a canvas adds a node for each emitted
   * parent not already shown, with its catalog data, and keeps every node
   * already there as it was.
   */
  lemma {:induction false} AddDeltaNodes(c: Canvas, catalog: seq<Strain>, loaded: set<Id>, nodeId: Id, info: Strain,
                                         parents: seq<Id>)
    ensures var r, e := AddElements(c, Delta(catalog, loaded, nodeId, info, parents)), Emitted(catalog, loaded, parents);
      && r.nodes.Keys == c.nodes.Keys + Elems(e)
      && (forall k :: k in c.nodes ==> r.nodes[k] == c.nodes[k])
      && (forall k :: k in r.nodes && k !in c.nodes ==>
            Find(catalog, k).Some? && r.nodes[k] == Find(catalog, k).value.data)
    decreases |parents|
  {
    if parents != [] {
      var init := parents[..|parents| - 1];
      var last := parents[|parents| - 1];
      AddDeltaNodes(c, catalog, loaded, nodeId, info, init);
      var d0 := Delta(catalog, loaded, nodeId, info, init);
      var e0 := Emitted(catalog, loaded, init);
      var r0 := AddElements(c, d0);
      if Emits(catalog, loaded, last) {
        var s := Find(catalog, last).value;
        var n := NodeEl(s.data);
        var ed := EdgeEl(ParentEdge(nodeId, info, last));
        assert Delta(catalog, loaded, nodeId, info, parents) == d0 + [n, ed];
        AddTwo(c, d0, n, ed);
        AddParentNode(r0, s.data, ParentEdge(nodeId, info, last));
        assert Emitted(catalog, loaded, parents) == e0 + [last];
        assert Elems(e0 + [last]) == Elems(e0) + {last};
      } else {
        assert Delta(catalog, loaded, nodeId, info, parents) == d0;
        assert Emitted(catalog, loaded, parents) == e0;
      }
    }
  }

  /**
   * Adding a parent's node and then its edge shows the parent, keeps every
   * node already there, and gives the parent its data when it was not shown.
   */
  lemma AddParentNode(c: Canvas, d: StrainData, e: Edge)
    ensures var r := AddElement(AddElement(c, NodeEl(d)), EdgeEl(e));
      && r.nodes.Keys == c.nodes.Keys + {d.id}
      && (forall k :: k in c.nodes ==> r.nodes[k] == c.nodes[k])
      && (d.id !in c.nodes ==> r.nodes[d.id] == d)
  {
  }

  /** Adding an expansion's delta to a canvas adds exactly the emitted parents' edges. */
  lemma {:induction false} AddDeltaEdges(c: Canvas, catalog: seq<Strain>, loaded: set<Id>, nodeId: Id, info: Strain,
                                         parents: seq<Id>)
    ensures AddElements(c, Delta(catalog, loaded, nodeId, info, parents)).edges
            == c.edges + (set p | p in Emitted(catalog, loaded, parents) :: ParentEdge(nodeId, info, p))
    decreases |parents|
  {
    if parents == [] {
      assert (set p | p in [] :: ParentEdge(nodeId, info, p)) == {};
    } else {
      var init := parents[..|parents| - 1];
      var last := parents[|parents| - 1];
      AddDeltaEdges(c, catalog, loaded, nodeId, info, init);
      var d0 := Delta(catalog, loaded, nodeId, info, init);
      var e0 := Emitted(catalog, loaded, init);
      if Emits(catalog, loaded, last) {
        var n := NodeEl(Find(catalog, last).value.data);
        var ed := EdgeEl(ParentEdge(nodeId, info, last));
        assert Delta(catalog, loaded, nodeId, info, parents) == d0 + [n, ed];
        AddTwo(c, d0, n, ed);
        assert Emitted(catalog, loaded, parents) == e0 + [last];
        assert (set p | p in e0 + [last] :: ParentEdge(nodeId, info, p))
               == (set p | p in e0 :: ParentEdge(nodeId, info, p)) + {ParentEdge(nodeId, info, last)};
      } else {
        assert Delta(catalog, loaded, nodeId, info, parents) == d0;
        assert Emitted(catalog, loaded, parents) == e0;
      }
    }
  }

  /**
   * What the canvas keeps under every tap handler: each node is stored under
   * its own id, the start nodes and edges are there unchanged, every edge
   * joins two shown nodes, and every edge added since the start leaves a
   * node outside the start set.
   */
  ghost predicate ConsistentCanvas(c: Canvas) {
    && (forall id :: id in c.nodes ==> c.nodes[id].id == id)
    && (forall id :: id in InitialIds ==> id in c.nodes && c.nodes[id] == InitialNodes[id])
    && InitialEdges <= c.edges
    && (forall e :: e in c.edges ==> e.source in c.nodes && e.target in c.nodes)
    && (forall e :: e in c.edges && e !in InitialEdges ==> e.source !in InitialIds)
  }

  /**
   * Expanding a shown node against any set that holds the start set keeps the
   * canvas consistent: the added nodes are catalog records outside the start
   * set, and each added edge runs from one of them to the shown node.
   */
  lemma DeltaKeepsConsistent(c: Canvas, catalog: seq<Strain>, loaded: set<Id>, nodeId: Id, info: Strain)
    requires ConsistentCanvas(c) && nodeId in c.nodes && InitialIds <= loaded
    ensures ConsistentCanvas(AddElements(c, Delta(catalog, loaded, nodeId, info, ParentsOf(info))))
  {
    var ps := ParentsOf(info);
    AddDeltaNodes(c, catalog, loaded, nodeId, info, ps);
    AddDeltaEdges(c, catalog, loaded, nodeId, info, ps);
    EmittedMembers(catalog, loaded, ps);
  }

  /**
   * The viewer's state: the loaded ids (held apart from the canvas, as the
   * source keeps them), the canvas nodes and edges, and the selected node's data.
   */
  class LineageGraph {
    const catalog: seq<Strain>
    var loaded: set<Id>
    var nodes: map<Id, StrainData>
    var edges: set<Edge>
    var selected: Option<StrainData>

    /** The canvas satisfies ConsistentCanvas. */
    ghost predicate Consistent()
      reads this
    {
      ConsistentCanvas(Canvas(nodes, edges))
    }

    /**
     * The canvas is consistent and shows exactly the loaded ids (held apart
     * from the canvas, as the source keeps them); every node outside the
     * start set is a catalog record with its catalog data.
     */
    ghost predicate Valid()
      reads this
    {
      && Consistent()
      && nodes.Keys == loaded
      && (forall id :: id in loaded && id !in InitialIds ==>
            Find(catalog, id).Some? && nodes[id] == Find(catalog, id).value.data)
    }

    /** The state at session start: the start graph, nothing selected. */
    ghost predicate AtStart()
      reads this
    {
      loaded == InitialIds && nodes == InitialNodes && edges == InitialEdges && selected == None
    }

    constructor (catalog: seq<Strain>)
      ensures this.catalog == catalog
      ensures Valid() && AtStart()
    {
      this.catalog := catalog;
      loaded := InitialIds;
      nodes := InitialNodes;
      edges := InitialEdges;
      selected := None;
    }

    /**
     * Expands the focal node's parents: adds the delta to the canvas and, when
     * the delta is not empty, replaces the loaded set with the enlarged copy.
     */
    method ExpandParents(nodeId: Id, info: Strain)
      requires Valid()
      requires nodeId in loaded
      modifies this
      ensures Valid()
      ensures loaded == old(loaded) + Elems(Emitted(catalog, old(loaded), ParentsOf(info)))
      ensures Canvas(nodes, edges)
              == AddElements(old(Canvas(nodes, edges)), Delta(catalog, old(loaded), nodeId, info, ParentsOf(info)))
      ensures selected == old(selected)
    {
      var elementsToAdd, newNodes := ComputeExpansion(catalog, loaded, nodeId, info);
      AddDeltaNodes(Canvas(nodes, edges), catalog, loaded, nodeId, info, ParentsOf(info));
      AddDeltaEdges(Canvas(nodes, edges), catalog, loaded, nodeId, info, ParentsOf(info));
      EmittedMembers(catalog, loaded, ParentsOf(info));
      if |elementsToAdd| > 0 {
        var c := AddElements(Canvas(nodes, edges), elementsToAdd);
        nodes, edges := c.nodes, c.edges;
        loaded := newNodes;
      } else {
        DeltaShape(catalog, loaded, nodeId, info, ParentsOf(info));
      }
    }

    /**
     * A tap on a node: selects that node's data, then, when the catalog has
     * the node and the record lists parents, expands them.
     */
    method SelectNode(nodeId: Id)
      requires Valid()
      requires nodeId in nodes
      modifies this
      ensures Valid()
      ensures selected == Some(old(nodes[nodeId]))
      ensures loaded == old(loaded) + Elems(NewParents(catalog, old(loaded), nodeId))
      ensures Canvas(nodes, edges) == AddElements(old(Canvas(nodes, edges)), SelectionDelta(catalog, old(loaded), nodeId))
    {
      var nodeData := nodes[nodeId];
      selected := Some(nodeData);
      assert nodeData.id == nodeId;
      var nodeInfo := Find(catalog, nodeData.id);
      if nodeInfo.Some? && nodeInfo.value.parents.Some? {
        ExpandParents(nodeId, nodeInfo.value);
      }
    }

    /**
     * The tap on a node as the source writes it: the handler is registered
     * once, so the expansion it runs always sees the loaded set of the first
     * render, the start set, and stores the start set enlarged by this
     * expansion's parents as the new loaded set.
     */
    method SelectNodeAsWritten(nodeId: Id)
      requires Consistent()
      requires nodeId in nodes
      modifies this
      ensures Consistent()
      ensures selected == Some(old(nodes[nodeId]))
      ensures var id := old(nodes[nodeId]).id;
        Canvas(nodes, edges) == AddElements(old(Canvas(nodes, edges)), SelectionDelta(catalog, InitialIds, id))
      ensures var id := old(nodes[nodeId]).id;
        loaded == if NewParents(catalog, InitialIds, id) == [] then old(loaded)
                  else InitialIds + Elems(NewParents(catalog, InitialIds, id))
    {
      var nodeData := nodes[nodeId];
      selected := Some(nodeData);
      var nodeInfo := Find(catalog, nodeData.id);
      NothingToExpand(catalog, InitialIds, nodeData.id);
      if nodeInfo.Some? && nodeInfo.value.parents.Some? {
        var elementsToAdd, newNodes := ComputeExpansion(catalog, InitialIds, nodeData.id, nodeInfo.value);
        DeltaKeepsConsistent(Canvas(nodes, edges), catalog, InitialIds, nodeData.id, nodeInfo.value);
        if |elementsToAdd| > 0 {
          var c := AddElements(Canvas(nodes, edges), elementsToAdd);
          nodes, edges := c.nodes, c.edges;
          loaded := newNodes;
        }
      }
    }

    /** A tap on the background (or closing the detail panel): clears the selection only. */
    method Deselect()
      requires Valid()
      modifies this`selected
      ensures Valid()
      ensures selected == None
    {
      selected := None;
    }

    /**
     * Removes every node outside the start set (and with it every edge that
     * loses an end), restores the loaded set and clears the selection.
     */
    method ResetView()
      requires Consistent()
      modifies this
      ensures Valid() && AtStart()
    {
      var kept := map id | id in nodes && id in InitialIds :: nodes[id];
      var keptEdges := set e | e in edges && e.source in kept && e.target in kept;
      assert kept == InitialNodes;
      assert keptEdges == InitialEdges;
      nodes, edges := kept, keptEdges;
      loaded := InitialIds;
      selected := None;
    }
  }
}
