/**
 * Parent expansion: given the set of ids already on the graph and a focal
 * record, the nodes and parent-to-child edges that selecting it adds, in the
 * order they are added, and the enlarged loaded set.
 */
module Expansion {
  import opened Options
  import opened Catalog

  /** A graph edge; parent edges are identified as "<parent>-<child>". */
  datatype Edge = Edge(id: string, source: Id, target: Id, role: EdgeRole)

  /** One element handed to the graph: a node with its data, or an edge. */
  datatype Element = NodeEl(data: StrainData) | EdgeEl(edge: Edge)

  /** The ids a list of strings holds, as a set. */
  function Elems(s: seq<Id>): set<Id> {
    set x | x in s
  }

  /** The declared parents of a record; a record without a parent list has none. */
  function ParentsOf(info: Strain): seq<Id> {
    if info.parents.Some? then info.parents.value else []
  }

  /** The role of the edge from `parentId`: its `parentRoles` entry when there is one, else Normal. */
  function RoleOf(info: Strain, parentId: Id): EdgeRole {
    match info.parentRoles
    case None => Normal
    case Some(roles) => if parentId in roles then roles[parentId] else Normal
  }

  /** The edge from a parent to the focal node. */
  function ParentEdge(nodeId: Id, info: Strain, parentId: Id): Edge {
    Edge(parentId + "-" + nodeId, parentId, nodeId, RoleOf(info, parentId))
  }

  /** A parent produces elements when it is not loaded yet and the catalog has it. */
  predicate Emits(catalog: seq<Strain>, loaded: set<Id>, parentId: Id) {
    parentId !in loaded && Find(catalog, parentId).Some?
  }

  /** What one parent contributes: nothing, or its node followed by its edge to the focal node. */
  function Step(catalog: seq<Strain>, loaded: set<Id>, nodeId: Id, info: Strain, parentId: Id): seq<Element> {
    if parentId in loaded then []
    else match Find(catalog, parentId)
      case None => []
      case Some(parent) => [NodeEl(parent.data), EdgeEl(ParentEdge(nodeId, info, parentId))]
  }

  /** The elements a walk over `parents` adds, in walk order. */
  function Delta(catalog: seq<Strain>, loaded: set<Id>, nodeId: Id, info: Strain, parents: seq<Id>): seq<Element>
    decreases |parents|
  {
    if parents == [] then []
    else Delta(catalog, loaded, nodeId, info, parents[..|parents| - 1])
         + Step(catalog, loaded, nodeId, info, parents[|parents| - 1])
  }

  /** The parent ids a walk over `parents` adds to the loaded set, in walk order. */
  function Emitted(catalog: seq<Strain>, loaded: set<Id>, parents: seq<Id>): seq<Id>
    decreases |parents|
  {
    if parents == [] then []
    else Emitted(catalog, loaded, parents[..|parents| - 1])
         + (if Emits(catalog, loaded, parents[|parents| - 1]) then [parents[|parents| - 1]] else [])
  }

  /** The elements selecting `nodeId` adds: none when the catalog does not have it. */
  function SelectionDelta(catalog: seq<Strain>, loaded: set<Id>, nodeId: Id): seq<Element> {
    match Find(catalog, nodeId)
    case None => []
    case Some(info) => Delta(catalog, loaded, nodeId, info, ParentsOf(info))
  }

  /** The parent ids selecting `nodeId` adds to the loaded set. */
  function NewParents(catalog: seq<Strain>, loaded: set<Id>, nodeId: Id): seq<Id> {
    match Find(catalog, nodeId)
    case None => []
    case Some(info) => Emitted(catalog, loaded, ParentsOf(info))
  }

  /**
   * The expansion loop: walks the focal record's parents in order, skipping
   * those already loaded (checked against the loaded set as it was before the
   * walk) and those the catalog lacks, and for each other parent appends its
   * node and its edge and adds it to a copy of the loaded set.
   */
  method ComputeExpansion(catalog: seq<Strain>, loaded: set<Id>, nodeId: Id, info: Strain)
    returns (elementsToAdd: seq<Element>, newNodes: set<Id>)
    ensures elementsToAdd == Delta(catalog, loaded, nodeId, info, ParentsOf(info))
    ensures newNodes == loaded + Elems(Emitted(catalog, loaded, ParentsOf(info)))
  {
    newNodes := loaded;
    elementsToAdd := [];
    if info.parents.None? {
      return;
    }
    var parents := info.parents.value;
    for i := 0 to |parents|
      invariant elementsToAdd == Delta(catalog, loaded, nodeId, info, parents[..i])
      invariant newNodes == loaded + Elems(Emitted(catalog, loaded, parents[..i]))
    {
      var parentId := parents[i];
      assert parents[..i + 1][..i] == parents[..i];
      if parentId !in loaded {
        var parentNode := Find(catalog, parentId);
        if parentNode.Some? {
          elementsToAdd := elementsToAdd + [NodeEl(parentNode.value.data)];
          var edgeRole := RoleOf(info, parentId);
          elementsToAdd := elementsToAdd + [EdgeEl(Edge(parentId + "-" + nodeId, parentId, nodeId, edgeRole))];
          newNodes := newNodes + {parentId};
        }
      }
    }
    assert parents[..|parents|] == parents;
  }

  /** A parent is emitted exactly when it is listed, not loaded, and in the catalog. */
  lemma {:induction false} EmittedMembers(catalog: seq<Strain>, loaded: set<Id>, parents: seq<Id>)
    ensures forall p :: p in Emitted(catalog, loaded, parents) <==>
                        p in parents && p !in loaded && Listed(catalog, p)
    decreases |parents|
  {
    if parents != [] {
      var init := parents[..|parents| - 1];
      EmittedMembers(catalog, loaded, init);
      assert parents == init + [parents[|parents| - 1]];
    }
  }

  /**
   * The delta holds two elements per emitted parent: first the parent's
   * catalog data as a node, then the edge from the parent to the focal node
   * with the parent's role, in the order the parents are listed.
   */
  lemma {:induction false} DeltaShape(catalog: seq<Strain>, loaded: set<Id>, nodeId: Id, info: Strain, parents: seq<Id>)
    ensures var d, e := Delta(catalog, loaded, nodeId, info, parents), Emitted(catalog, loaded, parents);
      && |d| == 2 * |e|
      && forall k :: 0 <= k < |e| ==>
           && Find(catalog, e[k]).Some?
           && d[2 * k] == NodeEl(Find(catalog, e[k]).value.data)
           && d[2 * k + 1] == EdgeEl(ParentEdge(nodeId, info, e[k]))
    decreases |parents|
  {
    if parents != [] {
      var init := parents[..|parents| - 1];
      DeltaShape(catalog, loaded, nodeId, info, init);
    }
  }

  /** Walking two lists one after the other emits what each emits, in that order. */
  lemma {:induction false} DeltaAppend(catalog: seq<Strain>, loaded: set<Id>, nodeId: Id, info: Strain, a: seq<Id>, b: seq<Id>)
    ensures Delta(catalog, loaded, nodeId, info, a + b)
            == Delta(catalog, loaded, nodeId, info, a) + Delta(catalog, loaded, nodeId, info, b)
    ensures Emitted(catalog, loaded, a + b) == Emitted(catalog, loaded, a) + Emitted(catalog, loaded, b)
    decreases |b|
  {
    if b == [] {
      assert a + b == a;
    } else {
      var init := b[..|b| - 1];
      var last := b[|b| - 1];
      assert (a + b)[..|a + b| - 1] == a + init;
      assert (a + b)[|a + b| - 1] == last;
      DeltaAppend(catalog, loaded, nodeId, info, a, init);
    }
  }

  /**
   * Selecting a node adds nothing exactly when the catalog lacks it, or each of
   * its parents is already loaded or missing from the catalog (which covers a
   * record without parents).
   */
  lemma NothingToExpand(catalog: seq<Strain>, loaded: set<Id>, nodeId: Id)
    ensures SelectionDelta(catalog, loaded, nodeId) == [] <==> NewParents(catalog, loaded, nodeId) == []
    ensures NewParents(catalog, loaded, nodeId) == [] <==>
            (Find(catalog, nodeId).None? ||
             forall p :: p in ParentsOf(Find(catalog, nodeId).value) ==> p in loaded || !Listed(catalog, p))
  {
    match Find(catalog, nodeId)
    case None =>
    case Some(info) =>
      var ps := ParentsOf(info);
      DeltaShape(catalog, loaded, nodeId, info, ps);
      EmittedMembers(catalog, loaded, ps);
      var e := Emitted(catalog, loaded, ps);
      if e != [] {
        assert e[0] in e;
      }
  }

  /** Selecting the same node twice in a row: the second selection adds nothing. */
  lemma ExpandTwice(catalog: seq<Strain>, loaded: set<Id>, nodeId: Id)
    ensures var grown := loaded + Elems(NewParents(catalog, loaded, nodeId));
      && NewParents(catalog, grown, nodeId) == []
      && SelectionDelta(catalog, grown, nodeId) == []
  {
    var grown := loaded + Elems(NewParents(catalog, loaded, nodeId));
    NothingToExpand(catalog, grown, nodeId);
    match Find(catalog, nodeId)
    case None =>
    case Some(info) =>
      var ps := ParentsOf(info);
      EmittedMembers(catalog, loaded, ps);
      EmittedMembers(catalog, grown, ps);
  }

  /**
   * A parent listed twice that is not loaded yet is emitted twice, because each
   * occurrence is checked against the loaded set as it was before the walk.
   */
  lemma RepeatedParentEmittedTwice(catalog: seq<Strain>, loaded: set<Id>, nodeId: Id, info: Strain, p: Id)
    requires p !in loaded && Listed(catalog, p)
    ensures Emitted(catalog, loaded, [p, p]) == [p, p]
    ensures var node := NodeEl(Find(catalog, p).value.data);
            var edge := EdgeEl(ParentEdge(nodeId, info, p));
            Delta(catalog, loaded, nodeId, info, [p, p]) == [node, edge, node, edge]
  {
    assert Emits(catalog, loaded, p);
    assert [p, p][..1] == [p];
    assert [p][..0] == [];
    assert Emitted(catalog, loaded, [p]) == [p];
    assert Delta(catalog, loaded, nodeId, info, [p]) == Step(catalog, loaded, nodeId, info, p);
  }
}
