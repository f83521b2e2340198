/**
 * Expansion on the viewer's own catalog: the concrete selections the viewer
 * is built around, worked out from the general definitions.
 */
module Scenarios {
  import opened Options
  import opened Catalog
  import opened Expansion
  import opened Graph

  /** A record of the catalog is what looking up its id finds. */
  lemma Lookup(s: Strain)
    requires s in Db
    ensures Find(Db, s.Id()) == Some(s)
  {
    DbIdsUnique();
    FindListedRecord(Db, s);
  }

  /** A walk over two parents adds what the first adds, then what the second adds. */
  lemma WalkTwo(catalog: seq<Strain>, loaded: set<Id>, nodeId: Id, info: Strain, p1: Id, p2: Id)
    ensures Delta(catalog, loaded, nodeId, info, [p1, p2])
            == Step(catalog, loaded, nodeId, info, p1) + Step(catalog, loaded, nodeId, info, p2)
    ensures Emitted(catalog, loaded, [p1, p2])
            == (if Emits(catalog, loaded, p1) then [p1] else []) + (if Emits(catalog, loaded, p2) then [p2] else [])
  {
    assert [p1, p2][..1] == [p1];
    assert [p1][..0] == [];
    assert Delta(catalog, loaded, nodeId, info, [p1]) == Step(catalog, loaded, nodeId, info, p1);
    assert Emitted(catalog, loaded, [p1]) == if Emits(catalog, loaded, p1) then [p1] else [];
  }

  /** A walk over three parents adds what the walk over the first two adds, then what the third adds. */
  lemma WalkThree(catalog: seq<Strain>, loaded: set<Id>, nodeId: Id, info: Strain, p1: Id, p2: Id, p3: Id)
    ensures Delta(catalog, loaded, nodeId, info, [p1, p2, p3])
            == Delta(catalog, loaded, nodeId, info, [p1, p2]) + Step(catalog, loaded, nodeId, info, p3)
    ensures Emitted(catalog, loaded, [p1, p2, p3])
            == Emitted(catalog, loaded, [p1, p2]) + (if Emits(catalog, loaded, p3) then [p3] else [])
  {
    assert [p1, p2, p3][..2] == [p1, p2];
  }

  /** A parent that is not loaded and that the catalog has adds its node, then its edge. */
  lemma StepAdds(catalog: seq<Strain>, loaded: set<Id>, nodeId: Id, info: Strain, p: Id, parent: Strain)
    requires Find(catalog, p) == Some(parent) && p !in loaded
    ensures Step(catalog, loaded, nodeId, info, p) == [NodeEl(parent.data), EdgeEl(ParentEdge(nodeId, info, p))]
  {
  }

  /**
   * Selecting a record with two parents, neither loaded and both in the
   * catalog, adds the first parent's node and edge, then the second's.
   */
  lemma SelectTwoParents(catalog: seq<Strain>, loaded: set<Id>, nodeId: Id, info: Strain,
                         p1: Id, parent1: Strain, p2: Id, parent2: Strain)
    requires Find(catalog, nodeId) == Some(info) && ParentsOf(info) == [p1, p2]
    requires Find(catalog, p1) == Some(parent1) && p1 !in loaded
    requires Find(catalog, p2) == Some(parent2) && p2 !in loaded
    ensures NewParents(catalog, loaded, nodeId) == [p1, p2]
    ensures SelectionDelta(catalog, loaded, nodeId) == [
              NodeEl(parent1.data), EdgeEl(ParentEdge(nodeId, info, p1)),
              NodeEl(parent2.data), EdgeEl(ParentEdge(nodeId, info, p2))]
  {
    WalkTwo(catalog, loaded, nodeId, info, p1, p2);
    StepAdds(catalog, loaded, nodeId, info, p1, parent1);
    StepAdds(catalog, loaded, nodeId, info, p2, parent2);
  }

  /**
   * Selecting a record with three parents, none loaded and all in the
   * catalog, adds each parent's node and edge in the listed order.
   */
  lemma SelectThreeParents(catalog: seq<Strain>, loaded: set<Id>, nodeId: Id, info: Strain,
                           p1: Id, parent1: Strain, p2: Id, parent2: Strain, p3: Id, parent3: Strain)
    requires Find(catalog, nodeId) == Some(info) && ParentsOf(info) == [p1, p2, p3]
    requires Find(catalog, p1) == Some(parent1) && p1 !in loaded
    requires Find(catalog, p2) == Some(parent2) && p2 !in loaded
    requires Find(catalog, p3) == Some(parent3) && p3 !in loaded
    ensures NewParents(catalog, loaded, nodeId) == [p1, p2, p3]
    ensures SelectionDelta(catalog, loaded, nodeId) == [
              NodeEl(parent1.data), EdgeEl(ParentEdge(nodeId, info, p1)),
              NodeEl(parent2.data), EdgeEl(ParentEdge(nodeId, info, p2)),
              NodeEl(parent3.data), EdgeEl(ParentEdge(nodeId, info, p3))]
  {
    var n1, e1 := NodeEl(parent1.data), EdgeEl(ParentEdge(nodeId, info, p1));
    var n2, e2 := NodeEl(parent2.data), EdgeEl(ParentEdge(nodeId, info, p2));
    var n3, e3 := NodeEl(parent3.data), EdgeEl(ParentEdge(nodeId, info, p3));
    WalkTwo(catalog, loaded, nodeId, info, p1, p2);
    StepAdds(catalog, loaded, nodeId, info, p1, parent1);
    StepAdds(catalog, loaded, nodeId, info, p2, parent2);
    StepAdds(catalog, loaded, nodeId, info, p3, parent3);
    WalkThree(catalog, loaded, nodeId, info, p1, p2, p3);
    assert [n1, e1] + [n2, e2] + [n3, e3] == [n1, e1, n2, e2, n3, e3];
  }

  /** Selecting a record whose two parents the catalog lacks adds nothing. */
  lemma SelectMissingParents(catalog: seq<Strain>, loaded: set<Id>, nodeId: Id, info: Strain, p1: Id, p2: Id)
    requires Find(catalog, nodeId) == Some(info) && ParentsOf(info) == [p1, p2]
    requires !Listed(catalog, p1) && !Listed(catalog, p2)
    ensures NewParents(catalog, loaded, nodeId) == []
    ensures SelectionDelta(catalog, loaded, nodeId) == []
  {
    WalkTwo(catalog, loaded, nodeId, info, p1, p2);
  }

  /** FPOG's parent edges carry the roles its record assigns. */
  lemma FpogEdges()
    ensures ParentEdge("fpog", Fpog, "green_ribbon") == Edge("green_ribbon-fpog", "green_ribbon", "fpog", F1Component)
    ensures ParentEdge("fpog", Fpog, "gdp") == Edge("gdp-fpog", "gdp", "fpog", F1Component)
    ensures ParentEdge("fpog", Fpog, "tahoe_alien") == Edge("tahoe_alien-fpog", "tahoe_alien", "fpog", FinalCross)
  {
    assert "green_ribbon" + "-" + "fpog" == "green_ribbon-fpog";
    assert "gdp" + "-" + "fpog" == "gdp-fpog";
    assert "tahoe_alien" + "-" + "fpog" == "tahoe_alien-fpog";
  }

  /** The viewer's catalog holds FPOG and its first parent. */
  lemma FpogFound()
    ensures Find(Db, "fpog") == Some(Fpog) && Find(Db, "green_ribbon") == Some(GreenRibbon)
  {
    Lookup(Fpog);
    Lookup(GreenRibbon);
  }

  /** The viewer's catalog holds FPOG's second and third parents. */
  lemma FpogLaterParentsFound()
    ensures Find(Db, "gdp") == Some(Gdp) && Find(Db, "tahoe_alien") == Some(TahoeAlien)
  {
    Lookup(Gdp);
    Lookup(TahoeAlien);
  }

  /**
   * Selecting FPOG while none of its parents is loaded adds Green Ribbon, GDP
   * and Tahoe Alien in that order, the first two joined as F1 components and
   * Tahoe Alien as the final cross.
   */
  lemma FpogRoles(loaded: set<Id>)
    requires "green_ribbon" !in loaded && "gdp" !in loaded && "tahoe_alien" !in loaded
    ensures SelectionDelta(Db, loaded, "fpog") == [
              NodeEl(GreenRibbon.data), EdgeEl(Edge("green_ribbon-fpog", "green_ribbon", "fpog", F1Component)),
              NodeEl(Gdp.data), EdgeEl(Edge("gdp-fpog", "gdp", "fpog", F1Component)),
              NodeEl(TahoeAlien.data), EdgeEl(Edge("tahoe_alien-fpog", "tahoe_alien", "fpog", FinalCross))]
  {
    FpogFound();
    FpogLaterParentsFound();
    FpogEdges();
    SelectThreeParents(Db, loaded, "fpog", Fpog, "green_ribbon", GreenRibbon, "gdp", Gdp, "tahoe_alien", TahoeAlien);
  }

  /**
   * Selecting Devil Driver while both its parents are loaded (as they are at
   * start) adds nothing.
   */
  lemma SelectDdAtStart(loaded: set<Id>)
    requires "sundae" in loaded && "melon" in loaded
    ensures SelectionDelta(Db, loaded, "dd") == []
    ensures NewParents(Db, loaded, "dd") == []
  {
    Lookup(Dd);
    WalkTwo(Db, loaded, "dd", Dd, "sundae", "melon");
  }

  /** Melonade's parent edges are plain ones. */
  lemma MelonEdges()
    ensures ParentEdge("melon", Melon, "watermelon_zkitt")
            == Edge("watermelon_zkitt-melon", "watermelon_zkitt", "melon", Normal)
    ensures ParentEdge("melon", Melon, "lemon_tree") == Edge("lemon_tree-melon", "lemon_tree", "melon", Normal)
  {
    assert "watermelon_zkitt" + "-" + "melon" == "watermelon_zkitt-melon";
    assert "lemon_tree" + "-" + "melon" == "lemon_tree-melon";
  }

  /**
   * Selecting Melonade while neither of its parents is loaded (as at start)
   * adds Watermelon Zkittlez and Lemon Tree, each with a Normal edge to Melonade.
   */
  lemma SelectMelonAtStart(loaded: set<Id>)
    requires "watermelon_zkitt" !in loaded && "lemon_tree" !in loaded
    ensures NewParents(Db, loaded, "melon") == ["watermelon_zkitt", "lemon_tree"]
    ensures SelectionDelta(Db, loaded, "melon") == [
              NodeEl(WatermelonZkitt.data),
              EdgeEl(Edge("watermelon_zkitt-melon", "watermelon_zkitt", "melon", Normal)),
              NodeEl(LemonTree.data),
              EdgeEl(Edge("lemon_tree-melon", "lemon_tree", "melon", Normal))]
  {
    Lookup(Melon);
    Lookup(WatermelonZkitt);
    Lookup(LemonTree);
    MelonEdges();
    SelectTwoParents(Db, loaded, "melon", Melon, "watermelon_zkitt", WatermelonZkitt, "lemon_tree", LemonTree);
  }

  /** The viewer's catalog has no record for either parent Sour Diesel lists. */
  lemma SourDieselParentsMissing()
    ensures !Listed(Db, "chemdog_91") && !Listed(Db, "super_skunk")
  {
  }

  /** Selecting Sour Diesel adds nothing, whatever is loaded: the catalog has neither parent it lists. */
  lemma DanglingParentsSkipped(loaded: set<Id>)
    ensures SelectionDelta(Db, loaded, "sour_diesel") == []
    ensures NewParents(Db, loaded, "sour_diesel") == []
  {
    Lookup(SourDiesel);
    SourDieselParentsMissing();
    SelectMissingParents(Db, loaded, "sour_diesel", SourDiesel, "chemdog_91", "super_skunk");
  }

  /**
   * A session over a catalog that holds Melonade and its two parents: select
   * Melonade (its two parents appear), select it again (nothing changes), tap
   * the background, reset (back to the start graph).
   */
  method MelonadeSession(catalog: seq<Strain>)
    requires Find(catalog, "melon") == Some(Melon)
    requires Find(catalog, "watermelon_zkitt") == Some(WatermelonZkitt)
    requires Find(catalog, "lemon_tree") == Some(LemonTree)
  {
    var g := new LineageGraph(catalog);
    var start := g.loaded;
    SelectTwoParents(catalog, start, "melon", Melon, "watermelon_zkitt", WatermelonZkitt, "lemon_tree", LemonTree);
    g.SelectNode("melon");
    assert "watermelon_zkitt" in g.loaded && "lemon_tree" in g.loaded;
    ExpandTwice(catalog, start, "melon");
    var grown := g.loaded;
    g.SelectNode("melon");
    assert g.loaded == grown;
    g.Deselect();
    g.ResetView();
    assert g.AtStart();
  }

  /**
   * Selecting Melonade and selecting Lemon Tree, both against a set holding
   * none of their parents, add those parents.
   */
  lemma MelonAndLemonTreeParents(catalog: seq<Strain>, start: set<Id>)
    requires Find(catalog, "melon") == Some(Melon)
    requires Find(catalog, "watermelon_zkitt") == Some(WatermelonZkitt)
    requires Find(catalog, "lemon_tree") == Some(LemonTree)
    requires Find(catalog, "lemon_skunk") == Some(LemonSkunk)
    requires Find(catalog, "sour_diesel") == Some(SourDiesel)
    requires "watermelon_zkitt" !in start && "lemon_tree" !in start
    requires "lemon_skunk" !in start && "sour_diesel" !in start
    ensures NewParents(catalog, start, "melon") == ["watermelon_zkitt", "lemon_tree"]
    ensures NewParents(catalog, start, "lemon_tree") == ["lemon_skunk", "sour_diesel"]
  {
    SelectTwoParents(catalog, start, "melon", Melon, "watermelon_zkitt", WatermelonZkitt, "lemon_tree", LemonTree);
    SelectTwoParents(catalog, start, "lemon_tree", LemonTree, "lemon_skunk", LemonSkunk, "sour_diesel", SourDiesel);
  }

  /**
   * Both expansions run against the same set `start`: selecting Melonade puts
   * Lemon Tree on the canvas, and selecting Lemon Tree afterwards keeps
   * Watermelon Zkittlez there.
   */
  lemma MelonThenLemonTree(catalog: seq<Strain>, start: set<Id>, c0: Canvas)
    requires Find(catalog, "melon") == Some(Melon)
    requires Find(catalog, "watermelon_zkitt") == Some(WatermelonZkitt)
    requires Find(catalog, "lemon_tree") == Some(LemonTree)
    requires "watermelon_zkitt" !in start && "lemon_tree" !in start
    requires c0.nodes.Keys == start
    ensures var c1 := AddElements(c0, SelectionDelta(catalog, start, "melon"));
      && "lemon_tree" in c1.nodes && c1.nodes["lemon_tree"] == LemonTree.data
      && "watermelon_zkitt" in AddElements(c1, SelectionDelta(catalog, start, "lemon_tree")).nodes
  {
    SelectTwoParents(catalog, start, "melon", Melon, "watermelon_zkitt", WatermelonZkitt, "lemon_tree", LemonTree);
    AddDeltaNodes(c0, catalog, start, "melon", Melon, ParentsOf(Melon));
    var c1 := AddElements(c0, SelectionDelta(catalog, start, "melon"));
    AddElementsKeeps(c1, SelectionDelta(catalog, start, "lemon_tree"));
  }

  /** The loaded set Lemon Tree's expansion leaves under the handler as written. */
  lemma StaleLoadedSet()
    ensures InitialIds + Elems(["lemon_skunk", "sour_diesel"]) == InitialIds + {"lemon_skunk", "sour_diesel"}
  {
    assert Elems(["lemon_skunk", "sour_diesel"]) == {"lemon_skunk", "sour_diesel"};
  }

  /**
   * The tap handler as the source writes it, on a graph showing the start
   * set, whose catalog holds Melonade, Lemon Tree and their parents: select
   * Melonade, then Lemon Tree.
   * Watermelon Zkittlez is on the canvas but no longer in the loaded set,
   * which the second expansion rebuilt from the start set.
   */
  method StaleLoadedSession(g: LineageGraph)
    requires g.Consistent() && g.loaded == InitialIds && g.nodes.Keys == InitialIds
    requires Find(g.catalog, "melon") == Some(Melon)
    requires Find(g.catalog, "watermelon_zkitt") == Some(WatermelonZkitt)
    requires Find(g.catalog, "lemon_tree") == Some(LemonTree)
    requires Find(g.catalog, "lemon_skunk") == Some(LemonSkunk)
    requires Find(g.catalog, "sour_diesel") == Some(SourDiesel)
    modifies g
    ensures g.Consistent()
    ensures "watermelon_zkitt" in g.nodes && "watermelon_zkitt" !in g.loaded
    ensures g.loaded == InitialIds + {"lemon_skunk", "sour_diesel"}
  {
    MelonAndLemonTreeParents(g.catalog, InitialIds);
    MelonThenLemonTree(g.catalog, InitialIds, Canvas(g.nodes, g.edges));
    g.SelectNodeAsWritten("melon");
    g.SelectNodeAsWritten("lemon_tree");
    StaleLoadedSet();
  }

  /**
   * Reset recovers from the state the handler as written leaves behind: after
   * the session above, the graph is back at the start state.
   */
  method ResetAfterStaleSession(g: LineageGraph)
    requires g.Consistent() && g.loaded == InitialIds && g.nodes.Keys == InitialIds
    requires Find(g.catalog, "melon") == Some(Melon)
    requires Find(g.catalog, "watermelon_zkitt") == Some(WatermelonZkitt)
    requires Find(g.catalog, "lemon_tree") == Some(LemonTree)
    requires Find(g.catalog, "lemon_skunk") == Some(LemonSkunk)
    requires Find(g.catalog, "sour_diesel") == Some(SourDiesel)
    modifies g
    ensures g.Valid() && g.AtStart()
  {
    StaleLoadedSession(g);
    g.ResetView();
  }
}
