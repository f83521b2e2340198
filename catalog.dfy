/** The conventional Some/None datatype, for optional fields and failed lookups. */
module Options {
  datatype Option<+T> = None | Some(value: T)
}

/**
 * The strain catalog: the fixed table of strain records that the lineage
 * viewer reads, and the lookup of a record by its id.
 */
module Catalog {
  import opened Options

  type Id = string

  /** The evidentiary tier of a record (the record's `type` field). */
  datatype Confidence = Verified | Documented | Undocumented

  /** The classification of a parent-to-child edge. */
  datatype EdgeRole = Normal | F1Component | FinalCross

  /** The display fields of a record: exactly what a graph node carries as its data. */
  datatype StrainData = StrainData(
    id: Id,
    name: string,            // the record's `label` (a reserved word in Dafny)
    confidence: Confidence,
    breeder: Option<string>,
    origin: Option<string>,
    generation: Option<int>,
    notes: Option<string>,
    lineageFormula: Option<string>)

  /** A catalog record: its display data, its ordered parent ids and the roles of those parents. */
  datatype Strain = Strain(
    data: StrainData,
    parents: Option<seq<Id>>,
    parentRoles: Option<map<Id, EdgeRole>>)
  {
    function Id(): Id { data.id }
  }

  /** Some record of the catalog has this id. */
  predicate Listed(catalog: seq<Strain>, id: Id) {
    exists i :: 0 <= i < |catalog| && catalog[i].Id() == id
  }

  /** No two records of the catalog share an id. */
  predicate UniqueIds(catalog: seq<Strain>) {
    forall i, j :: 0 <= i < j < |catalog| ==> catalog[i].Id() != catalog[j].Id()
  }

  /**
   * The first record whose id is `id`, or None when no record has it
   * (the catalog lookup `nodes.find(n => n.id === id)`).
   */
  function Find(catalog: seq<Strain>, id: Id): (r: Option<Strain>)
    ensures r.Some? <==> Listed(catalog, id)
    ensures r.Some? ==> r.value.Id() == id && r.value in catalog
  {
    if catalog == [] then None
    else if catalog[0].Id() == id then Some(catalog[0])
    else
      var r := Find(catalog[1..], id);
      assert Listed(catalog, id) ==> Listed(catalog[1..], id) by {
        if Listed(catalog, id) {
          var i :| 0 <= i < |catalog| && catalog[i].Id() == id;
          assert catalog[1..][i - 1].Id() == id;
        }
      }
      r
  }

  /**
   * The record Find returns is the first with that id: no record before it
   * in the catalog has the id.
   */
  lemma {:induction false} FindFirstMatch(catalog: seq<Strain>, id: Id)
    requires Find(catalog, id).Some?
    ensures exists i :: 0 <= i < |catalog| && catalog[i] == Find(catalog, id).value &&
                        forall j :: 0 <= j < i ==> catalog[j].Id() != id
  {
    if catalog[0].Id() != id {
      var tail := catalog[1..];
      FindFirstMatch(tail, id);
      var i :| 0 <= i < |tail| && tail[i] == Find(tail, id).value &&
               forall j :: 0 <= j < i ==> tail[j].Id() != id;
      assert catalog[i + 1] == Find(catalog, id).value;
      forall j | 0 <= j < i + 1 ensures catalog[j].Id() != id {
        if j > 0 { assert catalog[j] == tail[j - 1]; }
      }
    }
  }

  /** In a catalog without duplicate ids, looking up a record's id finds that very record. */
  lemma FindListedRecord(catalog: seq<Strain>, s: Strain)
    requires UniqueIds(catalog)
    requires s in catalog
    ensures Find(catalog, s.Id()) == Some(s)
  {
    var k :| 0 <= k < |catalog| && catalog[k] == s;
    assert Listed(catalog, s.Id());
    FindFirstMatch(catalog, s.Id());
    var i :| 0 <= i < |catalog| && catalog[i] == Find(catalog, s.Id()).value &&
             forall j :: 0 <= j < i ==> catalog[j].Id() != s.Id();
    assert !(k < i);
    assert !(i < k);
  }

  /** The records of `GENETICS_DB.nodes`, one constant each. */
  const Dd: Strain :=
    Strain(StrainData("dd", "Devil Driver", Verified, Some("Tiki Madman"), Some("USA / Michigan"), Some(0),
                      Some("Selected for elite bag appeal, vigorous growth, and a unique terpene profile."), None),
           Some(["sundae", "melon"]), None)
  const Sundae: Strain :=
    Strain(StrainData("sundae", "Sundae Driver", Documented, Some("Cannarado Genetics"), Some("Colorado"), Some(1),
                      Some("A creamy, dessert-leaning cross that became a staple in modern breeding."), None),
           Some(["fpog", "grape_pie"]), None)
  const Fpog: Strain :=
    Strain(StrainData("fpog", "FPOG", Documented, None, None, Some(2),
                      Some("Fruity Pebbles OG. A complex multi-generation hybrid known for its tropical aroma."),
                      Some("(Green Ribbon × GDP) × Tahoe Alien")),
           Some(["green_ribbon", "gdp", "tahoe_alien"]),
           Some(map["green_ribbon" := F1Component, "gdp" := F1Component, "tahoe_alien" := FinalCross]))
  const GreenRibbon: Strain :=
    Strain(StrainData("green_ribbon", "Green Ribbon", Documented, None, None, Some(3),
                      Some("Bay Area hybrid, brings potency and structure."), None),
           Some(["trainwreck", "afghani"]), None)
  const Gdp: Strain :=
    Strain(StrainData("gdp", "Granddaddy Purple", Documented, Some("Ken Estes"), None, Some(3),
                      Some("The definitive purple indica from Northern California."), None),
           Some(["mendo_purps", "skunk_afghani"]), None)
  const TahoeAlien: Strain :=
    Strain(StrainData("tahoe_alien", "Tahoe Alien", Documented, Some("Alien Genetics"), None, Some(3),
                      Some("A potent cross of Tahoe OG and Alien Kush."), None),
           Some(["tahoe_og", "alien_kush"]), None)
  const GrapePie: Strain :=
    Strain(StrainData("grape_pie", "Grape Pie", Documented, None, None, Some(2),
                      Some("Contributes deep grape flavor and resin density."), None),
           Some(["cherry_pie", "grape_stomper"]), None)
  const CherryPie: Strain :=
    Strain(StrainData("cherry_pie", "Cherry Pie", Documented, None, None, None, None, None),
           Some(["gdp", "durban_poison"]), None)
  const GrapeStomper: Strain :=
    Strain(StrainData("grape_stomper", "Grape Stomper", Documented, None, None, None, None, None),
           Some(["purple_elephant", "chemdog_sour_diesel"]), None)
  const Melon: Strain :=
    Strain(StrainData("melon", "Melonade", Documented, Some("Midwest Best"), Some("California"), Some(1),
                      Some("Award-winning strain known for intense citrus and melon terps."), None),
           Some(["watermelon_zkitt", "lemon_tree"]), None)
  const WatermelonZkitt: Strain :=
    Strain(StrainData("watermelon_zkitt", "Watermelon Zkittlez", Documented, None, None, Some(2), None, None),
           Some(["watermelon_zum_zum", "og_eddy_lepp"]), None)
  const LemonTree: Strain :=
    Strain(StrainData("lemon_tree", "Lemon Tree", Documented, None, None, Some(2),
                      Some("A high-terpene Lemon Skunk x Sour Diesel cross."), None),
           Some(["lemon_skunk", "sour_diesel"]), None)
  const Trainwreck: Strain :=
    Strain(StrainData("trainwreck", "Trainwreck", Documented, None, None, Some(4),
                      Some("Classic Northern California mix of Mexican, Thai, and Afghani genetics."), None),
           Some(["mexican", "thai", "afghani"]), None)
  const DurbanPoison: Strain :=
    Strain(StrainData("durban_poison", "Durban Poison", Verified, None, Some("South Africa"), None,
                      Some("Pure landrace sativa lineage."), None),
           None, None)
  const TahoeOg: Strain :=
    Strain(StrainData("tahoe_og", "Tahoe OG", Documented, None, None, None, None, None),
           Some(["og_kush"]), None)
  const SourDiesel: Strain :=
    Strain(StrainData("sour_diesel", "Sour Diesel", Documented, None, None, None, None, None),
           Some(["chemdog_91", "super_skunk"]), None)
  const OgKush: Strain :=
    Strain(StrainData("og_kush", "OG Kush", Documented, None, None, None,
                      Some("The genetic pillar of the modern cannabis era."), None),
           None, None)
  const Mexican: Strain :=
    Strain(StrainData("mexican", "Mexican Landrace", Documented, None, Some("Mexico"), None, None, None), None, None)
  const Thai: Strain :=
    Strain(StrainData("thai", "Thai Landrace", Documented, None, Some("Thailand"), None, None, None), None, None)
  const Afghani: Strain :=
    Strain(StrainData("afghani", "Afghani", Documented, None, Some("Afghanistan"), None, None, None), None, None)
  const MendoPurps: Strain :=
    Strain(StrainData("mendo_purps", "Mendo Purps", Documented, None, None, None, None, None), None, None)
  const SkunkAfghani: Strain :=
    Strain(StrainData("skunk_afghani", "Skunk #1 x Afghani", Undocumented, None, None, None, None, None), None, None)
  const AlienKush: Strain :=
    Strain(StrainData("alien_kush", "Alien Kush", Documented, None, None, None, None, None), None, None)
  const PurpleElephant: Strain :=
    Strain(StrainData("purple_elephant", "Purple Elephant", Documented, None, None, None, None, None), None, None)
  const ChemdogSourDiesel: Strain :=
    Strain(StrainData("chemdog_sour_diesel", "Chemdog x Sour Diesel", Documented, None, None, None, None, None),
           None, None)
  const WatermelonZumZum: Strain :=
    Strain(StrainData("watermelon_zum_zum", "Watermelon Zum Zum", Undocumented, None, None, None, None, None),
           None, None)
  const OgEddyLepp: Strain :=
    Strain(StrainData("og_eddy_lepp", "OG Eddy Lepp", Documented, None, None, None, None, None), None, None)
  const LemonSkunk: Strain :=
    Strain(StrainData("lemon_skunk", "Lemon Skunk", Documented, None, None, None, None, None), None, None)

  /** Joining two catalogs without duplicate ids that share no id gives one without duplicate ids. */
  lemma UniqueIdsAppend(a: seq<Strain>, b: seq<Strain>)
    requires UniqueIds(a) && UniqueIds(b)
    requires forall i, j :: 0 <= i < |a| && 0 <= j < |b| ==> a[i].Id() != b[j].Id()
    ensures UniqueIds(a + b)
  {
    forall i, j | 0 <= i < j < |a + b| ensures (a + b)[i].Id() != (a + b)[j].Id() {
      if j < |a| {
        assert (a + b)[i] == a[i] && (a + b)[j] == a[j];
      } else if i < |a| {
        assert (a + b)[i] == a[i] && (a + b)[j] == b[j - |a|];
      } else {
        assert (a + b)[i] == b[i - |a|] && (a + b)[j] == b[j - |a|];
      }
    }
  }

  /** The first half of the record table `GENETICS_DB.nodes`, in its declared order. */
  const DbFront: seq<Strain> :=
    [Dd, Sundae, Fpog, GreenRibbon, Gdp, TahoeAlien, GrapePie, CherryPie, GrapeStomper, Melon,
     WatermelonZkitt, LemonTree, Trainwreck, DurbanPoison]

  /** The second half of the record table, in its declared order. */
  const DbBack: seq<Strain> :=
    [TahoeOg, SourDiesel, OgKush, Mexican, Thai, Afghani, MendoPurps, SkunkAfghani, AlienKush, PurpleElephant,
     ChemdogSourDiesel, WatermelonZumZum, OgEddyLepp, LemonSkunk]

  /** The record table `GENETICS_DB.nodes`, in its declared order. */
  const Db: seq<Strain> := DbFront + DbBack

  /** No two records of the first half share an id. */
  lemma DbFrontUnique() ensures UniqueIds(DbFront) {}

  /** No two records of the second half share an id. */
  lemma DbBackUnique() ensures UniqueIds(DbBack) {}

  /** No id occurs in both halves. */
  lemma DbHalvesDisjoint()
    ensures forall i, j :: 0 <= i < |DbFront| && 0 <= j < |DbBack| ==> DbFront[i].Id() != DbBack[j].Id()
  {}

  /** The catalog's ids are unique. */
  lemma DbIdsUnique()
    ensures UniqueIds(Db)
  {
    DbFrontUnique();
    DbBackUnique();
    DbHalvesDisjoint();
    UniqueIdsAppend(DbFront, DbBack);
  }
}
