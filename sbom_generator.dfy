// The software bills of materials of crates/core/src/sbom_generator.rs: an
// SBOM lists components and dependencies and counts the components per
// license; the generator keeps SBOMs by id.

module SbomGenerator {
  import opened Wrappers
  import opened Seqs

  datatype ComponentType = Library | Framework | Application | Container | OperatingSystem | Device | Firmware | Source

  datatype Component = Component(
    componentId: string, name: string, version: string, componentType: ComponentType,
    license: string, supplier: string, purl: string)

  datatype DependencyType = Depends | DevDependency | Optional | Transitive

  datatype Dependency = Dependency(componentId: string, dependsOn: seq<string>, relationship: DependencyType)

  datatype Sbom = Sbom(
    sbomId: string, version: string, createdDate: string, components: seq<Component>,
    dependencies: seq<Dependency>, licenses: map<string, nat>)

  const CreatedDate: string := "2025-11-21T00:00:00Z"

  function HasLicense(license: string): Component -> bool
  {
    (c: Component) => c.license == license
  }

  function OfType(t: ComponentType): Component -> bool
  {
    (c: Component) => c.componentType == t
  }

  /** The number of components with the license. */
  function LicenseCount(components: seq<Component>, license: string): nat
  {
    |Filter(components, HasLicense(license))|
  }

  /** The license table built from scratch: one entry per license that
      occurs, counting its components. */
  function LicenseTable(components: seq<Component>): map<string, nat>
    decreases |components|
  {
    if components == [] then map[]
    else
      var table := LicenseTable(components[..|components| - 1]);
      var license := components[|components| - 1].license;
      table[license := (if license in table then table[license] else 0) + 1]
  }

  /** The table has exactly the licenses that occur, each with the number
      of its components. */
  lemma {:induction false} LicenseTableCounts(components: seq<Component>)
    ensures forall l :: l in LicenseTable(components) <==> LicenseCount(components, l) > 0
    ensures forall l | l in LicenseTable(components) :: LicenseTable(components)[l] == LicenseCount(components, l)
    decreases |components|
  {
    if components != [] {
      var front, c := components[..|components| - 1], components[|components| - 1];
      LicenseTableCounts(front);
      assert components == front + [c];
      forall l
        ensures LicenseCount(components, l) == LicenseCount(front, l) + (if c.license == l then 1 else 0)
      {
        FilterSnoc(front, c, HasLicense(l));
      }
    }
  }

  function Id(n: nat): nat
  {
    n
  }

  /** The counts of the table add up to the number of components. */
  lemma {:induction false} LicenseTableSum(components: seq<Component>)
    ensures MapSum(LicenseTable(components), Id) == |components|
    decreases |components|
  {
    if components != [] {
      var front, c := components[..|components| - 1], components[|components| - 1];
      LicenseTableSum(front);
      var table := LicenseTable(front);
      MapSumUpdate(table, Id, c.license, (if c.license in table then table[c.license] else 0) + 1);
    }
  }

  /** The license table of an SBOM is the one its components give. */
  predicate Consistent(sbom: Sbom)
  {
    sbom.licenses == LicenseTable(sbom.components)
  }

  /** `SBOM::new`: nothing listed and no licenses. */
  function NewSbom(sbomId: string, version: string): (r: Sbom)
    ensures Consistent(r)
    ensures r.sbomId == sbomId && r.version == version && r.createdDate == CreatedDate
    ensures r.components == [] && r.dependencies == [] && r.licenses == map[]
  {
    Sbom(sbomId, version, CreatedDate, [], [], map[])
  }

  /** `add_component`: appends the component and counts it under its
      license, which starts at 1 for a license not seen before. */
  function AddComponent(sbom: Sbom, component: Component): (r: Sbom)
    ensures Consistent(sbom) ==> Consistent(r)
    ensures r.components == sbom.components + [component]
    ensures component.license in r.licenses
    ensures component.license !in sbom.licenses ==> r.licenses[component.license] == 1
    ensures component.license in sbom.licenses ==> r.licenses[component.license] == sbom.licenses[component.license] + 1
    ensures forall l | l != component.license :: l in r.licenses <==> l in sbom.licenses
    ensures forall l | l != component.license && l in r.licenses :: r.licenses[l] == sbom.licenses[l]
    ensures r == sbom.(components := r.components, licenses := r.licenses)
  {
    var license := component.license;
    var components := sbom.components + [component];
    assert components[..|components| - 1] == sbom.components;
    sbom.(licenses := sbom.licenses[license := (if license in sbom.licenses then sbom.licenses[license] else 0) + 1],
          components := components)
  }

  /** `add_dependency`: appends the dependency. */
  function AddDependency(sbom: Sbom, dependency: Dependency): (r: Sbom)
    ensures Consistent(sbom) ==> Consistent(r)
    ensures r.dependencies == sbom.dependencies + [dependency] && r == sbom.(dependencies := r.dependencies)
  {
    sbom.(dependencies := sbom.dependencies + [dependency])
  }

  /** `get_components_by_type`: the components of that type, in order. */
  function ComponentsByType(sbom: Sbom, t: ComponentType): (r: seq<Component>)
    ensures forall c :: c in r <==> c in sbom.components && c.componentType == t
  {
    FilterMembersAll(sbom.components, OfType(t));
    Filter(sbom.components, OfType(t))
  }

  /** `get_components_by_license`: the components with that license, in
      order; as many as the license table records. */
  function ComponentsByLicense(sbom: Sbom, license: string): (r: seq<Component>)
    ensures forall c :: c in r <==> c in sbom.components && c.license == license
    ensures Consistent(sbom) ==> |r| == (if license in sbom.licenses then sbom.licenses[license] else 0)
  {
    FilterMembersAll(sbom.components, HasLicense(license));
    LicenseTableCounts(sbom.components);
    Filter(sbom.components, HasLicense(license))
  }

  /** `get_total_components`. */
  function TotalComponents(sbom: Sbom): nat
  {
    |sbom.components|
  }

  /** In a consistent SBOM the license counts add up to the total. */
  lemma LicenseCountsSumToTotal(sbom: Sbom)
    requires Consistent(sbom)
    ensures MapSum(sbom.licenses, Id) == TotalComponents(sbom)
  {
    LicenseTableSum(sbom.components);
  }

  /** `get_unique_licenses`: the keys of the license table, each once, in
      the table's order; in a consistent SBOM, the licenses that occur. */
  method UniqueLicenses(sbom: Sbom) returns (r: seq<string>)
    ensures |r| == |sbom.licenses| && Distinct(r)
    ensures forall l :: l in r <==> l in sbom.licenses
    ensures Consistent(sbom) ==> forall l :: l in r <==> exists i | 0 <= i < |sbom.components| :: sbom.components[i].license == l
  {
    r := [];
    var todo := sbom.licenses.Keys;
    while todo != {}
      invariant todo <= sbom.licenses.Keys
      invariant |r| + |todo| == |sbom.licenses| && Distinct(r)
      invariant forall l :: l in r <==> l in sbom.licenses.Keys - todo
      decreases |todo|
    {
      var l :| l in todo;
      assert l !in r;
      r := r + [l];
      todo := todo - {l};
    }
    if Consistent(sbom) {
      LicensesThatOccur(sbom);
    }
  }

  /** In a consistent SBOM the table's licenses are those of the
      components. */
  lemma LicensesThatOccur(sbom: Sbom)
    requires Consistent(sbom)
    ensures forall l :: l in sbom.licenses <==> exists i | 0 <= i < |sbom.components| :: sbom.components[i].license == l
  {
    LicenseTableCounts(sbom.components);
    forall l
      ensures l in sbom.licenses <==> exists i | 0 <= i < |sbom.components| :: sbom.components[i].license == l
    {
      var kept := Filter(sbom.components, HasLicense(l));
      if l in sbom.licenses {
        FilterMembers(sbom.components, HasLicense(l), kept[0]);
        var i :| 0 <= i < |sbom.components| && sbom.components[i] == kept[0];
      }
      if exists i | 0 <= i < |sbom.components| :: sbom.components[i].license == l {
        var i :| 0 <= i < |sbom.components| && sbom.components[i].license == l;
        FilterMembers(sbom.components, HasLicense(l), sbom.components[i]);
      }
    }
  }

  class Generator {
    var sboms: map<string, Sbom>

    /** Every SBOM is stored under its own id with a license table that
        matches its components. */
    predicate Valid()
      reads this
    {
      forall id | id in sboms :: sboms[id].sbomId == id && Consistent(sboms[id])
    }

    constructor ()
      ensures Valid() && sboms == map[]
    {
      sboms := map[];
    }

    /** `create_sbom`: a new SBOM under the id, replacing any SBOM already
        there. The source hands back a `&mut` into that map entry; the
        model hands back a copy, and updates reach the stored SBOM through
        the by-id methods below. */
    method CreateSbom(sbomId: string, version: string) returns (sbom: Sbom)
      modifies this
      ensures sbom == NewSbom(sbomId, version)
      ensures sboms == old(sboms)[sbomId := sbom]
      ensures old(Valid()) ==> Valid()
    {
      sbom := NewSbom(sbomId, version);
      sboms := sboms[sbomId := sbom];
    }

    /** `get_sbom`. */
    function GetSbom(sbomId: string): (r: Option<Sbom>)
      reads this
      ensures r.Some? <==> sbomId in sboms
      ensures r.Some? ==> r.value == sboms[sbomId]
    {
      if sbomId in sboms then Some(sboms[sbomId]) else None
    }

    /** `SBOMGenerator::add_component`: adds the component to an existing
        SBOM; nothing for an unknown id. */
    method AddComponentTo(sbomId: string, component: Component)
      modifies this
      ensures sbomId !in old(sboms) ==> sboms == old(sboms)
      ensures sbomId in old(sboms) ==> sboms == old(sboms)[sbomId := AddComponent(old(sboms)[sbomId], component)]
      ensures old(Valid()) ==> Valid()
    {
      if sbomId in sboms {
        sboms := sboms[sbomId := AddComponent(sboms[sbomId], component)];
      }
    }

    /** `add_dependency` through the reference to the SBOM stored under
        the id; nothing changes for an unknown id. */
    method AddDependencyTo(sbomId: string, dependency: Dependency)
      modifies this
      ensures sbomId !in old(sboms) ==> sboms == old(sboms)
      ensures sbomId in old(sboms) ==> sboms == old(sboms)[sbomId := AddDependency(old(sboms)[sbomId], dependency)]
      ensures old(Valid()) ==> Valid()
    {
      if sbomId in sboms {
        sboms := sboms[sbomId := AddDependency(sboms[sbomId], dependency)];
      }
    }

    /** `get_all_sboms`: every SBOM once. */
    method GetAllSboms() returns (all: seq<Sbom>)
      ensures |all| == |sboms|
      ensures forall s :: s in all <==> s in sboms.Values
    {
      all := [];
      var todo := sboms.Keys;
      while todo != {}
        invariant todo <= sboms.Keys
        invariant |all| + |todo| == |sboms|
        invariant forall s :: s in all ==> s in sboms.Values
        invariant forall id | id in sboms.Keys - todo :: sboms[id] in all
        decreases |todo|
      {
        var id :| id in todo;
        all := all + [sboms[id]];
        todo := todo - {id};
      }
      forall s | s in sboms.Values
        ensures s in all
      {
        var id :| id in sboms && sboms[id] == s;
      }
    }
  }

  // ---------------------------------------------------------------------
  // The unit tests of the module, as scenarios.

  function MitLibrary(id: string): Component
  {
    Component(id, "lib", "1.0.0", Library, "MIT", "test", "pkg:cargo/lib@1.0.0")
  }

  /** Three MIT components are counted as three under "MIT", the only
      license. */
  method LicenseTrackingScenario() returns (mit: nat, unique: nat, total: nat)
    ensures mit == 3 && unique == 1 && total == 3
  {
    var sbom := NewSbom("sbom-1", "1.0.0");
    var i := 0;
    while i < 3
      invariant 0 <= i <= 3 && Consistent(sbom) && |sbom.components| == i
      invariant i == 0 ==> sbom.licenses == map[]
      invariant i > 0 ==> sbom.licenses == map["MIT" := i]
    {
      sbom := AddComponent(sbom, MitLibrary("comp"));
      i := i + 1;
    }
    mit, total := sbom.licenses["MIT"], TotalComponents(sbom);
    var licenses := UniqueLicenses(sbom);
    unique := |licenses|;
  }

  /** One SBOM created; a component for an unknown SBOM is dropped. */
  method GeneratorScenario() returns (all: nat, components: nat)
    ensures all == 1 && components == 1
  {
    var generator := new Generator();
    var _ := generator.CreateSbom("sbom-1", "1.0.0");
    generator.AddComponentTo("sbom-1", MitLibrary("comp-1"));
    generator.AddComponentTo("sbom-2", MitLibrary("comp-2"));
    var sboms := generator.GetAllSboms();
    all, components := |sboms|, TotalComponents(generator.sboms["sbom-1"]);
  }

  /** The SBOM half of the two release workflows: five GPL-3.0 components
      added to the SBOM created for the release, and a dependency, are all
      stored in it. */
  method WorkflowScenario() returns (components: nat, gpl: nat, dependencies: nat)
    ensures components == 5 && gpl == 5 && dependencies == 1
  {
    var generator := new Generator();
    var _ := generator.CreateSbom("sbom-rivers", "1.0.0-rivers");
    var i := 0;
    while i < 5
      invariant 0 <= i <= 5 && generator.sboms.Keys == {"sbom-rivers"}
      invariant |generator.sboms["sbom-rivers"].components| == i
      invariant generator.sboms["sbom-rivers"].dependencies == []
      invariant i == 0 ==> generator.sboms["sbom-rivers"].licenses == map[]
      invariant i > 0 ==> generator.sboms["sbom-rivers"].licenses == map["GPL-3.0" := i]
    {
      generator.AddComponentTo("sbom-rivers", Component("dep", "dependency", "1.0.0", Library, "GPL-3.0", "librepods", "pkg:cargo/dependency@1.0.0"));
      i := i + 1;
    }
    generator.AddDependencyTo("sbom-rivers", Dependency("dep", [], Depends));
    var sbom := generator.sboms["sbom-rivers"];
    components, gpl, dependencies := TotalComponents(sbom), sbom.licenses["GPL-3.0"], |sbom.dependencies|;
  }
}
