/** The in-memory project repository: a constant fixture list and its two
    accessors. The accessors' simulated latency is not modelled; each
    resolves to the value below. */
module MockData {
  import opened Wrappers
  import opened Types

  const MockProjects: seq<Project> := [
    Project(
      "1", "Al-Shifa Emergency Wing Repair", Hospital,
      Location(31.524, 34.453, "Gaza City, North Gaza"),
      500000, 350000,
      "Structural reinforcement and equipment resupply for the emergency wing. This project aims to restore critical care capabilities to the region's largest medical complex.",
      InProgress, "https://picsum.photos/800/600?random=1", None,
      Some([ExpertNeed("Structural Engineer", 2), ExpertNeed("Medical Equipment Tech", 3)]),
      Some([
        ProjectUpdate("u1", "2023-11-15", "Damage Assessment Complete",
          "Initial structural analysis reveals 40% damage to the western wing pillars.",
          Some("https://picsum.photos/400/300?random=10")),
        ProjectUpdate("u2", "2023-12-01", "Debris Clearance Started",
          "Local teams have begun clearing rubble to allow access for heavy machinery.", None)])),
    Project(
      "2", "Khan Younis Primary School", School,
      Location(31.346, 34.304, "Khan Younis, Southern Gaza"),
      120000, 45000,
      "Rebuilding 12 classrooms and installing solar power systems. Focusing on creating a safe, resilient learning environment for 400 students.",
      Funding, "https://picsum.photos/800/600?random=2", None,
      Some([ExpertNeed("Architect", 1), ExpertNeed("Solar Technician", 2)]),
      Some([
        ProjectUpdate("u3", "2023-10-20", "Project Initiated",
          "Community leaders identified the site for reconstruction.", None)])),
    Project(
      "3", "Water Desalination Unit 4", Infrastructure,
      Location(31.417, 34.352, "Deir al-Balah"),
      250000, 250000,
      "Restoring critical water infrastructure for 5,000 residents.",
      Completed, "https://picsum.photos/800/600?random=3", None,
      Some([]), Some([])),
    Project(
      "4", "Rafah Shelter Complex", Housing,
      Location(31.296, 34.243, "Rafah"),
      1500000, 120000,
      "Permanent housing units for displaced families utilizing rapid-deploy techniques.",
      Planning, "https://picsum.photos/800/600?random=4", None,
      Some([ExpertNeed("Urban Planner", 2), ExpertNeed("Civil Engineer", 5)]),
      Some([]))
  ]

  /** `Array.prototype.find` with the predicate `p.id === id`: the first
      project in list order whose id is `id`, if there is one. */
  function FindById(ps: seq<Project>, id: string): (r: Option<Project>)
    ensures r.None? <==> forall i :: 0 <= i < |ps| ==> ps[i].id != id
    ensures r.Some? ==> exists i :: 0 <= i < |ps| && ps[i] == r.value && r.value.id == id &&
                          forall j :: 0 <= j < i ==> ps[j].id != id
  {
    if ps == [] then None
    else if ps[0].id == id then Some(ps[0])
    else
      var r := FindById(ps[1..], id);
      assert forall i :: 1 <= i < |ps| ==> ps[i] == ps[1..][i - 1];
      r
  }

  /** `getProjects`: the fixture list, whole and in its own order. */
  function GetProjects(): (ps: seq<Project>)
    ensures |ps| == 4
    ensures forall i :: 0 <= i < |ps| ==> ps[i] == MockProjects[i]
  {
    MockProjects
  }

  /** `getProjectById`: the first fixture project with that id, or none. */
  function GetProjectById(id: string): (r: Option<Project>)
    ensures r.Some? ==> r.value in MockProjects && r.value.id == id
    ensures r.None? <==> forall p :: p in MockProjects ==> p.id != id
  {
    FindById(MockProjects, id)
  }

  predicate DistinctIds(ps: seq<Project>) {
    forall i, j :: 0 <= i < j < |ps| ==> ps[i].id != ps[j].id
  }

  /** When ids are unique, looking up any listed project's id gives back
      exactly that project. */
  lemma {:induction false} FindByIdOfListed(ps: seq<Project>, k: nat)
    requires DistinctIds(ps)
    requires k < |ps|
    ensures FindById(ps, ps[k].id) == Some(ps[k])
  {
    if k > 0 {
      assert ps[0].id != ps[k].id;
      assert ps[1..][k - 1] == ps[k];
      FindByIdOfListed(ps[1..], k - 1);
    }
  }

  /** The fixture ids are pairwise distinct, every budget is positive, and
      no fixture has raised more than its budget or a negative amount. */
  lemma FixturesWellFormed()
    ensures DistinctIds(MockProjects)
    ensures forall p :: p in MockProjects ==> p.budget > 0 && 0 <= p.raised <= p.budget
  {
  }

  /** Every project `getProjects` lists is found again by `getProjectById`,
      so the two accessors agree. */
  lemma ListedProjectsAreFoundById(k: nat)
    requires k < |GetProjects()|
    ensures GetProjectById(GetProjects()[k].id) == Some(GetProjects()[k])
  {
    FixturesWellFormed();
    FindByIdOfListed(MockProjects, k);
  }

  /** The fixture ids are exactly "1" to "4", in that order; an id outside
      them, such as "999", finds nothing. */
  lemma FixtureLookups()
    ensures [GetProjects()[0].id, GetProjects()[1].id, GetProjects()[2].id, GetProjects()[3].id]
            == ["1", "2", "3", "4"]
    ensures GetProjectById("999").None?
  {
    var ids := ["1", "2", "3", "4"];
    assert forall p :: p in MockProjects ==> p.id in ids;
    assert "999" !in ids;
  }
}
