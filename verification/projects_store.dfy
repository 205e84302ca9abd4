/**
 * The dashboard's project list (src/store/projects.store.ts) as pure state
 * transitions over an immutable record.
 */
module ProjectsStore {

  datatype ProjectStatus = Draft | Generating | Ready | Error | Cancelled

  /** The fields of a project record the stores and views look at. */
  datatype Project = Project(id: string, title: string, topic: string, templateId: string, status: ProjectStatus)

  datatype ProjectsState = ProjectsState(projects: seq<Project>, isLoading: bool)

  const InitialProjects := ProjectsState([], false)

  /** `findIndex` on the id: the first matching position, or -1. */
  function FindIndex(ps: seq<Project>, id: string): (r: int)
    ensures -1 <= r < |ps|
    ensures r == -1 <==> forall i :: 0 <= i < |ps| ==> ps[i].id != id
    ensures r >= 0 ==> ps[r].id == id && forall i :: 0 <= i < r ==> ps[i].id != id
  {
    if |ps| == 0 then -1
    else if ps[0].id == id then 0
    else
      var k := FindIndex(ps[1..], id);
      if k == -1 then -1 else k + 1
  }

  function SetProjects(st: ProjectsState, projects: seq<Project>): (r: ProjectsState)
    ensures r.projects == projects && r.isLoading == st.isLoading
  {
    st.(projects := projects)
  }

  function SetIsLoading(st: ProjectsState, value: bool): (r: ProjectsState)
    ensures r.isLoading == value && r.projects == st.projects
  {
    st.(isLoading := value)
  }

  /**
   * upsertProject: a project whose id is not listed goes to the front; one
   * that is listed replaces the first entry with that id in place.
   */
  function UpsertProject(st: ProjectsState, p: Project): (r: ProjectsState)
    ensures r.isLoading == st.isLoading
    ensures p in r.projects
    ensures FindIndex(st.projects, p.id) == -1 ==>
      |r.projects| == |st.projects| + 1 && r.projects[0] == p && r.projects[1..] == st.projects
    ensures FindIndex(st.projects, p.id) >= 0 ==>
      |r.projects| == |st.projects| &&
      r.projects[FindIndex(st.projects, p.id)] == p &&
      forall i :: 0 <= i < |st.projects| && i != FindIndex(st.projects, p.id) ==>
        r.projects[i] == st.projects[i]
  {
    var idx := FindIndex(st.projects, p.id);
    if idx == -1 then st.(projects := [p] + st.projects)
    else
      var next := st.projects[idx := p];
      assert next[idx] == p;
      st.(projects := next)
  }

  /** After an upsert the project is the first entry with its id. */
  lemma UpsertFindsProject(st: ProjectsState, p: Project)
    ensures var r := UpsertProject(st, p);
      FindIndex(r.projects, p.id) >= 0 && r.projects[FindIndex(r.projects, p.id)] == p
  {
    var r := UpsertProject(st, p);
    var idx := FindIndex(st.projects, p.id);
    if idx == -1 {
      assert r.projects[0] == p;
    } else {
      assert r.projects[idx] == p;
      assert forall i :: 0 <= i < idx ==> r.projects[i] == st.projects[i];
    }
  }

  /** Upserting the same project twice is the same as upserting it once. */
  lemma UpsertIdempotent(st: ProjectsState, p: Project)
    ensures UpsertProject(UpsertProject(st, p), p) == UpsertProject(st, p)
  {
    var r := UpsertProject(st, p);
    UpsertFindsProject(st, p);
    var k := FindIndex(r.projects, p.id);
    assert r.projects[k := p] == r.projects;
  }
}
