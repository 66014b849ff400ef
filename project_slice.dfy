/**
 * The project endpoints of src/store/projectSlice.ts: the list query, whose URL
 * carries the search only when it is non-empty, and project creation.
 */
module ProjectSlice {
  import opened Wrappers
  import opened Http
  import UserSlice

  const ProjectsPath := "/projects"
  const SearchQuery := "?search="

  /** `/projects${search ? `?search=${search}` : ''}`; `search` is not encoded. */
  function ProjectsUrl(search: string): (url: string)
    ensures |ProjectsPath| <= |url| && url[..|ProjectsPath|] == ProjectsPath
    ensures search == "" ==> url == ProjectsPath
    ensures search != "" ==> url == ProjectsPath + SearchQuery + search
  {
    ProjectsPath + (if search != "" then SearchQuery + search else "")
  }

  /** Read a projects URL back into its search text. */
  function ParseProjectsUrl(url: string): Option<string>
  {
    if url == ProjectsPath then Some("")
    else
      match UserSlice.StripPrefix(ProjectsPath + SearchQuery, url)
      case Some(search) => if search != "" then Some(search) else None
      case None => None
  }

  lemma ParseProjectsUrlRoundTrip(search: string)
    ensures ParseProjectsUrl(ProjectsUrl(search)) == Some(search)
  {
    if search != "" {
      var url := ProjectsUrl(search);
      assert url == (ProjectsPath + SearchQuery) + search;
      assert |url| > |ProjectsPath|;
      UserSlice.PrefixStrips(ProjectsPath + SearchQuery, search);
    }
  }

  /** Different searches never share a URL, so each has its own cache entry. */
  lemma ProjectsUrlInjective(s: string, t: string)
    requires ProjectsUrl(s) == ProjectsUrl(t)
    ensures s == t
  {
    ParseProjectsUrlRoundTrip(s);
    ParseProjectsUrlRoundTrip(t);
  }

  /** The body the dashboard sends: `{name, description}`. */
  datatype NewProject = NewProject(name: string, description: string)

  /** `createProject(projectData)`: POST `/projects` with the data as the body, unchanged. */
  function CreateProjectRequest(data: NewProject): (m: Mutation<NewProject>)
    ensures m.url == ProjectsPath && m.verb == Post && m.body == data
  {
    Mutation(ProjectsPath, Post, data)
  }

  datatype Endpoint = GetProjects | CreateProject

  function Provides(e: Endpoint): set<Tag>
  {
    if e.GetProjects? then {ProjectTag} else {}
  }

  function Invalidates(e: Endpoint): set<Tag>
  {
    if e.GetProjects? then {} else {ProjectTag}
  }

  /**
   * Creating a project refetches the project list; the user endpoints and the
   * project endpoints share no tag, so neither group's mutations refetch the
   * other group's list.
   */
  lemma CreateRefetchesProjectsOnly(u: UserSlice.Endpoint)
    ensures Invalidates(CreateProject) * Provides(GetProjects) == {ProjectTag}
    ensures UserSlice.Invalidates(u) * Provides(GetProjects) == {}
    ensures Invalidates(CreateProject) * UserSlice.Provides(u) == {}
  {
  }
}
