/**
 * The rules of src/pages/Dashboard.tsx: the soft-delete filter behind the
 * overview, its count and empty state, and the create-project form.
 */
module Dashboard {
  import opened Wrappers
  import opened Types
  import opened Http
  import ProjectSlice

  /** `filter((p) => !p.isDeleted)`, keeping the order. */
  function Active(projects: seq<Project>): (r: seq<Project>)
    ensures |r| <= |projects|
    ensures forall p :: p in r <==> p in projects && !p.isDeleted
  {
    if projects == [] then []
    else (if projects[0].isDeleted then [] else [projects[0]]) + Active(projects[1..])
  }

  /** `projects?.filter(...) || []`: no data yet gives the empty list. */
  function ActiveProjects(projects: Option<seq<Project>>): (r: seq<Project>)
    ensures projects.None? ==> r == []
    ensures projects.Some? ==> r == Active(projects.value)
  {
    if projects.None? then [] else Active(projects.value)
  }

  /** The filter works piecewise, so the kept projects stay in their original order. */
  lemma {:induction false} ActiveDistributes(s: seq<Project>, t: seq<Project>)
    ensures Active(s + t) == Active(s) + Active(t)
    decreases |s|
  {
    if s != [] {
      assert (s + t)[0] == s[0];
      assert (s + t)[1..] == s[1..] + t;
      ActiveDistributes(s[1..], t);
      var head := if s[0].isDeleted then [] else [s[0]];
      assert Active(s + t) == head + (Active(s[1..]) + Active(t));
      assert Active(s) == head + Active(s[1..]);
    } else {
      assert s + t == t;
    }
  }

  /** Nothing deleted, nothing dropped. */
  lemma {:induction false} ActiveKeepsLiveLists(s: seq<Project>)
    requires forall i :: 0 <= i < |s| ==> !s[i].isDeleted
    ensures Active(s) == s
    decreases |s|
  {
    if s != [] {
      ActiveKeepsLiveLists(s[1..]);
    }
  }

  lemma {:induction false} ActiveIdempotent(s: seq<Project>)
    ensures Active(Active(s)) == Active(s)
  {
    assert forall p :: p in Active(s) ==> !p.isDeleted;
    forall i | 0 <= i < |Active(s)|
      ensures !Active(s)[i].isDeleted
    {
      assert Active(s)[i] in Active(s);
    }
    ActiveKeepsLiveLists(Active(s));
  }

  /** What the overview shows: the Total Projects figure, the empty state, the cards. */
  datatype Overview = Overview(totalProjects: nat, showsEmptyState: bool, cards: seq<Project>)

  function OverviewOf(projects: Option<seq<Project>>): (v: Overview)
    ensures v.cards == ActiveProjects(projects)
    ensures v.totalProjects == |v.cards|
    ensures v.showsEmptyState <==> v.cards == []
  {
    var active := ActiveProjects(projects);
    Overview(|active|, |active| == 0, active)
  }

  /** The dashboard's `useState` variables. */
  class DashboardPage {
    var search: string
    var isModalOpen: bool
    var newProjectName: string
    var newProjectDesc: string

    constructor ()
      ensures search == "" && !isModalOpen && newProjectName == "" && newProjectDesc == ""
    {
      search := "";
      isModalOpen := false;
      newProjectName := "";
      newProjectDesc := "";
    }

    /** `useGetProjectsQuery(search)`: the search text, unchanged, picks the URL. */
    function QueryUrl(): (url: string)
      reads this
      ensures ProjectSlice.ParseProjectsUrl(url) == Some(search)
    {
      ProjectSlice.ParseProjectsUrlRoundTrip(search);
      ProjectSlice.ProjectsUrl(search)
    }

    method SetSearch(text: string)
      modifies this`search
      ensures search == text
    {
      search := text;
    }

    /** "New Project" and "Create your first project". */
    method OpenModal()
      modifies this`isModalOpen
      ensures isModalOpen
    {
      isModalOpen := true;
    }

    /** Cancel closes the modal and keeps what was typed. */
    method CancelModal()
      modifies this`isModalOpen
      ensures !isModalOpen
    {
      isModalOpen := false;
    }

    method SetName(name: string)
      modifies this`newProjectName
      ensures newProjectName == name
    {
      newProjectName := name;
    }

    method SetDescription(description: string)
      modifies this`newProjectDesc
      ensures newProjectDesc == description
    {
      newProjectDesc := description;
    }

    /**
     * Submitting sends `{name, description}`; `succeeded` is whether the
     * mutation resolved.  Success closes the modal and clears both fields; a
     * failure changes nothing.
     */
    method HandleCreateProject(succeeded: bool) returns (request: Mutation<ProjectSlice.NewProject>)
      modifies this`isModalOpen, this`newProjectName, this`newProjectDesc
      ensures request == ProjectSlice.CreateProjectRequest(
        ProjectSlice.NewProject(old(newProjectName), old(newProjectDesc)))
      ensures succeeded ==> !isModalOpen && newProjectName == "" && newProjectDesc == ""
      ensures !succeeded ==>
        (isModalOpen == old(isModalOpen) && newProjectName == old(newProjectName) &&
         newProjectDesc == old(newProjectDesc))
    {
      request := ProjectSlice.CreateProjectRequest(ProjectSlice.NewProject(newProjectName, newProjectDesc));
      if succeeded {
        isModalOpen := false;
        newProjectName := "";
        newProjectDesc := "";
      }
    }
  }
}
