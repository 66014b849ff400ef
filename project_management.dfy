/**
 * The rules of src/pages/ProjectManagement.tsx: the read-only banner, the
 * status label, and the actions each row offers an admin.  The update and
 * delete mutations the page imports are not defined by the project slice, so
 * they appear here only as the commands the page would issue.
 */
module ProjectManagement {
  import opened Wrappers
  import opened Types
  import Dashboard
  import ProjectSlice

  /** The page lists every project: it queries with an empty search. */
  const ListSearch := ""

  /** The list query of the page asks for `/projects` with no search parameter. */
  function ListQuery(): (url: string)
    ensures url == ProjectSlice.ProjectsPath
    ensures ProjectSlice.ParseProjectsUrl(url) == Some(ListSearch)
  {
    ProjectSlice.ParseProjectsUrlRoundTrip(ListSearch);
    ProjectSlice.ProjectsUrl(ListSearch)
  }

  /** The banner "Read Only Access" is shown to everyone who is not an admin. */
  predicate ShowsReadOnlyBanner(user: Option<User>)
  {
    !IsAdmin(user)
  }

  /** The Actions column exists only for an admin. */
  predicate ShowsActionsColumn(user: Option<User>)
  {
    IsAdmin(user)
  }

  /** Every visitor sees exactly one of the banner and the Actions column. */
  lemma BannerOrActions(user: Option<User>)
    ensures ShowsReadOnlyBanner(user) != ShowsActionsColumn(user)
    ensures ShowsActionsColumn(user) <==> (user.Some? && user.value.role == ADMIN)
  {
  }

  datatype StatusLabel = DeletedLabel | DelLabel | StatusText(status: ProjectStatus)

  /** `isDeleted ? 'DELETED' : status` on the table, `'DEL'` on the mobile cards. */
  function Label(p: Project, mobile: bool): (l: StatusLabel)
    ensures p.isDeleted <==> !l.StatusText?
    ensures p.isDeleted ==> l == (if mobile then DelLabel else DeletedLabel)
    ensures !p.isDeleted ==> l == StatusText(p.status)
  {
    if p.isDeleted then (if mobile then DelLabel else DeletedLabel) else StatusText(p.status)
  }

  datatype RowAction = Edit | Delete | Restore

  /** The buttons of one row (the same on the table and the cards). */
  function RowActions(user: Option<User>, p: Project): (acts: seq<RowAction>)
    ensures !IsAdmin(user) <==> acts == []
    ensures IsAdmin(user) && !p.isDeleted ==> acts == [Edit, Delete]
    ensures IsAdmin(user) && p.isDeleted ==> acts == [Restore]
  {
    if !IsAdmin(user) then [] else if p.isDeleted then [Restore] else [Edit, Delete]
  }

  /** The calls the page makes through the two hooks the slice does not define. */
  datatype Command =
    | DeleteProject(id: string)
    | UpdateProject(id: string, isDeleted: bool, status: ProjectStatus)

  /**
   * Pressing `a` on the row of `p`; `confirmed` is the answer to the browser's
   * confirmation dialog.  Edit has no handler.
   */
  function Press(p: Project, a: RowAction, confirmed: bool): (c: Option<Command>)
    ensures c.Some? ==> c.value.id == p.id
    ensures a == Delete ==> (c.Some? <==> confirmed) && (c.Some? ==> c.value == DeleteProject(p.id))
    ensures a == Restore ==> c == Some(UpdateProject(p.id, false, ProjectActive))
    ensures a == Edit ==> c.None?
  {
    match a
    case Edit => None
    case Delete => if confirmed then Some(DeleteProject(p.id)) else None
    case Restore => Some(UpdateProject(p.id, false, ProjectActive))
  }

  /** The project as an update command describes it afterwards. */
  function Patched(p: Project, c: Command): Project
    requires c.UpdateProject?
  {
    p.(isDeleted := c.isDeleted, status := c.status)
  }

  /**
   * Restoring a deleted row yields a live, active project: the admin is offered
   * Edit and Delete again and the project is back among the dashboard's active ones.
   */
  lemma RestoreRevivesRow(user: Option<User>, p: Project, confirmed: bool)
    requires IsAdmin(user) && p.isDeleted
    ensures Restore in RowActions(user, p)
    ensures var q := Patched(p, Press(p, Restore, confirmed).value);
      && RowActions(user, q) == [Edit, Delete]
      && Label(q, false) == StatusText(ProjectActive)
      && Dashboard.Active([q]) == [q]
  {
  }
}
