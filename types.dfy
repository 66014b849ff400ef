/**
 * The records and string unions of src/types/index.ts.  The unions become
 * enumerations, so a role or a status can only take the values the source lists.
 */
module Types {
  import opened Wrappers

  datatype Role = ADMIN | MANAGER | STAFF
  datatype UserStatus = ACTIVE | INACTIVE
  datatype ProjectStatus = ProjectActive | Archived | Deleted

  /** A user as the views see it; `invitedAt` and `createdAt` are presentation only. */
  datatype User = User(id: string, name: string, email: string, role: Role, status: UserStatus)

  /** A project; `createdBy` and the timestamps are presentation only. */
  datatype Project = Project(id: string, name: string, description: string,
                             status: ProjectStatus, isDeleted: bool)

  /** `user?.role === 'ADMIN'`: false when nobody is logged in. */
  predicate IsAdmin(user: Option<User>)
  {
    user.Some? && user.value.role == ADMIN
  }
}
