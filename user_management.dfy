/**
 * The rules of src/pages/UserManagement.tsx: what the page reads from the
 * reshaped list response, the pager, the status toggle, and the invite modal.
 *
 * The page reads `data.data.meta`, `data.map` and `data.data.users` from a value
 * that `UserSlice.TransformResponse` has already reshaped into `{users, meta}`.
 * The `...AsWritten` functions follow those reads literally; `TotalPages` and
 * `UserRows` read the reshaped fields, and the pager is stated over them.
 */
module UserManagement {
  import opened Wrappers
  import opened Types
  import opened Http
  import opened Json
  import UserSlice

  // ---------------------------------------------------------------------------
  // Reading the list response

  /** `data?.data?.meta?.totalPages || 1`, as the page writes it. */
  function TotalPagesAsWritten(data: Option<Json>): Json
  {
    var v := Path(data, ["data", "meta", "totalPages"]);
    if Truthy(v) then v.value else JNum(1)
  }

  /** On any reshaped response the page count reads as 1, so the pager never moves on. */
  lemma TotalPagesAsWrittenIsOne(response: Json)
    requires UserSlice.TransformResponse(response).Some?
    ensures TotalPagesAsWritten(UserSlice.TransformResponse(response)) == JNum(1)
  {
    var data := UserSlice.TransformResponse(response);
    assert Member(data, "data") == None;
    PathFromMissing(["meta", "totalPages"]);
    assert Path(data, ["data", "meta", "totalPages"]) == Path(None, ["meta", "totalPages"]);
  }

  /** `data?.meta?.totalPages || 1`: the page count the reshaped response carries. */
  function TotalPages(data: Option<Json>): (t: Json)
    ensures Truthy(Some(t))
  {
    var v := Path(data, ["meta", "totalPages"]);
    if Truthy(v) then v.value else JNum(1)
  }

  /** A truthy `meta.totalPages` of the response comes through the reshape; anything else reads as 1. */
  lemma TotalPagesFromResponse(response: Json)
    requires UserSlice.TransformResponse(response).Some?
    ensures var v := Path(Some(response), ["meta", "totalPages"]);
      TotalPages(UserSlice.TransformResponse(response)) == if Truthy(v) then v.value else JNum(1)
  {
    var data := UserSlice.TransformResponse(response);
    assert Path(data, ["meta", "totalPages"]) == Path(Member(data, "meta"), ["totalPages"]);
    assert Path(Some(response), ["meta", "totalPages"]) == Path(Member(Some(response), "meta"), ["totalPages"]);
  }

  /**
   * `v?.map(...)` over the rows of a list: nothing for `undefined` or `null`, the
   * elements of an array, and a TypeError (`None`) for any other value, which has no `map`.
   */
  function MapRows(v: Option<Json>): (r: Option<seq<Json>>)
    ensures r.None? <==> v.Some? && !v.value.JNull? && !v.value.JArr?
    ensures v.Some? && v.value.JArr? ==> r == Some(v.value.items)
    ensures v.None? || v == Some(JNull) ==> r == Some([])
  {
    match v
    case None => Some([])
    case Some(JNull) => Some([])
    case Some(JArr(items)) => Some(items)
    case Some(_) => None
  }

  /** `data?.map(...)` for the desktop table. */
  function DesktopRowsAsWritten(data: Option<Json>): Option<seq<Json>>
  {
    MapRows(data)
  }

  /** The reshaped response is an object, so rendering the desktop table throws. */
  lemma DesktopTableThrows(response: Json)
    requires UserSlice.TransformResponse(response).Some?
    ensures DesktopRowsAsWritten(UserSlice.TransformResponse(response)).None?
  {
  }

  /**
   * `data?.data?.users?.map(...)` for the mobile cards: no cards while the path
   * is missing or null, and a TypeError for a value there that is not an array.
   */
  function MobileRowsAsWritten(data: Option<Json>): Option<seq<Json>>
  {
    MapRows(Path(data, ["data", "users"]))
  }

  /** The reshaped response has no `data` member, so the mobile list renders no cards. */
  lemma MobileCardsAsWrittenEmpty(response: Json)
    requires UserSlice.TransformResponse(response).Some?
    ensures MobileRowsAsWritten(UserSlice.TransformResponse(response)) == Some([])
  {
    var data := UserSlice.TransformResponse(response);
    assert Member(data, "data") == None;
    PathFromMissing(["users"]);
    assert Path(data, ["data", "users"]) == Path(None, ["users"]);
  }

  /** `data?.users?.map(...)`: the rows the reshaped response carries, for both layouts. */
  function UserRows(data: Option<Json>): Option<seq<Json>>
  {
    MapRows(Member(data, "users"))
  }

  /** The rows read from the reshaped response are exactly the response's `data` array. */
  lemma UserRowsFromResponse(response: Json, rows: seq<Json>)
    requires Member(Some(response), "data") == Some(JArr(rows))
    ensures UserSlice.TransformResponse(response).Some?
    ensures UserRows(UserSlice.TransformResponse(response)) == Some(rows)
  {
  }

  // ---------------------------------------------------------------------------
  // Pager and per-row mutations

  /** Prev: disabled at page 1, otherwise one page back. */
  function PrevPage(page: int): int
  {
    if page == 1 then page else page - 1
  }

  /** Next: disabled once `page >= totalPages`, otherwise one page on. */
  function NextPage(page: int, totalPages: int): int
  {
    if page >= totalPages then page else page + 1
  }

  /** With the page count fixed, pressing either button keeps `1 <= page <= totalPages`. */
  lemma PagingStaysInRange(page: int, totalPages: int)
    requires 1 <= page <= totalPages
    ensures 1 <= PrevPage(page) <= totalPages && 1 <= NextPage(page, totalPages) <= totalPages
    ensures page > 1 ==> PrevPage(page) == page - 1
    ensures page < totalPages ==> NextPage(page, totalPages) == page + 1
  {
  }

  /** `user.status === 'ACTIVE' ? 'INACTIVE' : 'ACTIVE'` */
  function ToggledStatus(s: UserStatus): (t: UserStatus)
    ensures t != s
  {
    if s == ACTIVE then INACTIVE else ACTIVE
  }

  lemma ToggleTwiceRestores(s: UserStatus)
    ensures ToggledStatus(ToggledStatus(s)) == s
  {
  }

  /** The status button: PATCH the row's user with the other status. */
  function StatusToggleRequest(user: User): (m: Mutation<UserSlice.StatusPatch>)
    ensures UserSlice.ParseUserUrl(m.url) == Some((user.id, UserSlice.StatusField))
    ensures m.verb == Patch && m.body.status != user.status
  {
    UserSlice.StatusUpdate(user.id, ToggledStatus(user.status))
  }

  /** The role select: PATCH the row's user with the chosen role. */
  function RoleChangeRequest(user: User, role: Role): (m: Mutation<UserSlice.RolePatch>)
    ensures UserSlice.ParseUserUrl(m.url) == Some((user.id, UserSlice.RoleField))
    ensures m.verb == Patch && m.body.role == role
  {
    UserSlice.RoleUpdate(user.id, role)
  }

  // ---------------------------------------------------------------------------
  // Page state

  const PageSize: nat := 10

  /** The page's `useState` variables. */
  class UserManagementPage {
    var page: int
    var search: string
    var isInviteModalOpen: bool
    var inviteEmail: string
    var inviteRole: Role
    var inviteLink: string

    /** The pager never leaves page 1 or later. */
    predicate Valid()
      reads this
    {
      page >= 1
    }

    constructor ()
      ensures Valid()
      ensures page == 1 && search == "" && !isInviteModalOpen
      ensures inviteEmail == "" && inviteRole == STAFF && inviteLink == ""
    {
      page := 1;
      search := "";
      isInviteModalOpen := false;
      inviteEmail := "";
      inviteRole := STAFF;
      inviteLink := "";
    }

    /** The list query the page issues: `{page, limit: 10, search}`. */
    function Query(): (url: string)
      reads this
      requires Valid()
      ensures UserSlice.ParseUsersUrl(url) == Some((page as nat, PageSize, search))
    {
      UserSlice.GetUsersQuery(UserSlice.UsersArgs(Some(page as nat), Some(PageSize), Some(search)))
    }

    /** The invite form is shown exactly while no link has been generated. */
    predicate ShowsInviteForm()
      reads this
    {
      inviteLink == ""
    }

    method PressPrev()
      requires Valid()
      modifies this`page
      ensures Valid()
      ensures page == PrevPage(old(page))
    {
      if page != 1 {
        page := page - 1;
      }
    }

    method PressNext(totalPages: int)
      requires Valid()
      modifies this`page
      ensures Valid()
      ensures page == NextPage(old(page), totalPages)
    {
      if page < totalPages {
        page := page + 1;
      }
    }

    /** Typing in the search box; the page number is not reset. */
    method SetSearch(text: string)
      modifies this`search
      ensures search == text
    {
      search := text;
    }

    method OpenInviteModal()
      modifies this`isInviteModalOpen
      ensures isInviteModalOpen
    {
      isInviteModalOpen := true;
    }

    method SetInviteEmail(email: string)
      modifies this`inviteEmail
      ensures inviteEmail == email
    {
      inviteEmail := email;
    }

    method SetInviteRole(role: Role)
      modifies this`inviteRole
      ensures inviteRole == role
    {
      inviteRole := role;
    }

    /**
     * Submitting the form sends `{email, role}`; `link` is `res.data.inviteLink`
     * of a successful reply, `None` for a failed one, which changes nothing.
     */
    method HandleInvite(link: Option<string>) returns (request: Mutation<UserSlice.Invite>)
      modifies this`inviteLink
      ensures request == UserSlice.InviteRequest(UserSlice.Invite(inviteEmail, inviteRole))
      ensures inviteLink == if link.Some? then link.value else old(inviteLink)
    {
      request := UserSlice.InviteRequest(UserSlice.Invite(inviteEmail, inviteRole));
      if link.Some? {
        inviteLink := link.value;
      }
    }

    /** Close (or Done): hide the modal and clear link and email; the chosen role stays. */
    method CloseInviteModal()
      modifies this`isInviteModalOpen, this`inviteLink, this`inviteEmail
      ensures !isInviteModalOpen && inviteLink == "" && inviteEmail == ""
      ensures ShowsInviteForm()
    {
      isInviteModalOpen := false;
      inviteLink := "";
      inviteEmail := "";
    }
  }
}
