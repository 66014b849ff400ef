/**
 * The user endpoints of src/store/userSlice.ts: the list query with its default
 * arguments and response reshape, and the three mutations with their cache tags.
 */
module UserSlice {
  import opened Wrappers
  import opened Types
  import opened Http
  import opened Json
  import Decimal

  const DefaultPage: nat := 1
  const DefaultLimit: nat := 10
  const DefaultSearch := ""

  /** The argument object of `getUsers`; a missing property gets its default. */
  datatype UsersArgs = UsersArgs(page: Option<nat>, limit: Option<nat>, search: Option<string>)

  function OrElse<T>(o: Option<T>, d: T): T
  {
    if o.Some? then o.value else d
  }

  const PagePrefix := "/users?page="
  const LimitPrefix := "&limit="
  const SearchPrefix := "&search="

  /** `/users?page=${page}&limit=${limit}&search=${search}`; `search` is not encoded. */
  function UsersUrl(page: nat, limit: nat, search: string): string
  {
    PagePrefix + Decimal.Show(page) + LimitPrefix + Decimal.Show(limit) + SearchPrefix + search
  }

  /**
   * The URL of `getUsers` for `args`; it reads back to the arguments with
   * the defaults page 1, limit 10 and an empty search filled in.
   */
  function GetUsersQuery(args: UsersArgs): (url: string)
    ensures ParseUsersUrl(url) ==
      Some((OrElse(args.page, DefaultPage), OrElse(args.limit, DefaultLimit), OrElse(args.search, DefaultSearch)))
  {
    var page, limit, search := OrElse(args.page, DefaultPage), OrElse(args.limit, DefaultLimit),
                               OrElse(args.search, DefaultSearch);
    ParseUsersUrlRoundTrip(page, limit, search);
    UsersUrl(page, limit, search)
  }

  /** Strip `prefix` off the front of `s`. */
  function StripPrefix(prefix: string, s: string): (r: Option<string>)
    ensures r.Some? <==> |prefix| <= |s| && s[..|prefix|] == prefix
    ensures r.Some? ==> s == prefix + r.value
  {
    if |prefix| <= |s| && s[..|prefix|] == prefix then Some(s[|prefix|..]) else None
  }

  /** Read a users URL back into page, limit and search: everything after `&search=` is the search. */
  function ParseUsersUrl(url: string): Option<(nat, nat, string)>
  {
    match StripPrefix(PagePrefix, url)
    case None => None
    case Some(a) =>
      match Decimal.ReadNat(a)
      case None => None
      case Some((page, b)) =>
        match ParseLimitAndSearch(b)
        case None => None
        case Some((limit, search)) => Some((page, limit, search))
  }

  /** The part after the page number: `&limit=<digits>&search=<rest>`. */
  function ParseLimitAndSearch(b: string): Option<(nat, string)>
  {
    match StripPrefix(LimitPrefix, b)
    case None => None
    case Some(c) =>
      match Decimal.ReadNat(c)
      case None => None
      case Some((limit, d)) =>
        match StripPrefix(SearchPrefix, d)
        case None => None
        case Some(search) => Some((limit, search))
  }

  lemma PrefixStrips(prefix: string, t: string)
    ensures StripPrefix(prefix, prefix + t) == Some(t)
  {
    assert (prefix + t)[..|prefix|] == prefix;
    assert (prefix + t)[|prefix|..] == t;
  }

  /**
   * The URL determines the arguments, whatever the search text holds: the
   * numbers are digit runs ended by `&`, and the search comes last.
   */
  lemma ParseUsersUrlRoundTrip(page: nat, limit: nat, search: string)
    ensures ParseUsersUrl(UsersUrl(page, limit, search)) == Some((page, limit, search))
  {
    var d := SearchPrefix + search;
    var c := Decimal.Show(limit) + d;
    var b := LimitPrefix + c;
    var a := Decimal.Show(page) + b;
    assert ParseLimitAndSearch(b) == Some((limit, search)) by {
      PrefixStrips(LimitPrefix, c);
      Decimal.ReadShow(limit, d);
      PrefixStrips(SearchPrefix, search);
    }
    assert UsersUrl(page, limit, search) == PagePrefix + a;
    PrefixStrips(PagePrefix, a);
    Decimal.ReadShow(page, b);
  }

  lemma UsersUrlInjective(p: nat, l: nat, s: string, p': nat, l': nat, s': string)
    requires UsersUrl(p, l, s) == UsersUrl(p', l', s')
    ensures p == p' && l == l' && s == s'
  {
    ParseUsersUrlRoundTrip(p, l, s);
    ParseUsersUrlRoundTrip(p', l', s');
  }

  /**
   * `transformResponse`: `{users: response.data, meta: response.meta}`.  Reading
   * a member of `null` throws, which is `None` here; members that are
   * `undefined` are left out of the object.
   */
  function TransformResponse(response: Json): (r: Option<Json>)
    ensures r.None? <==> response.JNull?
    ensures r.Some? ==> r.value.JObj? && r.value.fields.Keys <= {"users", "meta"}
    ensures r.Some? ==> Member(r, "users") == Member(Some(response), "data")
    ensures r.Some? ==> Member(r, "meta") == Member(Some(response), "meta")
  {
    if response.JNull? then None
    else
      var data, meta := Member(Some(response), "data"), Member(Some(response), "meta");
      var withUsers: map<string, Json> := if data.Some? then map["users" := data.value] else map[];
      Some(JObj(if meta.Some? then withUsers["meta" := meta.value] else withUsers))
  }

  datatype RolePatch = RolePatch(role: Role)
  datatype StatusPatch = StatusPatch(status: UserStatus)
  datatype Invite = Invite(email: string, role: Role)

  const UsersBase := "/users/"
  const RoleSuffix := "/role"
  const StatusSuffix := "/status"

  /** `updateUserRole({id, role})`: PATCH `/users/{id}/role` with body `{role}`. */
  function RoleUpdate(id: string, role: Role): (m: Mutation<RolePatch>)
    ensures m.verb == Patch && m.body.role == role
    ensures ParseUserUrl(m.url) == Some((id, RoleField))
  {
    ParseUserUrlRoundTrip(id, RoleField);
    Mutation(UsersBase + id + RoleSuffix, Patch, RolePatch(role))
  }

  /** `updateUserStatus({id, status})`: PATCH `/users/{id}/status` with body `{status}`. */
  function StatusUpdate(id: string, status: UserStatus): (m: Mutation<StatusPatch>)
    ensures m.verb == Patch && m.body.status == status
    ensures ParseUserUrl(m.url) == Some((id, StatusField))
  {
    ParseUserUrlRoundTrip(id, StatusField);
    Mutation(UsersBase + id + StatusSuffix, Patch, StatusPatch(status))
  }

  /** `inviteUser(data)`: POST `/auth/invite` with `data` as the body, unchanged. */
  function InviteRequest(data: Invite): (m: Mutation<Invite>)
    ensures m.url == "/auth/invite" && m.verb == Post && m.body == data
  {
    Mutation("/auth/invite", Post, data)
  }

  /** Which user attribute a user URL addresses. */
  datatype Field = RoleField | StatusField

  function SuffixOf(f: Field): string
  {
    match f
    case RoleField => RoleSuffix
    case StatusField => StatusSuffix
  }

  predicate EndsWith(s: string, suffix: string)
  {
    |suffix| <= |s| && s[|s| - |suffix|..] == suffix
  }

  /** Read a user-mutation URL back into the user id and the attribute. */
  function ParseUserUrl(url: string): Option<(string, Field)>
  {
    match StripPrefix(UsersBase, url)
    case None => None
    case Some(rest) =>
      if EndsWith(rest, RoleSuffix) then Some((rest[..|rest| - |RoleSuffix|], RoleField))
      else if EndsWith(rest, StatusSuffix) then Some((rest[..|rest| - |StatusSuffix|], StatusField))
      else None
  }

  lemma EndsWithAppend(id: string, suffix: string)
    ensures EndsWith(id + suffix, suffix) && (id + suffix)[..|id|] == id
  {
    assert (id + suffix)[|id|..] == suffix;
  }

  /** Any id, even one holding `/`, is recovered: the attribute is read from the end. */
  lemma ParseUserUrlRoundTrip(id: string, f: Field)
    ensures ParseUserUrl(UsersBase + id + SuffixOf(f)) == Some((id, f))
  {
    var rest := id + SuffixOf(f);
    assert UsersBase + id + SuffixOf(f) == UsersBase + rest;
    PrefixStrips(UsersBase, rest);
    EndsWithAppend(id, SuffixOf(f));
    if f == StatusField {
      assert rest[|rest| - |RoleSuffix|] == 't';
      assert !EndsWith(rest, RoleSuffix);
    }
  }

  /** The four endpoints of the slice and the cache tags they declare. */
  datatype Endpoint = GetUsers | UpdateUserRole | UpdateUserStatus | InviteUser

  predicate IsMutation(e: Endpoint)
  {
    !e.GetUsers?
  }

  function Provides(e: Endpoint): set<Tag>
  {
    if e.GetUsers? then {UserTag} else {}
  }

  function Invalidates(e: Endpoint): set<Tag>
  {
    if e.GetUsers? then {} else {UserTag}
  }

  /** Every mutation invalidates a tag the list query provides, so the list is fetched again. */
  lemma MutationsRefetchUsers(e: Endpoint)
    requires IsMutation(e)
    ensures Invalidates(e) * Provides(GetUsers) == {UserTag}
  {
  }
}
