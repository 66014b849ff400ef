/**
 * The session store the gateway and the sidebar dispatch to.  Only the two
 * actions they use are modelled: `setCredentials({user, token})` and `logout()`.
 * The reducer itself (store/authSlice) is not part of this model; whether it also
 * writes the browser's key/value storage is left open by the `persists` flag.
 */
module Auth {
  import opened Wrappers

  const TokenKey := "token"
  const UserKey := "user"

  /** The process-wide `{user, token}` record.  The user is kept as the text it was parsed from. */
  datatype Session = Session(user: Option<string>, token: Option<string>)

  const LoggedOut := Session(None, None)

  datatype Action = SetCredentials(user: string, token: string) | Logout

  /** The session together with the browser's string-to-string storage. */
  datatype AuthState = AuthState(storage: map<string, string>, session: Session)

  /**
   * The effect of dispatching `a`.  With `persists`, the reducer mirrors the
   * session into storage under the keys `token` and `user`; without it, storage
   * is left alone.
   */
  function Dispatch(persists: bool, st: AuthState, a: Action): (r: AuthState)
    ensures a.Logout? ==> r.session == LoggedOut
    ensures a.SetCredentials? ==> r.session == Session(Some(a.user), Some(a.token))
    ensures !persists ==> r.storage == st.storage
    ensures persists && a.Logout? ==> r.storage.Keys == st.storage.Keys - {TokenKey, UserKey}
    ensures persists && a.SetCredentials? ==>
      TokenKey in r.storage && r.storage[TokenKey] == a.token &&
      UserKey in r.storage && r.storage[UserKey] == a.user
    ensures persists && a.SetCredentials? ==> r.storage.Keys == st.storage.Keys + {TokenKey, UserKey}
    ensures forall k :: k in st.storage && k != TokenKey && k != UserKey ==>
      k in r.storage && r.storage[k] == st.storage[k]
  {
    match a
    case Logout =>
      AuthState(if persists then st.storage - {TokenKey, UserKey} else st.storage, LoggedOut)
    case SetCredentials(user, token) =>
      AuthState(if persists then st.storage[TokenKey := token][UserKey := user] else st.storage,
                Session(Some(user), Some(token)))
  }
}
