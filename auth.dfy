/** The auth context of src/chat/AuthContext.jsx: the `{token, user}` record beside the token store. */
module Auth {
  import opened Js
  import opened Entities
  import opened TokenStore

  datatype AuthState = AuthState(token: JsStr, user: Option<User>)

  /** `{ token: null, user: null }` */
  const Initial := AuthState(Null, None)

  /** The auth record and the storage, as one value. */
  datatype Session = Session(auth: AuthState, items: map<string, string>)

  /** `login(data)`: the tokens are saved (the refresh token only if present) and the record
      becomes `{token: data.token, user: data.user}`. */
  function LoginSpec(s: Session, data: LoginData): (r: Session)
    ensures r.auth == AuthState(data.token, data.user)
    ensures GetItem(r.items, AccessKey) == Some(Stringify(data.token))
    ensures Truthy(data.refresh) ==> GetItem(r.items, RefreshKey) == Some(data.refresh.s)
    ensures !Truthy(data.refresh) ==> GetItem(r.items, RefreshKey) == GetItem(s.items, RefreshKey)
  {
    Session(AuthState(data.token, data.user), Saved(s.items, data.token, data.refresh))
  }

  /** `logout()`: both stored tokens removed and the record reset to its initial value. */
  function LogoutSpec(s: Session): (r: Session)
    ensures r.auth == Initial
    ensures GetItem(r.items, AccessKey) == None && GetItem(r.items, RefreshKey) == None
    ensures forall k :: k != AccessKey && k != RefreshKey ==> GetItem(r.items, k) == GetItem(s.items, k)
  {
    Session(Initial, Cleared(s.items))
  }

  /** Logging out twice is logging out once. */
  lemma {:induction false} LogoutIdempotent(s: Session)
    ensures LogoutSpec(LogoutSpec(s)) == LogoutSpec(s)
  {
    assert Cleared(Cleared(s.items)) == Cleared(s.items);
  }

  /** A login followed by a logout leaves the initial record and no stored token, whatever the
      login stored, and no trace of it on the other keys. */
  lemma {:induction false} LoginThenLogout(s: Session, data: LoginData)
    ensures LogoutSpec(LoginSpec(s, data)) == LogoutSpec(s)
    ensures LogoutSpec(LoginSpec(s, data)).auth == Initial
  {
    ClearAfterSave(s.items, data.token, data.refresh);
  }

  class AuthProvider {
    var auth: AuthState
    const storage: Storage

    constructor (storage: Storage)
      ensures auth == Initial && this.storage == storage
    {
      auth := Initial;
      this.storage := storage;
    }

    method Login(data: LoginData)
      modifies this, storage
      ensures Session(auth, storage.items) == LoginSpec(Session(old(auth), old(storage.items)), data)
    {
      SaveTokens(storage, data.token, data.refresh);
      auth := AuthState(data.token, data.user);
    }

    method Logout()
      modifies this, storage
      ensures Session(auth, storage.items) == LogoutSpec(Session(old(auth), old(storage.items)))
    {
      ClearTokens(storage);
      auth := Initial;
    }
  }
}
