/** The two-key token store kept in the browser's localStorage (src/chat/api.js, lines 1-18). */
module TokenStore {
  import opened Js

  const AccessKey := "access_token"
  const RefreshKey := "refresh_token"

  /** The browser's localStorage: string keys to string values. */
  class Storage {
    var items: map<string, string>

    constructor (init: map<string, string>)
      ensures items == init
    {
      items := init;
    }
  }

  /** `localStorage.getItem(key)`: `null` (None) for a missing key. */
  function GetItem(items: map<string, string>, key: string): Option<string> {
    if key in items then Some(items[key]) else None
  }

  /** The storage after `saveTokens({token, refresh})`: the access token is always written
      (stringified, so a missing token is stored as "undefined"); the refresh token only when
      it is truthy, otherwise the previous one stays. */
  function Saved(items: map<string, string>, token: JsStr, refresh: JsStr): (r: map<string, string>)
    ensures GetItem(r, AccessKey) == Some(Stringify(token))
    ensures Truthy(refresh) ==> GetItem(r, RefreshKey) == Some(refresh.s)
    ensures !Truthy(refresh) ==> GetItem(r, RefreshKey) == GetItem(items, RefreshKey)
    ensures forall k :: k != AccessKey && k != RefreshKey ==> GetItem(r, k) == GetItem(items, k)
  {
    var withAccess := items[AccessKey := Stringify(token)];
    if Truthy(refresh) then withAccess[RefreshKey := refresh.s] else withAccess
  }

  /** The storage after `clearTokens()`: both keys removed, every other key untouched. */
  function Cleared(items: map<string, string>): (r: map<string, string>)
    ensures GetItem(r, AccessKey) == None && GetItem(r, RefreshKey) == None
    ensures forall k :: k != AccessKey && k != RefreshKey ==> GetItem(r, k) == GetItem(items, k)
  {
    items - {AccessKey, RefreshKey}
  }

  method SaveTokens(ls: Storage, token: JsStr, refresh: JsStr)
    modifies ls
    ensures ls.items == Saved(old(ls.items), token, refresh)
  {
    ls.items := ls.items[AccessKey := Stringify(token)];
    if Truthy(refresh) {
      ls.items := ls.items[RefreshKey := refresh.s];
    }
  }

  method GetAccessToken(ls: Storage) returns (t: Option<string>)
    ensures t == GetItem(ls.items, AccessKey)
    ensures t.Some? <==> AccessKey in ls.items
  {
    t := if AccessKey in ls.items then Some(ls.items[AccessKey]) else None;
  }

  method GetRefreshToken(ls: Storage) returns (t: Option<string>)
    ensures t == GetItem(ls.items, RefreshKey)
    ensures t.Some? <==> RefreshKey in ls.items
  {
    t := if RefreshKey in ls.items then Some(ls.items[RefreshKey]) else None;
  }

  method ClearTokens(ls: Storage)
    modifies ls
    ensures ls.items == Cleared(old(ls.items))
  {
    ls.items := ls.items - {AccessKey};
    ls.items := ls.items - {RefreshKey};
  }

  /** Clearing after a save gives the same store as clearing alone: once the tokens are
      cleared, no trace of the save remains. */
  lemma {:induction false} ClearAfterSave(items: map<string, string>, token: JsStr, refresh: JsStr)
    ensures Cleared(Saved(items, token, refresh)) == Cleared(items)
  {
    var r := Cleared(Saved(items, token, refresh));
    assert forall k :: k in r <==> k in Cleared(items) by {
      forall k ensures k in r <==> k in Cleared(items) {
        assert GetItem(r, k) == GetItem(Cleared(items), k);
      }
    }
  }
}
