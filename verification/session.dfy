/** The client session store: three in-memory fields (`isAuthenticated`, `user`,
    `accessToken`) mirrored into AsyncStorage under `access_token`,
    `refresh_token` and `user` (the last one as JSON text). */
module Session {
  import opened Wrappers
  import Json
  import opened Storage

  const AccessTokenKey := "access_token"
  const RefreshTokenKey := "refresh_token"
  const UserKey := "user"
  const AvatarField := "avatar_url"

  /** The three keys the store owns; everything else in storage belongs to others. */
  predicate IsSessionKey(k: string) {
    k == AccessTokenKey || k == RefreshTokenKey || k == UserKey
  }

  /** `email.split('@')[0]`: the text before the first `@`, or all of it. */
  function NameFromEmail(email: string): (name: string)
    ensures '@' !in name
    ensures name <= email
    ensures |name| < |email| ==> email[|name|] == '@'
  {
    if email == [] || email[0] == '@' then []
    else [email[0]] + NameFromEmail(email[1..])
  }

  /** The user object the login hooks pass to `setAuth`: `{ email, name }`. */
  function LoginUser(email: string): (u: Json.Object)
    ensures Json.KeysDistinct(u)
    ensures Json.Get(u, "email") == Some(email)
    ensures Json.Get(u, "name") == Some(NameFromEmail(email))
    ensures Json.Get(u, AvatarField) == None
  {
    var u := [("email", email), ("name", NameFromEmail(email))];
    assert |"email"| != |AvatarField| && |"name"| != |AvatarField|;
    assert Json.Get(u[1..][1..], AvatarField) == None;
    u
  }

  /** Storage after `setAuth`'s three `setItem` calls. */
  function SetAuthWrites(items: map<string, string>, user: Json.Object, access: string, refresh: string): (r: map<string, string>)
    ensures r.Keys == items.Keys + {AccessTokenKey, RefreshTokenKey, UserKey}
    ensures r[AccessTokenKey] == access && r[RefreshTokenKey] == refresh && r[UserKey] == Json.Stringify(user)
    ensures forall k :: k in items && !IsSessionKey(k) ==> r[k] == items[k]
  {
    items[AccessTokenKey := access][RefreshTokenKey := refresh][UserKey := Json.Stringify(user)]
  }

  /** Storage after `logout`'s three `removeItem` calls. */
  function LogoutWrites(items: map<string, string>): (r: map<string, string>)
    ensures forall k :: k in r <==> k in items && !IsSessionKey(k)
    ensures forall k :: k in r ==> r[k] == items[k]
  {
    items - {AccessTokenKey, RefreshTokenKey, UserKey}
  }

  /** What `initialize` restores: the parsed user and the token, when both keys
      hold truthy (non-empty) text and the user text parses. */
  function StoredSession(items: map<string, string>): (r: Option<(Json.Object, string)>)
    ensures r.Some? ==> AccessTokenKey in items && r.value.1 == items[AccessTokenKey] && r.value.1 != ""
    ensures r.Some? ==> UserKey in items && Json.Parse(items[UserKey]) == Some(r.value.0)
    ensures r.None? ==> AccessTokenKey !in items || items[AccessTokenKey] == "" || UserKey !in items
                         || Json.Parse(items[UserKey]).None?
  {
    if UserKey in items && items[UserKey] != "" && AccessTokenKey in items && items[AccessTokenKey] != "" then
      match Json.Parse(items[UserKey])
      case Some(u) => Some((u, items[AccessTokenKey]))
      case None => None
    else None
  }

  /** The user `setAvatar` writes: the stored user (or nothing, since
      `JSON.parse(null)` is `null`) spread with `avatar_url`; `None` when the stored
      text does not parse and `JSON.parse` throws. */
  function AvatarUpdate(items: map<string, string>, url: string): (r: Option<Json.Object>)
    ensures UserKey !in items ==> r == Some([(AvatarField, url)])
    ensures r.Some? ==> Json.Get(r.value, AvatarField) == Some(url)
    ensures UserKey in items && r.Some? ==>
      && Json.Parse(items[UserKey]).Some?
      && forall k :: k != AvatarField ==> Json.Get(r.value, k) == Json.Get(Json.Parse(items[UserKey]).value, k)
    ensures UserKey in items ==> (r.None? <==> Json.Parse(items[UserKey]).None?)
  {
    if UserKey !in items then Some(Json.Put([], AvatarField, url))
    else match Json.Parse(items[UserKey])
      case None => None
      case Some(u) => Some(Json.Put(u, AvatarField, url))
  }

  /** Round trip: after `setAuth(u, t, r)`, `initialize` on the same storage
      restores `u` and `t` exactly, provided `t` is truthy. */
  lemma RestoreAfterSetAuth(items: map<string, string>, u: Json.Object, access: string, refresh: string)
    ensures StoredSession(SetAuthWrites(items, u, access, refresh)) == if access != "" then Some((u, access)) else None
  {
    Json.ParseStringify(u);
  }

  /** After `logout` there is nothing for `initialize` to restore, and a second
      `logout` changes nothing. */
  lemma LogoutForgetsSession(items: map<string, string>)
    ensures StoredSession(LogoutWrites(items)) == None
    ensures LogoutWrites(LogoutWrites(items)) == LogoutWrites(items)
  {
  }

  class AuthStore {
    var isAuthenticated: bool
    var user: Option<Json.Object>
    var accessToken: Option<string>
    const storage: KeyValueStore

    /** Authenticated implies a user and a token are held. */
    ghost predicate Valid()
      reads this
    {
      isAuthenticated ==> user.Some? && accessToken.Some?
    }

    /** The store as created: anonymous. */
    constructor (storage: KeyValueStore)
      ensures Valid()
      ensures !isAuthenticated && user == None && accessToken == None
      ensures this.storage == storage
    {
      isAuthenticated := false;
      user := None;
      accessToken := None;
      this.storage := storage;
    }

    /** Writes both tokens and the user to storage, then becomes authenticated.
        The refresh token goes to storage only. */
    method SetAuth(u: Json.Object, access: string, refresh: string)
      modifies this, storage
      ensures Valid()
      ensures storage.items == SetAuthWrites(old(storage.items), u, access, refresh)
      ensures isAuthenticated && user == Some(u) && accessToken == Some(access)
    {
      storage.SetItem(AccessTokenKey, access);
      storage.SetItem(RefreshTokenKey, refresh);
      storage.SetItem(UserKey, Json.Stringify(u));
      isAuthenticated, user, accessToken := true, Some(u), Some(access);
    }

    /** Merges `avatar_url` into the stored user and the in-memory user; `ok` is
        false where `JSON.parse` throws, and then nothing changes. */
    method SetAvatar(url: string) returns (ok: bool)
      requires Valid()
      modifies this, storage
      ensures Valid()
      ensures ok == AvatarUpdate(old(storage.items), url).Some?
      ensures ok ==> storage.items == old(storage.items)[UserKey := Json.Stringify(AvatarUpdate(old(storage.items), url).value)]
      ensures ok ==> user == AvatarUpdate(old(storage.items), url)
      ensures !ok ==> storage.items == old(storage.items) && user == old(user)
      ensures isAuthenticated == old(isAuthenticated) && accessToken == old(accessToken)
    {
      var stored := storage.GetItem(UserKey);
      var base: Json.Object;
      match stored {
        case None =>
          base := [];
        case Some(text) =>
          var parsed := Json.Parse(text);
          if parsed.None? {
            return false;
          }
          base := parsed.value;
      }
      var updated := Json.Put(base, AvatarField, url);
      storage.SetItem(UserKey, Json.Stringify(updated));
      user := Some(updated);
      ok := true;
    }

    /** Removes the three keys and returns to the anonymous state. */
    method Logout()
      modifies this, storage
      ensures Valid()
      ensures storage.items == LogoutWrites(old(storage.items))
      ensures !isAuthenticated && user == None && accessToken == None
    {
      storage.RemoveItem(AccessTokenKey);
      storage.RemoveItem(RefreshTokenKey);
      storage.RemoveItem(UserKey);
      isAuthenticated, user, accessToken := false, None, None;
    }

    /** Restores the session from storage when both keys are there; otherwise
        leaves the state as it was. Storage is only read. */
    method Initialize()
      requires Valid()
      modifies this
      ensures Valid()
      ensures StoredSession(storage.items).Some? ==>
        isAuthenticated && user == Some(StoredSession(storage.items).value.0)
        && accessToken == Some(StoredSession(storage.items).value.1)
      ensures StoredSession(storage.items).None? ==>
        isAuthenticated == old(isAuthenticated) && user == old(user) && accessToken == old(accessToken)
    {
      var u := storage.GetItem(UserKey);
      var token := storage.GetItem(AccessTokenKey);
      if u.Some? && u.value != "" && token.Some? && token.value != "" {
        var parsed := Json.Parse(u.value);
        if parsed.Some? {
          isAuthenticated, user, accessToken := true, parsed, token;
        }
      }
    }
  }

  /** The round trip through the class: log in, restart (a fresh store over the
      same storage), initialize. */
  method RestartRestoresSession(storage: KeyValueStore, email: string, access: string, refresh: string)
      returns (restored: AuthStore)
    requires access != ""
    modifies storage
    ensures restored.isAuthenticated
    ensures restored.user == Some(LoginUser(email)) && restored.accessToken == Some(access)
  {
    var before := new AuthStore(storage);
    before.SetAuth(LoginUser(email), access, refresh);
    RestoreAfterSetAuth(old(storage.items), LoginUser(email), access, refresh);
    restored := new AuthStore(storage);
    restored.Initialize();
  }
}
