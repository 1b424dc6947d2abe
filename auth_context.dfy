/** The session context: restore the user from storage on start, log in,
    log out, and hold the children back until the restore has run. */
module AuthContext {
  import opened Wrappers
  import opened Js
  import opened Storage
  import opened AuthService

  /** The `user` the context provides. */
  datatype AuthUser = AuthUser(token: JsString, role: string, userId: string)

  /** The keys the context owns. */
  const SessionKeys: set<string> := {"token", "role", "userId"}

  /** The user the restore effect finds in the store. */
  function RestoredUser(items: map<string, string>): (u: Option<AuthUser>)
    ensures u.Some? <==> forall k :: k in SessionKeys ==> k in items && items[k] != ""
    ensures u.Some? ==> u.value == AuthUser(Str(items["token"]), items["role"], items["userId"])
  {
    var token := if "token" in items then Str(items["token"]) else Null;
    var role := if "role" in items then Str(items["role"]) else Null;
    var userId := if "userId" in items then Str(items["userId"]) else Null;
    if Truthy(token) && Truthy(role) && Truthy(userId) then
      Some(AuthUser(token, role.s, userId.s))
    else
      None
  }

  /** The user `login` puts into the context. */
  function LoggedInUser(data: LoginResponse): AuthUser
    requires data.user.Some?
  {
    AuthUser(data.token, data.user.value.role, data.user.value.id)
  }

  /** The store after `login(data)`; without `user` only the token is written
      before reading `user.role` throws. */
  function LoginStore(items: map<string, string>, data: LoginResponse): (r: map<string, string>)
    ensures data.user.None? ==> r == items["token" := ToString(data.token)]
    ensures data.user.Some? ==>
      && r.Keys == items.Keys + SessionKeys
      && r["token"] == ToString(data.token)
      && r["role"] == data.user.value.role
      && r["userId"] == data.user.value.id
      && forall k :: k in items && k !in SessionKeys ==> r[k] == items[k]
  {
    var withToken := items["token" := ToString(data.token)];
    if data.user.None? then withToken
    else withToken["role" := data.user.value.role]["userId" := data.user.value.id]
  }

  /** Where `login` navigates: a doctor to their dashboard, a patient to
      their profile, anyone else nowhere. */
  function LoginNavigation(data: LoginResponse): (r: seq<string>)
    ensures data.user.None? ==> r == []
    ensures data.user.Some? && data.user.value.role == "doctor" ==>
      r == ["/doctor/" + ToString(data.secretCode)]
    ensures data.user.Some? && data.user.value.role == "patient" ==>
      r == ["/patient/user/" + data.user.value.id]
    ensures data.user.Some? && data.user.value.role != "doctor" && data.user.value.role != "patient" ==>
      r == []
  {
    if data.user.None? then []
    else if data.user.value.role == "doctor" then ["/doctor/" + ToString(data.secretCode)]
    else if data.user.value.role == "patient" then ["/patient/user/" + data.user.value.id]
    else []
  }

  /** The store after `logout`. */
  function LogoutStore(items: map<string, string>): (r: map<string, string>)
    ensures r.Keys == items.Keys - SessionKeys
    ensures forall k :: k in r ==> r[k] == items[k]
  {
    items - SessionKeys
  }

  /** Round trip: a later restore yields the user `login` set exactly when the
      token, role and id were non-empty strings. An absent token is stored as
      the text "undefined", so the restored token then differs. */
  lemma LoginThenRestore(items: map<string, string>, data: LoginResponse)
    requires data.user.Some?
    ensures RestoredUser(LoginStore(items, data)) == Some(LoggedInUser(data))
        <==> Truthy(data.token) && data.user.value.role != "" && data.user.value.id != ""
  {
  }

  /** Logging out twice leaves the store as logging out once, and after a
      logout nothing is restored. */
  lemma LogoutIdempotent(items: map<string, string>)
    ensures LogoutStore(LogoutStore(items)) == LogoutStore(items)
    ensures RestoredUser(LogoutStore(items)) == None
  {
  }

  class AuthProvider {
    const storage: LocalStorage
    var user: Option<AuthUser>
    var loading: bool
    var navigations: seq<string>

    /** The provider before its effect runs: no user, still loading. */
    constructor (storage: LocalStorage)
      ensures this.storage == storage
      ensures user == None && loading && navigations == []
    {
      this.storage := storage;
      user, loading, navigations := None, true, [];
    }

    /** The children render only once loading has ended. */
    function RendersChildren(): (b: bool)
      reads this
      ensures b <==> !loading
    {
      !loading
    }

    /** The restore effect; `readFails` stands for `getItem` throwing. */
    method Restore(readFails: bool)
      modifies this
      ensures readFails ==> user == None
      ensures !readFails && RestoredUser(storage.items).Some? ==> user == RestoredUser(storage.items)
      ensures !readFails && RestoredUser(storage.items).None? ==> user == old(user)
      ensures !loading && RendersChildren()
      ensures navigations == old(navigations)
    {
      if readFails {
        user := None;
      } else {
        var token := storage.GetItem("token");
        var role := storage.GetItem("role");
        var userId := storage.GetItem("userId");
        if Truthy(token) && Truthy(role) && Truthy(userId) {
          user := Some(AuthUser(token, role.s, userId.s));
        }
      }
      loading := false;
    }

    /** `login(userData)`. */
    method Login(data: LoginResponse)
      modifies this, storage
      ensures storage.items == LoginStore(old(storage.items), data)
      ensures user == (if data.user.Some? then Some(LoggedInUser(data)) else old(user))
      ensures navigations == old(navigations) + LoginNavigation(data)
      ensures loading == old(loading)
    {
      storage.SetItem("token", ToString(data.token));
      if data.user.None? {
        return;
      }
      var info := data.user.value;
      storage.SetItem("role", info.role);
      storage.SetItem("userId", info.id);
      user := Some(AuthUser(data.token, info.role, info.id));
      if info.role == "doctor" {
        navigations := navigations + ["/doctor/" + ToString(data.secretCode)];
      } else if info.role == "patient" {
        navigations := navigations + ["/patient/user/" + info.id];
      }
    }

    /** `logout()`. */
    method Logout()
      modifies this, storage
      ensures storage.items == LogoutStore(old(storage.items))
      ensures user == None
      ensures navigations == old(navigations) + ["/login"]
      ensures loading == old(loading)
    {
      storage.RemoveItem("token");
      storage.RemoveItem("role");
      storage.RemoveItem("userId");
      user := None;
      navigations := navigations + ["/login"];
    }
  }
}
