/** `loginUser`: post the credentials, then store the session keys the reply
    carries. The request itself is the `reply` parameter. */
module AuthService {
  import opened Wrappers
  import opened Js
  import opened Storage

  /** `response.data.user`. */
  datatype UserInfo = UserInfo(role: string, id: string)

  /** `response.data` of the login and registration requests. */
  datatype LoginResponse = LoginResponse(
    token: JsString,
    user: Option<UserInfo>,
    doctorId: JsString,
    patientId: JsString,
    secretCode: JsString)

  /** Why `loginUser` rejects: the request failed, or the reply had no `user`
      (reading `user.role` throws after the token has been stored). */
  datatype LoginError = RequestFailed(message: string) | MissingUser

  /** The keys `loginUser` writes for a user of role `role`. */
  function WrittenKeys(role: string): set<string> {
    {"token", "role", "userId"}
      + (if role == "doctor" then {"doctorId", "secretCode"}
         else if role == "patient" then {"patientId"}
         else {})
  }

  /** The store after a successful `loginUser`. */
  function LoginUserStore(items: map<string, string>, resp: LoginResponse): (r: map<string, string>)
    requires resp.user.Some?
    ensures r.Keys == items.Keys + WrittenKeys(resp.user.value.role)
    ensures r["token"] == ToString(resp.token)
    ensures r["role"] == resp.user.value.role && r["userId"] == resp.user.value.id
    ensures resp.user.value.role == "doctor" ==>
      r["doctorId"] == ToString(resp.doctorId) && r["secretCode"] == ToString(resp.secretCode)
    ensures resp.user.value.role == "patient" ==> r["patientId"] == ToString(resp.patientId)
    ensures forall k :: k in items && k !in WrittenKeys(resp.user.value.role) ==> r[k] == items[k]
  {
    var user := resp.user.value;
    var common := items["token" := ToString(resp.token)]["role" := user.role]["userId" := user.id];
    if user.role == "doctor" then
      common["doctorId" := ToString(resp.doctorId)]["secretCode" := ToString(resp.secretCode)]
    else if user.role == "patient" then
      common["patientId" := ToString(resp.patientId)]
    else
      common
  }

  /** A doctor's login never writes `patientId`, a patient's never writes
      `doctorId` or `secretCode`, and another role writes only the three
      session keys. */
  lemma RoleSpecificKeys(items: map<string, string>, resp: LoginResponse)
    requires resp.user.Some?
    ensures var r := LoginUserStore(items, resp);
      var role := resp.user.value.role;
      && (role == "doctor" ==> ("patientId" in r <==> "patientId" in items))
      && (role == "patient" ==>
            ("doctorId" in r <==> "doctorId" in items) && ("secretCode" in r <==> "secretCode" in items))
      && (role != "doctor" && role != "patient" ==> r.Keys == items.Keys + {"token", "role", "userId"})
  {
  }

  /** `loginUser(data)`, `reply` being how the POST settles. */
  method LoginUser(storage: LocalStorage, reply: Result<LoginResponse, string>)
    returns (r: Result<LoginResponse, LoginError>)
    modifies storage
    ensures reply.Err? ==> storage.items == old(storage.items) && r == Err(RequestFailed(reply.error))
    ensures reply.Ok? && reply.value.user.None? ==>
      storage.items == old(storage.items)["token" := ToString(reply.value.token)]
      && r == Err(MissingUser)
    ensures reply.Ok? && reply.value.user.Some? ==>
      storage.items == LoginUserStore(old(storage.items), reply.value) && r == Ok(reply.value)
  {
    if reply.Err? {
      return Err(RequestFailed(reply.error));
    }
    var resp := reply.value;
    storage.SetItem("token", ToString(resp.token));
    if resp.user.None? {
      return Err(MissingUser);
    }
    var user := resp.user.value;
    storage.SetItem("role", user.role);
    storage.SetItem("userId", user.id);
    if user.role == "doctor" {
      storage.SetItem("doctorId", ToString(resp.doctorId));
      storage.SetItem("secretCode", ToString(resp.secretCode));
    } else if user.role == "patient" {
      storage.SetItem("patientId", ToString(resp.patientId));
    }
    r := Ok(resp);
  }
}
