/** The registration form: a record of named fields edited one at a time,
    and the payload a submission sends. */
module Register {
  import opened Wrappers
  import opened AuthService
  import opened AuthContext

  /** The fields the form's record starts with. */
  const FormFields: set<string> := {"role", "name", "lastName", "email", "password", "specialization", "secretCode"}

  /** The initial `registerData`: a patient account, every other field empty. */
  function InitialRegisterData(): (d: map<string, string>)
    ensures d.Keys == FormFields
    ensures d["role"] == "patient"
    ensures forall k :: k in d && k != "role" ==> d[k] == ""
  {
    map["role" := "patient", "name" := "", "lastName" := "", "email" := "",
        "password" := "", "specialization" := "", "secretCode" := ""]
  }

  /** The record `RegisterUser` is called with: `name` becomes the first and
      last name joined by a space, every other field is kept as is. */
  function SubmittedPayload(d: map<string, string>): (p: map<string, string>)
    requires "name" in d && "lastName" in d
    ensures p.Keys == d.Keys
    ensures p["name"] == d["name"] + " " + d["lastName"]
    ensures forall k :: k in d && k != "name" ==> p[k] == d[k]
  {
    d["name" := d["name"] + " " + d["lastName"]]
  }

  /** The secret-code and specialization inputs render only for a doctor. */
  predicate DoctorFieldsShown(d: map<string, string>) {
    "role" in d && d["role"] == "doctor"
  }

  /** A new form shows no doctor-only inputs; choosing the doctor radio shows them,
      and choosing the patient radio hides them again. */
  lemma DoctorFieldsFollowRole(d: map<string, string>)
    ensures !DoctorFieldsShown(InitialRegisterData())
    ensures DoctorFieldsShown(d["role" := "doctor"])
    ensures !DoctorFieldsShown(d["role" := "patient"])
  {
  }

  /** Submitting a form fresh from the initial record sends a name of one space. */
  lemma InitialPayloadName()
    ensures SubmittedPayload(InitialRegisterData())["name"] == " "
  {
  }

  /** How the registration request settles. */
  datatype RegisterReply = Registered(data: LoginResponse) | RegisterFailed

  const RegisterFailedText := "Registration failed. Please try again."

  class RegisterForm {
    const auth: AuthProvider
    var data: map<string, string>
    /** The payloads sent to `RegisterUser` and the alerts shown, in order. */
    var submitted: seq<map<string, string>>
    var alerts: seq<string>

    /** The record always holds the form's fields. */
    predicate Valid()
      reads this
    {
      FormFields <= data.Keys
    }

    constructor (auth: AuthProvider)
      ensures this.auth == auth
      ensures data == InitialRegisterData() && submitted == [] && alerts == []
      ensures Valid()
    {
      this.auth := auth;
      data := InitialRegisterData();
      submitted := [];
      alerts := [];
    }

    /** `handleChange`: exactly the named field takes the new value. */
    method HandleChange(name: string, value: string)
      requires Valid()
      modifies this`data
      ensures Valid()
      ensures data.Keys == old(data.Keys) + {name}
      ensures data[name] == value
      ensures forall k :: k in old(data) && k != name ==> data[k] == old(data)[k]
    {
      data := data[name := value];
    }

    /** `handleSubmit`, with the request's outcome given as `reply`: the
        response data goes to `login`, a failure to an alert. */
    method HandleSubmit(reply: RegisterReply)
      requires Valid()
      modifies this`submitted, this`alerts, auth, auth.storage
      ensures Valid() && data == old(data)
      ensures submitted == old(submitted) + [SubmittedPayload(data)]
      ensures auth.loading == old(auth.loading)
      ensures reply.Registered? ==>
        && alerts == old(alerts)
        && auth.storage.items == LoginStore(old(auth.storage.items), reply.data)
        && auth.user == (if reply.data.user.Some? then Some(LoggedInUser(reply.data)) else old(auth.user))
        && auth.navigations == old(auth.navigations) + LoginNavigation(reply.data)
      ensures reply.RegisterFailed? ==>
        && alerts == old(alerts) + [RegisterFailedText]
        && auth.storage.items == old(auth.storage.items)
        && auth.user == old(auth.user) && auth.navigations == old(auth.navigations)
    {
      submitted := submitted + [SubmittedPayload(data)];
      match reply {
        case Registered(response) =>
          auth.Login(response);
        case RegisterFailed =>
          alerts := alerts + [RegisterFailedText];
      }
    }
  }
}
