/** The update-patient page: where the doctor's secret code comes from,
    when the form shows, and the requests one submission sends. */
module UpdatePatient {
  import opened Wrappers
  import opened Js

  /** The patient passed in the router state. */
  datatype PatientData = PatientData(id: string, name: string, medicalHistory: JsString)

  /** `location.state`; a missing field is `Undefined`. */
  datatype NavState = NavState(patient: Option<PatientData>, doctorId: JsString, secretCode: JsString)

  /** `location.state || {}`: an absent state reads as an empty object. */
  function StateOrEmpty(state: Option<NavState>): NavState {
    if state.Some? then state.value else NavState(None, Undefined, Undefined)
  }

  /** The destructured `secretCode`, whose default (the stored code) applies
      only when the state has no `secretCode` at all. */
  function DestructuredSecretCode(state: Option<NavState>, stored: JsString): (c: JsString)
    ensures StateOrEmpty(state).secretCode != Undefined ==> c == StateOrEmpty(state).secretCode
    ensures StateOrEmpty(state).secretCode == Undefined ==> c == stored
  {
    var code := StateOrEmpty(state).secretCode;
    if code == Undefined then stored else code
  }

  /** `secretCode || location.state?.secretCode || localStorage.getItem("doctorSecretCode")`. */
  function FinalSecretCode(state: Option<NavState>, stored: JsString): JsString {
    Or(Or(DestructuredSecretCode(state, stored), StateOrEmpty(state).secretCode), stored)
  }

  /** The fallback chain reduces to: the state's code when it is non-empty,
      otherwise the stored one. */
  lemma FinalSecretCodeFallback(state: Option<NavState>, stored: JsString)
    ensures Truthy(StateOrEmpty(state).secretCode) ==>
      FinalSecretCode(state, stored) == StateOrEmpty(state).secretCode
    ensures !Truthy(StateOrEmpty(state).secretCode) && Truthy(stored) ==>
      FinalSecretCode(state, stored) == stored
    ensures Truthy(FinalSecretCode(state, stored)) <==>
      Truthy(StateOrEmpty(state).secretCode) || Truthy(stored)
  {
  }

  datatype PageGuard = MissingCodeAlert | RedirectToDoctor | ShowForm

  const MissingCodeText := "System error: Missing doctor identification"

  /** The two early returns: no secret code alerts, no patient redirects to
      `/doctor`; only then does the form render. */
  function GuardFor(state: Option<NavState>, stored: JsString): (g: PageGuard)
    ensures g == MissingCodeAlert <==> !Truthy(FinalSecretCode(state, stored))
    ensures g == RedirectToDoctor <==> Truthy(FinalSecretCode(state, stored)) && StateOrEmpty(state).patient.None?
    ensures g == ShowForm <==> Truthy(FinalSecretCode(state, stored)) && StateOrEmpty(state).patient.Some?
  {
    if !Truthy(FinalSecretCode(state, stored)) then MissingCodeAlert
    else if StateOrEmpty(state).patient.None? then RedirectToDoctor
    else ShowForm
  }

  /** The form shows only with a patient and a non-empty code from the state
      or the store. */
  lemma FormNeedsPatientAndCode(state: Option<NavState>, stored: JsString)
    ensures GuardFor(state, stored) == ShowForm <==>
      state.Some? && state.value.patient.Some?
      && (Truthy(state.value.secretCode) || Truthy(stored))
  {
    FinalSecretCodeFallback(state, stored);
  }

  /** `charAt(0) + charAt(1)`: up to the first two characters. */
  function Initials(name: string): (r: string)
    ensures |r| == if |name| < 2 then |name| else 2
    ensures r == name[..|r|]
  {
    if |name| < 2 then name else name[..2]
  }

  /** A request the submission sends. */
  datatype Request =
    | PutMedicalHistory(patientId: string, medicalHistory: string)
    | PostAvailability(doctorId: JsString, patientId: string, availabilityData: string)

  /** How a request settles: success, or an error with the server's message
      and the error's own message. */
  datatype HttpReply = Success | HttpFailed(serverMessage: JsString, errorMessage: JsString)

  datatype UpdateEffect = NavigateTo(path: string, secretCode: JsString) | FailureAlert(text: string)

  const SuccessPathPrefix := "/doctor/"

  /** The alert text for a failed request. */
  function FailureText(reply: HttpReply): string
    requires reply.HttpFailed?
  {
    "Update failed: " + ToString(Or(reply.serverMessage, reply.errorMessage))
  }

  /** The requests that go out, in order, given how each one settles. */
  function RequestsSent(patientId: string, history: string, date: string, doctorId: JsString,
                        putReply: HttpReply): (rs: seq<Request>)
    ensures |rs| >= 1 && rs[0] == PutMedicalHistory(patientId, history)
    ensures |rs| == 2 <==> date != "" && putReply.Success?
    ensures |rs| == 2 ==> rs[1] == PostAvailability(doctorId, patientId, date)
    ensures |rs| <= 2
  {
    [PutMedicalHistory(patientId, history)]
      + (if date != "" && putReply.Success? then [PostAvailability(doctorId, patientId, date)] else [])
  }

  /** What the submission ends with: the navigation on success, the alert of
      the first failing request otherwise. */
  function UpdateEffectFor(date: string, finalCode: JsString, secretCode: JsString,
                           putReply: HttpReply, postReply: HttpReply): (e: UpdateEffect)
    ensures e.NavigateTo? <==> putReply.Success? && (date == "" || postReply.Success?)
    ensures e.NavigateTo? ==> e.path == SuccessPathPrefix + ToString(finalCode) && e.secretCode == secretCode
    ensures putReply.HttpFailed? ==> e == FailureAlert(FailureText(putReply))
    ensures putReply.Success? && date != "" && postReply.HttpFailed? ==> e == FailureAlert(FailureText(postReply))
  {
    if putReply.HttpFailed? then FailureAlert(FailureText(putReply))
    else if date != "" && postReply.HttpFailed? then FailureAlert(FailureText(postReply))
    else NavigateTo(SuccessPathPrefix + ToString(finalCode), secretCode)
  }

  /** The rendered form, once the guards have let it through. */
  class UpdateForm {
    const patient: PatientData
    const doctorId: JsString
    /** The destructured `secretCode` and the resolved `finalSecretCode`. */
    const secretCode: JsString
    const finalCode: JsString
    var medicalHistory: string
    var appointmentDate: string
    var isSubmitting: bool
    var requests: seq<Request>
    var effects: seq<UpdateEffect>

    /** The first render: the history starts from the patient's, the date empty. */
    constructor (state: NavState, stored: JsString)
      requires GuardFor(Some(state), stored) == ShowForm
      ensures patient == state.patient.value && doctorId == state.doctorId
      ensures secretCode == DestructuredSecretCode(Some(state), stored)
      ensures finalCode == FinalSecretCode(Some(state), stored) && Truthy(finalCode)
      ensures medicalHistory == ToString(Or(state.patient.value.medicalHistory, Str("")))
      ensures appointmentDate == "" && !isSubmitting && requests == [] && effects == []
    {
      patient := state.patient.value;
      doctorId := state.doctorId;
      secretCode := DestructuredSecretCode(Some(state), stored);
      finalCode := FinalSecretCode(Some(state), stored);
      medicalHistory := ToString(Or(state.patient.value.medicalHistory, Str("")));
      appointmentDate := "";
      isSubmitting := false;
      requests := [];
      effects := [];
    }

    /** The submit button's label. */
    function SubmitLabel(): (s: string)
      reads this
      ensures isSubmitting ==> s == "Saving..."
      ensures !isSubmitting ==> s == "Save Changes"
    {
      if isSubmitting then "Saving..." else "Save Changes"
    }

    method SetMedicalHistory(text: string)
      modifies this`medicalHistory
      ensures medicalHistory == text
    {
      medicalHistory := text;
    }

    method SetAppointmentDate(text: string)
      modifies this`appointmentDate
      ensures appointmentDate == text
    {
      appointmentDate := text;
    }

    /** Sending a request; only ever done while the submission is in flight. */
    method Send(r: Request)
      requires isSubmitting
      modifies this`requests
      ensures requests == old(requests) + [r]
    {
      requests := requests + [r];
    }

    /** `handleUpdate`, with the outcomes of the two requests as parameters
        (the second is consulted only if it is sent). */
    method HandleUpdate(putReply: HttpReply, postReply: HttpReply)
      modifies this`isSubmitting, this`requests, this`effects
      ensures requests == old(requests)
        + RequestsSent(patient.id, medicalHistory, appointmentDate, doctorId, putReply)
      ensures effects == old(effects)
        + [UpdateEffectFor(appointmentDate, finalCode, secretCode, putReply, postReply)]
      ensures !isSubmitting
    {
      isSubmitting := true;
      Send(PutMedicalHistory(patient.id, medicalHistory));
      if putReply.HttpFailed? {
        effects := effects + [FailureAlert(FailureText(putReply))];
      } else {
        if appointmentDate != "" {
          Send(PostAvailability(doctorId, patient.id, appointmentDate));
        }
        if appointmentDate != "" && postReply.HttpFailed? {
          effects := effects + [FailureAlert(FailureText(postReply))];
        } else {
          effects := effects + [NavigateTo(SuccessPathPrefix + ToString(finalCode), secretCode)];
        }
      }
      isSubmitting := false;
    }
  }
}
