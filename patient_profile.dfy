/** The patient's profile page: today's appointments, the status badge,
    the upload guard, the consultation request and the render order. */
module PatientProfile {
  import opened Wrappers
  import opened Js
  import opened Clinic
  import Seqs

  /** What the appointments card shows. */
  datatype AppointmentsCard = NoAppointmentsMessage | AppointmentList(items: seq<Appointment>)

  /** The card: the message only for an empty fetched list, otherwise the
      (possibly empty) list of today's appointments. */
  function AppointmentsCardFor(appts: seq<Appointment>, nowIso: string): (r: AppointmentsCard)
    ensures r.NoAppointmentsMessage? <==> |appts| == 0
    ensures r.AppointmentList? ==> r.items == TodaysAppointments(appts, nowIso)
  {
    if |appts| > 0 then AppointmentList(TodaysAppointments(appts, nowIso)) else NoAppointmentsMessage
  }

  /** A fetched list with nothing today renders an empty list, not the message. */
  lemma NothingTodayRendersEmptyList(appts: seq<Appointment>, nowIso: string)
    requires |appts| > 0
    requires forall i :: 0 <= i < |appts| ==> !IsToday(appts[i], nowIso)
    ensures AppointmentsCardFor(appts, nowIso) == AppointmentList([])
  {
    Seqs.FilterNone(appts, a => IsToday(a, nowIso));
  }

  datatype BadgeColour = Green | Red | Blue

  /** The status badge's colour. */
  function BadgeColourFor(status: string): (c: BadgeColour)
    ensures c == Green <==> status == "completed"
    ensures c == Red <==> status == "cancelled"
    ensures c == Blue <==> status != "completed" && status != "cancelled"
  {
    if status == "completed" then Green
    else if status == "cancelled" then Red
    else Blue
  }

  /** The part of the fetched patient the page looks at. */
  datatype Patient = Patient(user: Option<string>)

  /** The upload `handleImageUpload` posts: none without a file, a patient
      or the patient's `User`; otherwise the image goes to the upload
      endpoint of the stored user id. */
  function UploadPath(hasFile: bool, patient: Option<Patient>, storedUserId: JsString): (r: Option<string>)
    ensures r.None? <==> !hasFile || patient.None? || patient.value.user.None?
    ensures r.Some? ==> r.value == "/api/user/" + ToString(storedUserId) + "/upload-profile-image"
  {
    if !hasFile || patient.None? || patient.value.user.None? then None
    else Some("/api/user/" + ToString(storedUserId) + "/upload-profile-image")
  }

  /** `sendNotification(doctorId)`: the stored patient id goes with it. */
  function NotificationFor(doctorId: JsString, storedPatientId: JsString): (e: SocketEvent)
    ensures e.SendNotification? && e.doctorId == doctorId && e.patientId == storedPatientId
  {
    SendNotification(doctorId, storedPatientId)
  }

  datatype Screen = Spinner | ErrorScreen(message: string) | NoDataScreen | ProfileScreen

  /** Which screen renders: loading first, then the error, then a missing
      patient, then the profile. */
  function ScreenFor(loading: bool, error: Option<string>, patient: Option<Patient>): (s: Screen)
    ensures loading ==> s == Spinner
    ensures !loading && error.Some? ==> s == ErrorScreen(error.value)
    ensures s == ProfileScreen <==> !loading && error.None? && patient.Some?
    ensures s == NoDataScreen <==> !loading && error.None? && patient.None?
  {
    if loading then Spinner
    else if error.Some? then ErrorScreen(error.value)
    else if patient.None? then NoDataScreen
    else ProfileScreen
  }
}
