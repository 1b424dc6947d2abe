/** The records the pages share: an appointment as the backend returns it,
    the socket events the pages emit, and the "is this appointment today"
    test that both dashboards apply. */
module Clinic {
  import opened Js
  import opened Text
  import opened Seqs

  /** An appointment; ids and dates are kept as the text the backend sends. */
  datatype Appointment = Appointment(id: string, patientId: string, date: string, status: string)

  /** A message emitted on the shared socket. */
  datatype SocketEvent =
    | DoctorLive(roomId: string)
    | JoinRoom(roomId: string, userId: JsString, role: string)
    | SendNotification(doctorId: JsString, patientId: JsString)

  /** `date.split("T")[0]`: the calendar date of an ISO timestamp. */
  function DatePrefix(date: string): (r: string)
    ensures |r| <= |date| && r == date[..|r|]
    ensures forall i :: 0 <= i < |r| ==> r[i] != 'T'
    ensures |r| < |date| ==> date[|r|] == 'T'
  {
    SplitFirst(date, "T");
    BeforeChar(date, 'T')
  }

  /** The appointment falls on the day of the ISO timestamp `nowIso`. */
  predicate IsToday(a: Appointment, nowIso: string) {
    DatePrefix(a.date) == DatePrefix(nowIso)
  }

  /** The appointments that fall today, in their original order. */
  function TodaysAppointments(appts: seq<Appointment>, nowIso: string): (r: seq<Appointment>)
    ensures |r| <= |appts|
    ensures forall a :: a in r <==> a in appts && DatePrefix(a.date) == DatePrefix(nowIso)
  {
    Filter(appts, a => IsToday(a, nowIso))
  }

  /** The filter keeps order: today's appointments of a concatenation are
      those of the first part followed by those of the second. */
  lemma TodaysAppointmentsConcat(a: seq<Appointment>, b: seq<Appointment>, nowIso: string)
    ensures TodaysAppointments(a + b, nowIso)
         == TodaysAppointments(a, nowIso) + TodaysAppointments(b, nowIso)
  {
    FilterConcat(a, b, x => IsToday(x, nowIso));
  }
}
