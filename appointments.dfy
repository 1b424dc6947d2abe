/** The appointments page: the list fetch, the `join-room` emission for each
    appointment, the per-room "doctor is live" flags and the join button. */
module Appointments {
  import opened Wrappers
  import opened Js
  import opened Text
  import opened Clinic
  import opened AuthContext

  const AuthRequiredMessage := "Authentication required. Please log in."
  const FetchFailedMessage := "Failed to fetch appointments"

  /** Which list the fetch asks the backend for. */
  datatype Endpoint = DoctorAppointments | PatientAppointments

  /** `response.data.appointments`, which may be missing, or the failure's
      `err.response?.data?.message`. */
  datatype FetchReply = Fetched(appointments: Option<seq<Appointment>>) | FetchFailed(message: JsString)

  /** The `join-room` payload as line 48 writes it: the auth user has no `id`
      field (its id is `userId`), so the payload's `userId` is `undefined`. */
  function JoinRoomAsWritten(a: Appointment, user: AuthUser): (e: SocketEvent)
    ensures e.JoinRoom? && e.roomId == a.id && e.userId == Undefined && e.role == user.role
  {
    JoinRoom(a.id, Undefined, user.role)
  }

  /** The intended payload: the appointment's room, the user's id and role. */
  function JoinRoomFor(a: Appointment, user: AuthUser): (e: SocketEvent)
    ensures e.JoinRoom? && e.roomId == a.id && e.userId == Str(user.userId) && e.role == user.role
  {
    JoinRoom(a.id, Str(user.userId), user.role)
  }

  /** One `payload(a, user)` per appointment `a`, in list order. */
  function JoinRoomEvents(appts: seq<Appointment>, user: AuthUser,
                          payload: (Appointment, AuthUser) -> SocketEvent): (r: seq<SocketEvent>)
    ensures |r| == |appts|
    ensures forall i :: 0 <= i < |appts| ==> r[i] == payload(appts[i], user)
  {
    seq(|appts|, i requires 0 <= i < |appts| => payload(appts[i], user))
  }

  /** As written, no `join-room` the page emits carries the signed-in user's
      id, whatever the fetched list; the rooms are still the appointments'. */
  lemma AsWrittenEventsLoseUserId(appts: seq<Appointment>, user: AuthUser)
    ensures forall e :: e in JoinRoomEvents(appts, user, JoinRoomAsWritten) ==>
      e.JoinRoom? && e.userId != Str(user.userId) && e.role == user.role
    ensures forall i :: 0 <= i < |appts| ==>
      JoinRoomEvents(appts, user, JoinRoomAsWritten)[i].roomId == appts[i].id
  {
    var r := JoinRoomEvents(appts, user, JoinRoomAsWritten);
    forall e | e in r ensures e.JoinRoom? && e.userId != Str(user.userId) && e.role == user.role {
      var i :| 0 <= i < |r| && r[i] == e;
      assert e == JoinRoomAsWritten(appts[i], user);
    }
  }

  /** With the corrected payload every `join-room` carries the user's id and
      role, one per appointment in list order. */
  lemma CorrectedEventsCarryUserId(appts: seq<Appointment>, user: AuthUser)
    ensures forall e :: e in JoinRoomEvents(appts, user, JoinRoomFor) ==>
      e.JoinRoom? && e.userId == Str(user.userId) && e.role == user.role
    ensures forall i :: 0 <= i < |appts| ==>
      JoinRoomEvents(appts, user, JoinRoomFor)[i].roomId == appts[i].id
  {
    var r := JoinRoomEvents(appts, user, JoinRoomFor);
    forall e | e in r ensures e.JoinRoom? && e.userId == Str(user.userId) && e.role == user.role {
      var i :| 0 <= i < |r| && r[i] == e;
      assert e == JoinRoomFor(appts[i], user);
    }
  }

  /** The `forEach` over the fetched list: one `join-room` per appointment,
      in list order, built by `payload`. */
  method JoinRoomEmissions(appts: seq<Appointment>, user: AuthUser,
                           payload: (Appointment, AuthUser) -> SocketEvent)
    returns (events: seq<SocketEvent>)
    ensures events == JoinRoomEvents(appts, user, payload)
  {
    events := [];
    var i := 0;
    while i < |appts|
      invariant 0 <= i <= |appts|
      invariant |events| == i
      invariant forall k :: 0 <= k < i ==> events[k] == payload(appts[k], user)
    {
      events := events + [payload(appts[i], user)];
      i := i + 1;
    }
  }

  /** `liveAppointments[roomId]`: an absent room reads as not live. */
  predicate IsLive(live: map<string, bool>, roomId: string) {
    roomId in live && live[roomId]
  }

  /** The flags after `doctor-is-live` events for the rooms of `rooms`, in order. */
  function LiveAfter(live: map<string, bool>, rooms: seq<string>): map<string, bool>
    decreases |rooms|
  {
    if rooms == [] then live else LiveAfter(live[rooms[0] := true], rooms[1..])
  }

  /** After a sequence of events a room is live exactly when it was live
      before or some event named it: flags are never reset. */
  lemma {:induction false} LiveAfterEvents(live: map<string, bool>, rooms: seq<string>, roomId: string)
    ensures IsLive(LiveAfter(live, rooms), roomId) <==> IsLive(live, roomId) || roomId in rooms
    decreases |rooms|
  {
    if rooms != [] {
      LiveAfterEvents(live[rooms[0] := true], rooms[1..], roomId);
      assert roomId in rooms <==> roomId == rooms[0] || roomId in rooms[1..];
    }
  }

  /** The join button is disabled for a patient while the room is not live. */
  predicate JoinDisabled(role: string, live: bool) {
    role == "patient" && !live
  }

  /** The join button's text. */
  function JoinLabel(role: string, live: bool): string {
    if role == "doctor" then "Start Live"
    else if live then "Join Live"
    else "Waiting for Doctor"
  }

  /** For a patient the button is disabled exactly while it reads "Waiting
      for Doctor"; a doctor's button is always enabled and reads "Start Live";
      any other role sees "Waiting for Doctor" on an enabled button until the
      room goes live. */
  lemma JoinButtonConsistent(role: string, live: bool)
    ensures JoinDisabled(role, live) <==> role == "patient" && !live
    ensures role != "doctor" ==> JoinLabel(role, live) == (if live then "Join Live" else "Waiting for Doctor")
    ensures role == "patient" ==> (JoinDisabled(role, live) <==> JoinLabel(role, live) == "Waiting for Doctor")
    ensures role == "doctor" ==> !JoinDisabled(role, live) && JoinLabel(role, live) == "Start Live"
    ensures role != "doctor" && role != "patient" ==>
      !JoinDisabled(role, live) && (JoinLabel(role, live) == "Waiting for Doctor" <==> !live)
  {
  }

  /** `status.charAt(0).toUpperCase() + status.slice(1)`. */
  function StatusText(status: string): (r: string)
    ensures |r| == |status|
    ensures status != "" ==> r[0] == UpperChar(status[0]) && r[1..] == status[1..]
    ensures status == "" ==> r == ""
  {
    Capitalize(status)
  }

  class AppointmentsPage {
    var appointments: seq<Appointment>
    var loading: bool
    var error: Option<string>
    var live: map<string, bool>
    var requests: seq<Endpoint>
    var emitted: seq<SocketEvent>
    var navigations: seq<string>

    /** The first render: loading, no error, no live rooms. */
    constructor ()
      ensures appointments == [] && loading && error == None && live == map[]
      ensures requests == [] && emitted == [] && navigations == []
    {
      appointments, loading, error, live := [], true, None, map[];
      requests, emitted, navigations := [], [], [];
    }

    /** `fetchAppointments`, `reply` being how the request settles. */
    method FetchAppointments(user: Option<AuthUser>, reply: FetchReply)
      modifies this
      ensures !loading
      ensures user.None? ==>
        error == Some(AuthRequiredMessage) && requests == old(requests)
        && emitted == old(emitted) && appointments == old(appointments)
      ensures user.Some? ==>
        requests == old(requests) + [if user.value.role == "doctor" then DoctorAppointments else PatientAppointments]
      ensures user.Some? && reply.Fetched? ==>
        var list := if reply.appointments.Some? then reply.appointments.value else [];
        && appointments == list && error == old(error)
        && emitted == old(emitted) + JoinRoomEvents(list, user.value, JoinRoomAsWritten)
      ensures user.Some? && reply.FetchFailed? ==>
        error == Some(ToString(Or(reply.message, Str(FetchFailedMessage))))
        && appointments == old(appointments) && emitted == old(emitted)
      ensures live == old(live) && navigations == old(navigations)
    {
      if user.None? {
        error := Some(AuthRequiredMessage);
        loading := false;
        return;
      }
      var u := user.value;
      requests := requests + [if u.role == "doctor" then DoctorAppointments else PatientAppointments];
      match reply {
        case Fetched(list) =>
          var fetched := if list.Some? then list.value else [];
          appointments := fetched;
          var events := JoinRoomEmissions(fetched, u, JoinRoomAsWritten);
          emitted := emitted + events;
        case FetchFailed(message) =>
          error := Some(ToString(Or(message, Str(FetchFailedMessage))));
      }
      loading := false;
    }

    /** The `doctor-is-live` handler. */
    method OnDoctorIsLive(roomId: string)
      modifies this`live
      ensures live == old(live)[roomId := true]
      ensures IsLive(live, roomId)
      ensures forall r :: r != roomId ==> (IsLive(live, r) <==> IsLive(old(live), r))
    {
      live := live[roomId := true];
    }

    /** `handleJoinRoom`: a doctor announces the room; everyone opens it. */
    method HandleJoinRoom(user: AuthUser, appointmentId: string)
      modifies this`emitted, this`navigations
      ensures emitted == old(emitted) + (if user.role == "doctor" then [DoctorLive(appointmentId)] else [])
      ensures navigations == old(navigations) + ["/room/" + appointmentId]
    {
      if user.role == "doctor" {
        emitted := emitted + [DoctorLive(appointmentId)];
      }
      navigations := navigations + ["/room/" + appointmentId];
    }
  }
}
