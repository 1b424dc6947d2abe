# Ethiopian Clinical System front end — a Dafny model

This project models the rules inside the React front end of a clinic system, and proves properties of that model. Doctors and patients sign in there. Patients see their appointments and medical records and talk to an AI nurse. Doctors keep a daily plan, scan a patient's QR code and update the patient's data.

The model covers:

- **Session.** The session lives in the browser's `localStorage`. It is modelled as a class over a `map<string, string>` (module `Storage`).
- **Login and logout.** `loginUser` and the auth context's `login`, `logout` and restore read and write that store (modules `AuthService` and `AuthContext`).
- **Navigation bar.** The menu is chosen from the role (modules `Navbar`).
- **Daily plan.** The task list and its 32-hour stored copy (module `DailyPlan`).
- **Doctor dashboard.** The statistic cards and the reduction of a scanned QR text to a patient id (module `DoctorDashboard`).
- **Appointments page.** The fetch, the per-appointment `join-room` emission, the "doctor is live" flags and the join button (module `Appointments`).
- **Smaller pages.**
  - medical-record normalisation (module `MedicalRecord`);
  - the patient profile's today filter, badge, upload guard and render order (module `PatientProfile`);
  - the Ms. Nurse chat log (module `MsNurseChat`);
  - the update-patient page's secret-code fallback and request plan (module `UpdatePatient`);
  - the registration form (module `Register`).

Shared modules:

- `Js` models the JavaScript values the code branches on: `undefined`, `null` and strings. It also models truthiness, `||` and `String(...)`.
- `Text` models `trim` (with the ECMAScript whitespace set), ASCII case mapping, `indexOf` and `split`.
- `Seqs` models `Array.prototype.filter`.
- `Clinic` holds the appointment record, the socket events and the shared "is today" test.

How state is modelled:

- Component state that the source updates in place is a class with `modifies` clauses.
- Server replies, `JSON.parse`, the clock and `Date.now()` are parameters.
- `navigate`, `alert` and `socket.emit` are appended to log fields (`navigations`, `alerts`, `effects`, `emitted`, `requests`).

## Model

| member | source | states |
|---|---|---|
| `Clinic.DatePrefix` | frontClinical/src/pages/DoctorDashboard.jsx:48-50 | `split("T")[0]` is the longest prefix of the date without a 'T'; when shorter than the date, a 'T' follows it |
| `Clinic.TodaysAppointments` | frontClinical/src/pages/DoctorDashboard.jsx:49-51 | an appointment is kept exactly when it is in the list and its date prefix equals today's; the result is never longer than the list |
| `Clinic.TodaysAppointmentsConcat` | frontClinical/src/pages/PatientProfile.jsx:276-281 | the today filter keeps list order: a concatenation filters to the concatenation of the filtered parts |
| `DailyPlan.WithAddedTask` | frontClinical/src/pages/Dailyplan.jsx:52 | adding gives one more task, at the end, `{id, task}` with the untrimmed text; earlier tasks are unchanged |
| `DailyPlan.WithoutTask` | frontClinical/src/pages/Dailyplan.jsx:59 | delete keeps exactly the tasks whose id differs; no task with the id survives |
| `DailyPlan.DeleteKeepsOrder` | frontClinical/src/pages/Dailyplan.jsx:59 | delete keeps the survivors' order (distributes over concatenation), is idempotent, and leaves a list without the id unchanged |
| `DailyPlan.WithEditedTask` | frontClinical/src/pages/Dailyplan.jsx:70-72 | saving an edit keeps the length and every id; exactly the tasks with the id get the new text, the others keep theirs |
| `DailyPlan.SavedPlanRestored` | frontClinical/src/pages/Dailyplan.jsx:26-47 | a list saved at time t is restored by a load at time now exactly when it is non-empty and now − t < 32 h (115 200 000 ms) |
| `DailyPlan.DailyPlanPage.constructor` | frontClinical/src/pages/Dailyplan.jsx:16-19 | the page starts with no tasks, empty inputs and no task being edited |
| `DailyPlan.DailyPlanPage.Load` | frontClinical/src/pages/Dailyplan.jsx:25-39 | a non-empty stored list whose expiration is later than now becomes the list; otherwise both keys are removed and the list stays as it was |
| `DailyPlan.DailyPlanPage.SaveTasks` | frontClinical/src/pages/Dailyplan.jsx:42-48 | the list becomes the state and is stored with an expiration of now + 32 hours |
| `DailyPlan.DailyPlanPage.SetNewTask` | frontClinical/src/pages/Dailyplan.jsx:112 | the task input takes the typed text |
| `DailyPlan.DailyPlanPage.AddTask` | frontClinical/src/pages/Dailyplan.jsx:50-56 | a blank input changes nothing; otherwise the task is appended and saved and the input is cleared |
| `DailyPlan.DailyPlanPage.DeleteTask` | frontClinical/src/pages/Dailyplan.jsx:58-61 | the list becomes `WithoutTask` of the old list and is saved |
| `DailyPlan.DailyPlanPage.EditTask` | frontClinical/src/pages/Dailyplan.jsx:63-66 | editing starts on the task's id with its current text |
| `DailyPlan.DailyPlanPage.SetEditedText` | frontClinical/src/pages/Dailyplan.jsx:154 | the edit input takes the typed text |
| `DailyPlan.DailyPlanPage.SaveEdit` | frontClinical/src/pages/Dailyplan.jsx:68-77 | a blank edit leaves the list and store alone, a non-blank one saves `WithEditedTask`; either way editing ends with an empty text |
| `DailyPlan.DailyPlanPage.CancelEdit` | frontClinical/src/pages/Dailyplan.jsx:79-82 | editing ends with an empty text |
| `DoctorDashboard.PatientIdsCardinality` | frontClinical/src/pages/DoctorDashboard.jsx:52-54 | the number of distinct patient ids is at most the list's length, and 0 exactly for an empty list |
| `DoctorDashboard.RoundedPercent` | frontClinical/src/pages/DoctorDashboard.jsx:61-64 | the rate is 0 for no appointments, otherwise the integer nearest to 100·completed/total (halves up), and at most 100 |
| `DoctorDashboard.ComputeStats` | frontClinical/src/pages/DoctorDashboard.jsx:45-71 | today's count is the size of the today filter; patients are the distinct ids (≤ length, 0 iff empty); pending counts "pending", and pending + completed ≤ length; the rate is the rounded completed share, ≤ 100 |
| `DoctorDashboard.PendingCountPositive` | frontClinical/src/pages/DoctorDashboard.jsx:55-57 | the pending count is positive exactly when some appointment has status "pending" |
| `DoctorDashboard.NeedsAttentionIffPending` | frontClinical/src/pages/DoctorDashboard.jsx:349 | "Needs attention" shows exactly when some appointment is pending, else "All clear" |
| `DoctorDashboard.RoundedAbove75` | frontClinical/src/pages/DoctorDashboard.jsx:61-64 | the rounded rate exceeds 75 exactly when 200·completed ≥ 151·total |
| `DoctorDashboard.ExcellentIffRateAbove75` | frontClinical/src/pages/DoctorDashboard.jsx:360 | "Excellent" shows exactly when the list is non-empty and at least 75.5% of it is completed |
| `DoctorDashboard.QrPatientId` | frontClinical/src/pages/DoctorDashboard.jsx:208-209 | the id is the text after the first "/patient/" up to the next '/'; without the marker, or when that segment is empty, it is the whole text |
| `DoctorDashboard.QrPatientIdSplitChain` | frontClinical/src/pages/DoctorDashboard.jsx:208-209 | the source's chain of `split` calls with its fallback to the whole text computes exactly `QrPatientId` |
| `DoctorDashboard.HandleScan` | frontClinical/src/pages/DoctorDashboard.jsx:206-234 | the posted id is `QrPatientId`; a found patient is stored as the dashboard's patient and opens the update page with the patient, doctor id and secret code; otherwise the stored patient is left alone; a failure alerts with the server message or "Scan failed"; scanning is off afterwards in every case |
| `DoctorDashboard.StartScanning` | frontClinical/src/pages/DoctorDashboard.jsx:236-238 | the button flips the scanner flag |
| `Appointments.JoinRoomAsWritten` | frontClinical/src/pages/Appointments.jsx:46-50 | the payload as written: the appointment's id as room, the user's role, and a `userId` that is `undefined` |
| `Appointments.JoinRoomFor` | frontClinical/src/pages/Appointments.jsx:46-50 | the corrected payload: the appointment's id as room, the user's id and the user's role |
| `Appointments.JoinRoomEvents` | frontClinical/src/pages/Appointments.jsx:45-51 | one payload per fetched appointment, in list order |
| `Appointments.AsWrittenEventsLoseUserId` | frontClinical/src/pages/Appointments.jsx:45-51 | no `join-room` the page emits carries the signed-in user's id; each carries the user's role and its appointment's room, in order |
| `Appointments.CorrectedEventsCarryUserId` | frontClinical/src/pages/Appointments.jsx:45-51 | with the corrected payload every `join-room` carries the user's id and role, and its appointment's room, in order |
| `Appointments.JoinRoomEmissions` | frontClinical/src/pages/Appointments.jsx:45-51 | the `forEach` loop emits exactly `JoinRoomEvents` for the given payload: one event per fetched appointment, in list order |
| `Appointments.LiveAfterEvents` | frontClinical/src/pages/Appointments.jsx:63-65 | after a series of `doctor-is-live` events, a room is live exactly when it was live before or some event named it; flags never revert |
| `Appointments.JoinButtonConsistent` | frontClinical/src/pages/Appointments.jsx:185-200 | the button is disabled exactly for a patient while the room is not live; a doctor sees "Start Live"; any other role sees "Join Live" on a live room and "Waiting for Doctor" otherwise, so for a patient the label says "Waiting" exactly when the button is disabled |
| `Appointments.StatusText` | frontClinical/src/pages/Appointments.jsx:160-161 | same length; the first character is upper-cased and the rest is unchanged |
| `Appointments.AppointmentsPage.constructor` | frontClinical/src/pages/Appointments.jsx:14-18 | the page starts loading, with no appointments, no error and no live rooms |
| `Appointments.AppointmentsPage.FetchAppointments` | frontClinical/src/pages/Appointments.jsx:29-57 | with no user, the authentication error is set and nothing is requested; otherwise the role's endpoint is asked, a reply's list (or []) is stored and the as-written `join-room` payloads are emitted, one per entry in order, a failure sets the server message or "Failed to fetch appointments"; loading ends in every case |
| `Appointments.AppointmentsPage.OnDoctorIsLive` | frontClinical/src/pages/Appointments.jsx:63-65 | the event's room becomes live and every other room keeps its flag |
| `Appointments.AppointmentsPage.HandleJoinRoom` | frontClinical/src/pages/Appointments.jsx:21-26 | a doctor emits `doctor-live` for the room, a patient emits nothing; both navigate to `/room/<id>` |
| `Navbar.EffectiveRole` | frontClinical/src/components/Navbar.jsx:50 | the auth user's non-empty role takes precedence over the stored one |
| `Navbar.EffectiveUserId` | frontClinical/src/components/Navbar.jsx:51 | the auth user's non-empty id takes precedence over the stored one |
| `Navbar.NavItems` | frontClinical/src/components/Navbar.jsx:55-100 | no role: Login, Register; a role trimming and lower-casing to "patient": Home, Appointments, Medical Record (`/medical-record/` + id or ""), Logout; "doctor": Home, Appointments, Daily plan, Logout at `/logout`; any other role: nothing |
| `Navbar.BlankRoleHasNoMenu` | frontClinical/src/components/Navbar.jsx:55-96 | a non-empty role of only whitespace selects the empty menu |
| `Navbar.PaddedRoleSameMenu` | frontClinical/src/components/Navbar.jsx:56-76 | spaces around a role do not change the menu |
| `Navbar.RoleCaseInsensitive` | frontClinical/src/components/Navbar.jsx:56-76 | for any role, lower-casing it first selects the same menu: the match ignores ASCII case |
| `Navbar.PatientRoleCaseInsensitive` | frontClinical/src/components/Navbar.jsx:56 | "Patient" selects the patient menu |
| `Navbar.PaddedPatientRole` | frontClinical/src/components/Navbar.jsx:56 | " Patient " selects the patient menu |
| `Navbar.OneActiveItem` | frontClinical/src/components/Navbar.jsx:17 | for any role, user id and path, at most one item of the menu shown is highlighted |
| `Navbar.NavbarState.constructor` | frontClinical/src/components/Navbar.jsx:36 | the mobile menu starts closed |
| `Navbar.NavbarState.Items` | frontClinical/src/components/Navbar.jsx:50-100 | a signed-in user's role and id choose the menu; without one, the stored role and id do |
| `Navbar.NavbarState.ToggleMobileMenu` | frontClinical/src/components/Navbar.jsx:40-42 | the mobile menu flag flips |
| `Navbar.NavbarState.LogOut` | frontClinical/src/components/Navbar.jsx:44-47 | the whole store is emptied, so no session can be restored, and the bar goes to `/login` |
| `AuthContext.RestoredUser` | frontClinical/src/context/AuthContext.jsx:13-19 | a user is restored exactly when `token`, `role` and `userId` are all stored and non-empty, and it is those three values |
| `AuthContext.LoginStore` | frontClinical/src/context/AuthContext.jsx:37-40 | login writes exactly `token`, `role` and `userId` and keeps every other key; without `user` only the token is written |
| `AuthContext.LoginNavigation` | frontClinical/src/context/AuthContext.jsx:49-53 | a doctor goes to `/doctor/<secretCode>`, a patient to `/patient/user/<id>`, any other role nowhere |
| `AuthContext.LogoutStore` | frontClinical/src/context/AuthContext.jsx:61-63 | logout removes exactly the three session keys and keeps every other key and value |
| `AuthContext.LoginThenRestore` | frontClinical/src/context/AuthContext.jsx:13-40 | a restore after login yields the logged-in user exactly when token, role and id are non-empty strings |
| `AuthContext.LogoutIdempotent` | frontClinical/src/context/AuthContext.jsx:59-66 | a second logout changes nothing, and nothing is restored after a logout |
| `AuthContext.AuthProvider.constructor` | frontClinical/src/context/AuthContext.jsx:7-8 | the provider starts with no user, loading |
| `AuthContext.AuthProvider.RendersChildren` | frontClinical/src/context/AuthContext.jsx:73 | children render exactly when loading is over |
| `AuthContext.AuthProvider.Restore` | frontClinical/src/context/AuthContext.jsx:11-26 | the user becomes `RestoredUser` of the store when there is one (none when reading throws), and loading ends in every case |
| `AuthContext.AuthProvider.Login` | frontClinical/src/context/AuthContext.jsx:28-57 | the store becomes `LoginStore`, the user the logged-in triple, and the navigation `LoginNavigation` |
| `AuthContext.AuthProvider.Logout` | frontClinical/src/context/AuthContext.jsx:59-69 | the store becomes `LogoutStore`, the user null, and the page goes to `/login` |
| `AuthService.LoginUserStore` | frontClinical/src/services/authService.js:29-39 | login stores `token`, `role`, `userId`, plus `doctorId` and `secretCode` for a doctor or `patientId` for a patient; every other key is kept |
| `AuthService.RoleSpecificKeys` | frontClinical/src/services/authService.js:34-39 | a doctor's login never writes `patientId`, a patient's never `doctorId` or `secretCode`, any other role only the three common keys |
| `AuthService.LoginUser` | frontClinical/src/services/authService.js:19-46 | a failed request writes nothing and rejects; a reply without `user` writes only the token and rejects; otherwise the store becomes `LoginUserStore` and `response.data` is returned unchanged |
| `MedicalRecord.NormaliseRecord` | frontClinical/src/pages/MedicalRecord.jsx:28-40 | an empty or missing record gives []; a record parsing to an array gives its items, to anything else a one-element list; a parse failure gives the raw text as the one entry |
| `MedicalRecord.NonEmptyRecordHasEntries` | frontClinical/src/pages/MedicalRecord.jsx:29-39 | a non-empty record yields at least one entry unless it parses to an empty array |
| `MedicalRecord.FetchMedicalRecord` | frontClinical/src/pages/MedicalRecord.jsx:18-50 | a reply stores the normalised records and the patient; a failure sets the server message or "Failed to fetch medical record"; loading ends in every case |
| `PatientProfile.AppointmentsCardFor` | frontClinical/src/pages/PatientProfile.jsx:274-336 | "No appointments found for today" shows exactly for an empty fetched list; otherwise the card lists the today filter |
| `PatientProfile.NothingTodayRendersEmptyList` | frontClinical/src/pages/PatientProfile.jsx:274-281 | a non-empty list with nothing today renders an empty list, not the message |
| `PatientProfile.BadgeColourFor` | frontClinical/src/pages/PatientProfile.jsx:303-309 | green exactly for "completed", red exactly for "cancelled", blue for everything else |
| `PatientProfile.UploadPath` | frontClinical/src/pages/PatientProfile.jsx:27-48 | nothing is uploaded without a file, a patient or its `User`; otherwise the image goes to the stored user id's upload endpoint |
| `PatientProfile.NotificationFor` | frontClinical/src/pages/PatientProfile.jsx:141-146 | `sendNotification` carries the given doctor id and the stored patient id |
| `PatientProfile.ScreenFor` | frontClinical/src/pages/PatientProfile.jsx:102-138 | loading wins, then an error, then a missing patient; the profile shows exactly when none of those holds |
| `MsNurseChat.AiText` | frontClinical/src/pages/MsNurseChat.jsx:31-43 | the AI entry is the reply when present, else "Sorry, no response from AI."; on a failure "Error connecting to server." |
| `MsNurseChat.SendAppendsOnly` | frontClinical/src/pages/MsNurseChat.jsx:16-45 | a send keeps the old log as a prefix; a blank message adds nothing, any other adds the untrimmed user entry followed by exactly one AI entry |
| `MsNurseChat.SendKeepsPairs` | frontClinical/src/pages/MsNurseChat.jsx:19-43 | a send keeps the log a sequence of (user, AI) pairs |
| `MsNurseChat.SendsKeepPairs` | frontClinical/src/pages/MsNurseChat.jsx:16-45 | any series of sends keeps the log a sequence of (user, AI) pairs |
| `MsNurseChat.SendsKeepEntries` | frontClinical/src/pages/MsNurseChat.jsx:19-43 | any series of sends keeps every earlier entry in place: the log is append-only |
| `MsNurseChat.ShowsPlaceholder` | frontClinical/src/pages/MsNurseChat.jsx:67-71 | the placeholder shows exactly while the log is empty |
| `MsNurseChat.NurseChat.constructor` | frontClinical/src/pages/MsNurseChat.jsx:4-5 | the chat starts with an empty input and an empty log |
| `MsNurseChat.NurseChat.SetMessage` | frontClinical/src/pages/MsNurseChat.jsx:103 | the input takes the typed text |
| `MsNurseChat.NurseChat.SendMessage` | frontClinical/src/pages/MsNurseChat.jsx:16-45 | a blank input changes and sends nothing; otherwise the untrimmed text is posted, the input cleared, and the log becomes `AfterSend` |
| `MsNurseChat.NurseChat.HandleKeyDown` | frontClinical/src/pages/MsNurseChat.jsx:47-52 | Enter prevents the default and sends: the log becomes `AfterSend`; a blank input changes and posts nothing, any other input is posted untrimmed and cleared; any other key changes nothing |
| `UpdatePatient.DestructuredSecretCode` | frontClinical/src/pages/UpdatePatientData.jsx:10-15 | the destructuring default (the stored code) applies only when the state has no `secretCode` |
| `UpdatePatient.FinalSecretCodeFallback` | frontClinical/src/pages/UpdatePatientData.jsx:16-19 | the final code is the state's code when non-empty, else the stored code; it is non-empty exactly when one of them is |
| `UpdatePatient.GuardFor` | frontClinical/src/pages/UpdatePatientData.jsx:21-31 | no final code: the missing-identification alert; else no patient: redirect to `/doctor`; else the form |
| `UpdatePatient.FormNeedsPatientAndCode` | frontClinical/src/pages/UpdatePatientData.jsx:10-31 | the form shows exactly with a router state holding a patient and a non-empty code in the state or the store |
| `UpdatePatient.Initials` | frontClinical/src/pages/UpdatePatientData.jsx:105 | the avatar shows the first two characters of the name (fewer for a shorter name) |
| `UpdatePatient.RequestsSent` | frontClinical/src/pages/UpdatePatientData.jsx:50-75 | the medical-history PUT is always sent first; the availability POST follows exactly when a date was entered and the PUT succeeded |
| `UpdatePatient.UpdateEffectFor` | frontClinical/src/pages/UpdatePatientData.jsx:77-85 | the page navigates to `/doctor/<final code>` exactly when every sent request succeeded; otherwise it alerts the first failure's message |
| `UpdatePatient.UpdateForm.constructor` | frontClinical/src/pages/UpdatePatientData.jsx:34-38 | the form starts from the patient's history (or ""), an empty date, not submitting |
| `UpdatePatient.UpdateForm.SubmitLabel` | frontClinical/src/pages/UpdatePatientData.jsx:178-183 | the button reads "Saving..." while submitting and "Save Changes" otherwise |
| `UpdatePatient.UpdateForm.SetMedicalHistory` | frontClinical/src/pages/UpdatePatientData.jsx:146 | the history takes the typed text |
| `UpdatePatient.UpdateForm.SetAppointmentDate` | frontClinical/src/pages/UpdatePatientData.jsx:160 | the date takes the entered value |
| `UpdatePatient.UpdateForm.Send` | frontClinical/src/pages/UpdatePatientData.jsx:47-75 | a request is sent only while submitting |
| `UpdatePatient.UpdateForm.HandleUpdate` | frontClinical/src/pages/UpdatePatientData.jsx:45-89 | the requests are `RequestsSent` and the outcome `UpdateEffectFor`; submitting is over afterwards, whatever the outcome |
| `Register.InitialRegisterData` | frontClinical/src/pages/Register.jsx:11-19 | the record has the seven form fields, role "patient" and every other field empty |
| `Register.SubmittedPayload` | frontClinical/src/pages/Register.jsx:29-32 | the payload has the same fields; `name` becomes first name, a space and last name; all others, `lastName` included, are kept |
| `Register.DoctorFieldsFollowRole` | frontClinical/src/pages/Register.jsx:145-167 | the secret-code and specialization inputs are hidden on a new form, shown after choosing doctor, hidden after choosing patient |
| `Register.InitialPayloadName` | frontClinical/src/pages/Register.jsx:29-32 | submitting an untouched form sends a name of a single space |
| `Register.RegisterForm.constructor` | frontClinical/src/pages/Register.jsx:11-19 | the form starts from the initial record |
| `Register.RegisterForm.HandleChange` | frontClinical/src/pages/Register.jsx:21-24 | exactly the named field takes the new value; every other field is unchanged |
| `Register.RegisterForm.HandleSubmit` | frontClinical/src/pages/Register.jsx:26-41 | the payload `SubmittedPayload` is sent; on success `login` runs with the response data; on failure the alert shows and the session is untouched; the context's loading flag is unchanged |

## Left out

- Network and socket I/O (axios, `fetch`, socket.io). Each request is a reply parameter; each emission or navigation is appended to a log field. Concurrent and out-of-order replies are not modelled: each handler runs to completion with its reply.
- The chat's two log appends happen across an `await`. Other sends could interleave between them. `MsNurseChat.NurseChat.SendMessage` runs the whole send as one step.
- Dates and time zones. "Now" is a number of milliseconds, or an ISO timestamp string for the today tests.
  - `setHours(getHours() + 32)` is taken as exactly 32 × 3 600 000 ms; across a daylight-saving change the browser's value differs by an hour.
  - The ISO expiration text and its comparison are abstracted to integers.
- JSON (de)serialisation. `JSON.parse` is a function parameter of `MedicalRecord.NormaliseRecord`. The daily plan's stored JSON and ISO strings are typed slots rather than texts. A malformed stored plan (where `JSON.parse` throws inside the load effect) is not modelled.
- `Math.round` on floating point is modelled as exact rounding of the rational 100·completed/total, halves up. Floating-point error near a half is left out.
- Case mapping is ASCII only. `toLowerCase`/`toUpperCase` of other Unicode letters are not modelled. `charAt` counts code points, not UTF-16 units.
- Numeric ids. Task ids are integers. Appointment, user and patient ids are opaque strings, so number-to-string formatting is not modelled.
- Values of unexpected JavaScript types, such as a numeric server message or a non-string `reply`, are not modelled. Strings, `undefined` and `null` are.
- The Ms. Nurse chat endpoint's address and headers, the bearer-token headers, and the upload's `FormData` are not modelled.
- `PatientProfile.UploadPath` covers only the guard and the endpoint. The upload status messages and the refetch after an upload are not modelled.
- `PatientProfile.AppointmentsCardFor` takes the reply's `data` to be the appointment array itself, as frontClinical/src/pages/PatientProfile.jsx:85 reads it. frontClinical/src/pages/Appointments.jsx:41 reads `data.appointments` from the same request. The server is not part of this model, so which reading matches its reply is left open.
- The appointments page emits the as-written payload, `Appointments.JoinRoomAsWritten`. The corrected payload, `Appointments.JoinRoomFor`, is proved about beside it and used nowhere else.
- The effect that copies `patient.User.id` into the store is not modelled.
- The doctor record behind `doctor?.id` and the page's secret code are parameters of the scan handler; how the dashboard loads them is not modelled.
- `Navbar.NavbarState.LogOut` models only the store clear and the navigation. The rest of the link's click, such as the router following the link's own target, is library behaviour.
- Pages and files outside the rules above:
  - VideoRoom.jsx: WebRTC and socket callbacks;
  - QRScanner.jsx: camera library lifecycle;
  - appointmentService.js and patientService.js: thin request wrappers;
  - Home.jsx, Login.jsx and AppointmentBooking.jsx: fetch plumbing; Login's `handleChange` is Register's;
  - App.jsx: the router's route table;
  - Footer.jsx and About.jsx: static markup.
- JSX layout, CSS classes other than the badge colour, animations, `console` logging, and `Math.random` room ids.

## Findings

| source | as written | input that shows it | evidently intended | confidence | as-written member | corrected member |
|---|---|---|---|---|---|---|
| frontClinical/src/pages/Appointments.jsx:48 | the `join-room` payload reads `userId: user.id`, but the context's user is `{token, role, userId}` (frontClinical/src/context/AuthContext.jsx:18, 40), so the field is always `undefined` | any signed-in user with one fetched appointment | `userId: user.userId`, the signed-in user's id | not executed | `Appointments.AsWrittenEventsLoseUserId` | `Appointments.CorrectedEventsCarryUserId` |
