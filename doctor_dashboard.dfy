/** The figures and the QR handling of the doctor's dashboard. */
module DoctorDashboard {
  import opened Wrappers
  import opened Js
  import opened Text
  import opened Seqs
  import opened Clinic

  /** The four cards at the top of the dashboard. */
  datatype Stats = Stats(todayAppointments: nat, totalPatients: nat, pendingReports: nat, recoveryRate: nat)

  /** The statistics before the first fetch completes. */
  const InitialStats := Stats(0, 0, 0, 0)

  function WithStatus(appts: seq<Appointment>, status: string): seq<Appointment> {
    Filter(appts, (a: Appointment) => a.status == status)
  }

  /** The distinct patient ids of the list. */
  function PatientIds(appts: seq<Appointment>): set<string> {
    set a | a in appts :: a.patientId
  }

  /** `[...new Set(appts.map(a => a.patientId))].length` is at most the
      length of the list, and 0 only for an empty list. */
  lemma {:induction false} PatientIdsCardinality(appts: seq<Appointment>)
    ensures |PatientIds(appts)| <= |appts|
    ensures |PatientIds(appts)| == 0 <==> |appts| == 0
    decreases |appts|
  {
    if appts != [] {
      PatientIdsCardinality(appts[1..]);
      assert PatientIds(appts) == PatientIds(appts[1..]) + {appts[0].patientId} by {
        forall y | y in PatientIds(appts) ensures y in PatientIds(appts[1..]) + {appts[0].patientId} {
          var a :| a in appts && a.patientId == y;
          if a != appts[0] {
            var i :| 0 <= i < |appts| && appts[i] == a;
            assert appts[1..][i - 1] == a;
          }
        }
      }
      assert appts[0].patientId in PatientIds(appts);
    }
  }

  /** `Math.round(completed / total * 100)` for a non-empty list and 0
      otherwise, computed exactly: rounding to the nearest integer, halves up. */
  function RoundedPercent(completed: nat, total: nat): (r: nat)
    ensures total == 0 ==> r == 0
    ensures total > 0 ==> 2 * total * r <= 200 * completed + total < 2 * total * (r + 1)
    ensures completed <= total ==> r <= 100
  {
    if total == 0 then 0
    else
      var q := 2 * total;
      var n := 200 * completed + total;
      DivBounds(n, q);
      assert completed <= total ==> n / q <= 100 by {
        if completed <= total {
          assert n < q * 101;
          DivBelow(n, q, 101);
        }
      }
      n / q
  }

  /** Euclidean division brackets its dividend between consecutive multiples. */
  lemma DivBounds(n: nat, q: nat)
    requires q > 0
    ensures q * (n / q) <= n < q * (n / q) + q
  {
  }

  /** A dividend below `q * k` has a quotient below `k`. */
  lemma DivBelow(n: nat, q: nat, k: nat)
    requires q > 0 && n < q * k
    ensures n / q < k
  {
    DivBounds(n, q);
    var d := n / q;
    assert q * d < q * k;
    assert q * (k - d) == q * k - q * d;
  }

  /** The statistics that `fetchAppointments` derives from the fetched list,
      `nowIso` being the current time as an ISO timestamp. */
  function ComputeStats(appts: seq<Appointment>, nowIso: string): (r: Stats)
    ensures r.todayAppointments == |TodaysAppointments(appts, nowIso)| <= |appts|
    ensures r.totalPatients == |PatientIds(appts)| <= |appts|
    ensures r.totalPatients == 0 <==> |appts| == 0
    ensures r.pendingReports == |WithStatus(appts, "pending")|
    ensures r.pendingReports + |WithStatus(appts, "completed")| <= |appts|
    ensures r.recoveryRate == RoundedPercent(|WithStatus(appts, "completed")|, |appts|)
    ensures r.recoveryRate <= 100
    ensures |appts| == 0 ==> r == InitialStats
  {
    PatientIdsCardinality(appts);
    FilterDisjointLength(appts, (a: Appointment) => a.status == "pending",
                                (a: Appointment) => a.status == "completed");
    var completed := |WithStatus(appts, "completed")|;
    Stats(|TodaysAppointments(appts, nowIso)|, |PatientIds(appts)|,
          |WithStatus(appts, "pending")|, RoundedPercent(completed, |appts|))
  }

  /** A pending appointment exists exactly when the list has some; it is
      counted by the pending card. */
  lemma PendingCountPositive(appts: seq<Appointment>)
    ensures |WithStatus(appts, "pending")| > 0 <==> exists i :: 0 <= i < |appts| && appts[i].status == "pending"
  {
    var p := (a: Appointment) => a.status == "pending";
    if i :| 0 <= i < |appts| && appts[i].status == "pending" {
      assert appts[i] in WithStatus(appts, "pending");
    }
    if |WithStatus(appts, "pending")| > 0 {
      var a := WithStatus(appts, "pending")[0];
      assert a in appts;
      var i :| 0 <= i < |appts| && appts[i] == a;
    }
  }

  /** The label under the pending card. */
  function PendingLabel(pending: nat): string {
    if pending > 0 then "Needs attention" else "All clear"
  }

  /** The label under the completion-rate card. */
  function RateLabel(rate: nat): string {
    if rate > 75 then "Excellent" else "Needs improvement"
  }

  /** "Needs attention" shows exactly when some appointment is pending. */
  lemma NeedsAttentionIffPending(appts: seq<Appointment>, nowIso: string)
    ensures PendingLabel(ComputeStats(appts, nowIso).pendingReports) == "Needs attention"
        <==> exists i :: 0 <= i < |appts| && appts[i].status == "pending"
  {
    PendingCountPositive(appts);
  }

  lemma MulMonotone(a: nat, b: int, c: int)
    requires b <= c
    ensures a * b <= a * c
  {
    assert a * c - a * b == a * (c - b);
  }

  /** A rounded share is above 75 exactly when the exact share is at least 75.5%. */
  lemma RoundedAbove75(completed: nat, total: nat)
    requires total > 0
    ensures RoundedPercent(completed, total) > 75 <==> 200 * completed >= 151 * total
  {
    var r := RoundedPercent(completed, total);
    var q := 2 * total;
    assert q * r <= 200 * completed + total < q * (r + 1);
    if r > 75 {
      MulMonotone(q, 76, r);
      assert q * 76 == 152 * total;
    } else {
      MulMonotone(q, r + 1, 76);
      assert q * 76 == 152 * total;
    }
  }

  /** "Excellent" shows exactly when the completed share reaches 75.5%, the
      smallest share that rounds to 76. */
  lemma ExcellentIffRateAbove75(appts: seq<Appointment>, nowIso: string)
    ensures RateLabel(ComputeStats(appts, nowIso).recoveryRate) == "Excellent"
        <==> |appts| > 0 && 200 * |WithStatus(appts, "completed")| >= 151 * |appts|
  {
    if |appts| > 0 {
      RoundedAbove75(|WithStatus(appts, "completed")|, |appts|);
    }
  }

  /** `decodedText.split("/patient/")[1]?.split("/")[0] || decodedText`, as
      the handler writes it. */
  function QrPatientIdAsWritten(decodedText: string): string {
    var pieces := Split(decodedText, "/patient/");
    var segment := if |pieces| > 1 then Str(Split(pieces[1], "/")[0]) else Undefined;
    ToString(Or(segment, Str(decodedText)))
  }

  const PatientMarker := "/patient/"

  /** The patient id a scanned QR text stands for: the text after the first
      "/patient/" up to the next '/', or the whole text when the marker is
      absent or that segment is empty. */
  function QrPatientId(decodedText: string): (r: string)
    ensures IndexOf(decodedText, PatientMarker).None? ==> r == decodedText
    ensures IndexOf(decodedText, PatientMarker).Some? ==>
      var rest := decodedText[IndexOf(decodedText, PatientMarker).value + 9..];
      r == (if BeforeChar(rest, '/') == "" then decodedText else BeforeChar(rest, '/'))
  {
    match IndexOf(decodedText, PatientMarker)
    case None => decodedText
    case Some(i) =>
      var segment := BeforeChar(decodedText[i + |PatientMarker|..], '/');
      if segment == "" then decodedText else segment
  }

  /** Up to its first '/', the piece that follows a "/patient/" reads the same
      as all the text that follows it: a later marker starts with '/'. */
  lemma PieceUpToSlash(rest: string)
    ensures BeforeChar(Split(rest, PatientMarker)[0], '/') == BeforeChar(rest, '/')
  {
    SplitFirst(rest, PatientMarker);
    match IndexOf(rest, PatientMarker)
    case None =>
    case Some(j) =>
      assert rest[j..j + 9] == PatientMarker;
      assert rest[j] == '/';
      BeforeCharOfPrefix(rest, '/', j);
  }

  /** The split chain of the source computes exactly that id. */
  lemma QrPatientIdSplitChain(decodedText: string)
    ensures QrPatientIdAsWritten(decodedText) == QrPatientId(decodedText)
  {
    SplitSecond(decodedText, PatientMarker);
    var pieces := Split(decodedText, PatientMarker);
    var found := IndexOf(decodedText, PatientMarker);
    if found.Some? {
      var rest := decodedText[found.value + 9..];
      assert pieces[1] == Split(rest, PatientMarker)[0];
      PieceUpToSlash(rest);
      assert Split(pieces[1], "/")[0] == BeforeChar(pieces[1], '/');
    } else {
      SplitFirst(decodedText, PatientMarker);
    }
  }

  /** The scanner's outcome, as the scan request resolves. */
  datatype ScanReply =
    | Found(patient: string)
    | NotFound
    | ScanFailed(message: JsString)

  /** What `handleScanSuccess` does after posting the id. */
  datatype ScanEffect =
    | OpenPatient(path: string, patient: string, doctorId: JsString, secretCode: string)
    | ScanAlert(message: string)
    | Nothing

  /** The whole scan step: the posted id, its effect, and the scanner flag. */
  /** `shownPatient` is the value `setPatient` stores, `None` when the state is left alone. */
  datatype ScanOutcome = ScanOutcome(qrData: string, shownPatient: Option<string>, effect: ScanEffect, startScan: bool)

  /** `handleScanSuccess`: post the id, open the update page for a found
      patient, alert on a failure, and switch the scanner off in every case. */
  function HandleScan(decodedText: string, reply: ScanReply, doctorId: JsString, secretCode: string): (r: ScanOutcome)
    ensures r.qrData == QrPatientId(decodedText)
    ensures !r.startScan
    ensures reply.Found? <==> r.effect.OpenPatient?
    ensures r.shownPatient == (if reply.Found? then Some(reply.patient) else None)
    ensures reply.Found? ==>
      r.effect == OpenPatient("/updatePatientData", reply.patient, doctorId, secretCode)
    ensures reply.ScanFailed? ==>
      r.effect == ScanAlert(if Truthy(reply.message) then reply.message.s else "Scan failed")
    ensures reply.NotFound? ==> r.effect == Nothing
  {
    QrPatientIdSplitChain(decodedText);
    var effect := match reply
      case Found(p) => OpenPatient("/updatePatientData", p, doctorId, secretCode)
      case NotFound => Nothing
      case ScanFailed(m) => ScanAlert(ToString(Or(m, Str("Scan failed"))));
    ScanOutcome(QrPatientIdAsWritten(decodedText), if reply.Found? then Some(reply.patient) else None, effect, false)
  }

  /** `startScanning`: the button toggles the scanner. */
  function StartScanning(startScan: bool): (r: bool)
    ensures r != startScan
  {
    !startScan
  }
}
