/** The medical-record page: the raw record text becomes a list of entries,
    and the fetch ends in a list or an error message. */
module MedicalRecord {
  import opened Wrappers
  import opened Js

  /** A JSON value, the result of `JSON.parse`. */
  datatype Json =
    | JNull
    | JBool(b: bool)
    | JNumber(n: int)
    | JString(s: string)
    | JArray(items: seq<Json>)
    | JObject(fields: map<string, Json>)

  /** `JSON.parse(text)` returns a value or throws a syntax error. */
  datatype ParseResult = Parsed(value: Json) | SyntaxError

  const FetchFailedMessage := "Failed to fetch medical record"

  /** The records list built from `response.data.medicalRecord`. */
  function NormaliseRecord(recordData: JsString, parse: string -> ParseResult): (r: seq<Json>)
    ensures !Truthy(recordData) ==> r == []
    ensures Truthy(recordData) && parse(recordData.s).Parsed? && parse(recordData.s).value.JArray? ==>
      r == parse(recordData.s).value.items
    ensures Truthy(recordData) && parse(recordData.s).Parsed? && !parse(recordData.s).value.JArray? ==>
      r == [parse(recordData.s).value]
    ensures Truthy(recordData) && parse(recordData.s).SyntaxError? ==> r == [JString(recordData.s)]
  {
    if !Truthy(recordData) then []
    else
      match parse(recordData.s)
      case SyntaxError => [JString(recordData.s)]
      case Parsed(v) => if v.JArray? then v.items else [v]
  }

  /** A non-empty record always yields at least one entry unless it parses
      to an empty array. */
  lemma NonEmptyRecordHasEntries(recordData: JsString, parse: string -> ParseResult)
    requires Truthy(recordData)
    requires parse(recordData.s) != Parsed(JArray([]))
    ensures |NormaliseRecord(recordData, parse)| >= 1
  {
  }

  /** How the record request settles. */
  datatype RecordReply =
    | RecordFetched(medicalRecord: JsString, patient: Option<Json>)
    | RecordFailed(message: JsString)

  /** The page state the fetch leaves: loading over, and either the records
      and patient or an error message. */
  datatype PageState = PageState(loading: bool, records: Option<seq<Json>>, patient: Option<Json>, error: Option<string>)

  /** `fetchMedicalRecord` from the initial state (loading, nothing else). */
  function FetchMedicalRecord(reply: RecordReply, parse: string -> ParseResult): (r: PageState)
    ensures !r.loading
    ensures reply.RecordFetched? ==>
      r.records == Some(NormaliseRecord(reply.medicalRecord, parse))
      && r.patient == reply.patient && r.error == None
    ensures reply.RecordFailed? ==>
      r.records == None && r.patient == None
      && r.error == Some(if Truthy(reply.message) then reply.message.s else FetchFailedMessage)
  {
    match reply
    case RecordFetched(data, patient) =>
      PageState(false, Some(NormaliseRecord(data, parse)), patient, None)
    case RecordFailed(message) =>
      PageState(false, None, None, Some(ToString(Or(message, Str(FetchFailedMessage)))))
  }
}
