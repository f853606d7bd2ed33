/**
 * The client's access to the service (`certificateAPI` in services/api.ts):
 * the reply of a request is a parameter, either the JSON body or what axios
 * threw; the functions say what each call resolves to or throws.
 */
module Api {
  import opened Wrappers
  import opened Types

  /** One field of a multipart form. */
  datatype FormField = FormField(name: string, file: File)

  const FileField := "file"

  /** The form `verifyWithPython` posts: the file under the single field `file`. */
  function UploadForm(file: File): (form: seq<FormField>)
    ensures |form| == 1 && form[0].name == FileField && form[0].file == file
  {
    [FormField(FileField, file)]
  }

  /** `error.response` of an axios error: its status and the `detail` of its JSON body, if any. */
  datatype ErrorResponse = ErrorResponse(status: int, detail: Option<string>)

  /** A thrown value: an `Error` with its message, or anything else. */
  datatype Thrown = ErrorValue(message: string) | OtherValue

  /** Why a request failed: an axios error (code, response, message) or something else thrown. */
  datatype Failure =
    | AxiosError(code: Option<string>, response: Option<ErrorResponse>, message: string)
    | NotAxios(thrown: Thrown)

  /** The settlement of an axios request: the reply body, or the failure. */
  datatype Transport<T> = Delivered(data: T) | Failed(failure: Failure)

  /** The settlement of a promise the client code returns. */
  datatype Outcome<T> = Resolved(value: T) | Rejected(thrown: Thrown)

  const ConnectionRefused := "ECONNREFUSED"
  const ServiceDown :=
    "Python verification service is not running. Please start the backend server with: cd python_backend && python start_server.py"
  const InternalError := "Internal server error in Python backend"
  const ServiceErrorPrefix := "Verification service error: "

  /** `error.response?.data?.detail` where JavaScript takes it as true: present and not empty. */
  function Detail(response: Option<ErrorResponse>): (d: Option<string>)
    ensures d.Some? <==> response.Some? && response.value.detail.Some? && response.value.detail.value != ""
    ensures d.Some? ==> d == response.value.detail
  {
    if response.Some? && response.value.detail.Some? && response.value.detail.value != "" then response.value.detail
    else None
  }

  /**
   * The message of the `Error` thrown for an axios failure: a refused
   * connection comes first, whatever the response; then a truthy `detail`;
   * then a fallback that depends on whether the status is 500.
   */
  function AxiosMessage(code: Option<string>, response: Option<ErrorResponse>, message: string): (m: string)
    ensures code == Some(ConnectionRefused) ==> m == ServiceDown
    ensures code != Some(ConnectionRefused) && Detail(response).Some? ==> m == Detail(response).value
    ensures code != Some(ConnectionRefused) && Detail(response).None? ==>
      if response.Some? && response.value.status == 500 then m == InternalError
      else m == ServiceErrorPrefix + message
    ensures m != ""
  {
    if code == Some(ConnectionRefused) then ServiceDown
    else if response.Some? && response.value.status == 500 then Detail(response).GetOr(InternalError)
    else Detail(response).GetOr(ServiceErrorPrefix + message)
  }

  /** What the `catch` throws: a new `Error` for an axios failure, anything else unchanged. */
  function Classify(f: Failure): (t: Thrown)
    ensures f.NotAxios? ==> t == f.thrown
    ensures f.AxiosError? ==> t.ErrorValue? && t.message == AxiosMessage(f.code, f.response, f.message)
  {
    match f
    case AxiosError(code, response, message) => ErrorValue(AxiosMessage(code, response, message))
    case NotAxios(thrown) => thrown
  }

  /** The service reply rebuilt from a client result and the `extracted_data` it lacks. */
  function FromClient(r: VerificationResult, extracted: ExtractedData): PythonVerificationResult {
    PythonVerificationResult(r.isValid, r.confidence, r.flags, r.matchedFields, r.discrepancies,
      r.institutionVerified, extracted, r.timestamp)
  }

  /**
   * The mapping of a successful reply: seven fields carried over under their
   * camel-case names, nothing lost but `extracted_data`, which is dropped.
   */
  function ToClient(p: PythonVerificationResult): (r: VerificationResult)
    ensures r.extractedData == None
    ensures FromClient(r, p.extractedData) == p
  {
    VerificationResult(p.isValid, p.confidence, p.flags, p.matchedFields, p.discrepancies,
      p.institutionVerified, p.timestamp, None)
  }

  /** The converse round trip: a client result without extracted data is what its reply maps to. */
  lemma ClientRoundTrip(r: VerificationResult, extracted: ExtractedData)
    requires r.extractedData == None
    ensures ToClient(FromClient(r, extracted)) == r
  {
    var p := FromClient(r, extracted);
    assert ToClient(p).extractedData == None;
  }

  /** `verifyWithPython`: the mapped reply, or the classified failure. */
  function VerifyWithPython(reply: Transport<PythonVerificationResult>): (o: Outcome<VerificationResult>)
    ensures o.Resolved? <==> reply.Delivered?
    ensures o.Resolved? ==> o.value == ToClient(reply.data) && o.value.extractedData == None
    ensures o.Rejected? ==> o.thrown == Classify(reply.failure)
  {
    match reply
    case Delivered(data) => Resolved(ToClient(data))
    case Failed(failure) => Rejected(Classify(failure))
  }

  /** `checkHealth`: true exactly when GET /health settles with a reply; it never throws. */
  function CheckHealth(reply: Transport<HealthBody>): (online: bool)
    ensures online <==> reply.Delivered?
  {
    reply.Delivered?
  }

  /** `getVerifiedInstitutions`: the reply's list, or the empty list on any failure; it never throws. */
  function GetVerifiedInstitutions(reply: Transport<InstitutionsBody>): (names: seq<string>)
    ensures reply.Failed? ==> names == []
    ensures reply.Delivered? ==> names == reply.data.institutions
  {
    match reply
    case Delivered(body) => body.institutions
    case Failed(_) => []
  }
}
