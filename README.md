# Certificate verification: a Dafny model

This project models the certificate-verification core of the FakeDegree
authenticity validator. The system has two sides:

- **The Python service** (`python_backend/main.py`):
  - It turns an uploaded certificate image into text and reads the
    certificate's fields from it.
  - It scores the fields against a fixed table of verified institutions and
    a fixed table of verified certificates. The score starts from points for
    each matching stage, then gets a floor, a 10-point penalty per flag and a
    clamp to [0, 100]. A result is valid at 60 or more.
  - It serves the result from `/verify-certificate`, behind a content-type
    gate and an exception wrapper. It also serves `/health` and
    `/institutions`.
- **The React client**:
  - `services/api.ts` calls the service, maps the reply to the client's own
    result type and turns failures into error messages.
  - `CertificateUpload.tsx` is the upload panel. It drives a run through its
    progress stages.
  - `VerificationResults.tsx` is the result card: a three-tier status, its
    panels and the certificate details.
  - `App.tsx` holds the session state and routes the navigation tabs behind
    the authentication gate.
  - `LoginPage.tsx` is the sign-in form and its submit sequence.

## How the model is laid out

Each module follows one part of the program:

- **Wrappers**: `Option`.
- **Text**: Python and JavaScript string operations on `seq<char>`:
  - `in` / `includes`;
  - `lower`, `upper` and `title`;
  - `strip`, and the word count of `split()`.
- **Formats**: the three certificate-number patterns of the institution
  table, as start-anchored prefix matchers.
- **Scoring**: `verify_against_database`.
  - The function `Verify` is the rule as a specification: one stage value per
    block of the source, composed by `Combine`.
  - The method `VerifyAgainstDatabase` is the source's own loop-and-append
    procedure. It is proved equal to `Verify`.
  - The lemmas state the rule's promises about `Verify`.
- **Extraction**: the lowercase/strip/split-lines preparation of the text
  and the institution-line scan of `extract_certificate_data`.
- **Endpoint**:
  - the `/verify-certificate` gate and exception flow;
  - the serialisation of the result;
  - `/health` and `/institutions`.
- **Types**: the client's `VerificationResult` and the wire shape
  `PythonVerificationResult`.
- **Api**: `certificateAPI`.
- **Upload**: the upload panel as a class.
  - The fields are its React state.
  - Each `await` of a run becomes a suspended continuation in the field
    `run`.
  - The timer firing and the service replying are methods that resume the
    run.
- **Results**: the result card.
- **App**: the app as a class whose handlers change its fields, with
  `renderContent` as a pure routing function.
- **Login**: the login page as a class.
  - Its two delays are the states of the field `submission`.
  - `DelayEnded` resumes the submission.
- **Integration**: lemmas and methods that connect the two sides:
  - what the drop filter lets through against what the gate accepts;
  - what the panel shows for each kind of upload;
  - the login page calling into the app.

## Model

| member | source | states |
|---|---|---|
| Scoring.Verify | project/python_backend/main.py:280-408 | confidence lies in [0, 100]. At most two flags arise. `is_valid` holds exactly when confidence is at least 60, so the flag-count conjunct never decides. `institution_verified` holds iff the institution is present and some table name is a substring of its lower-cased form or the reverse. The certificate data and timestamp are returned unchanged. |
| Scoring.VerifyAgainstDatabase | project/python_backend/main.py:280-408 | The imperative procedure (append to lists, accumulate confidence, break out of loops) returns exactly `Verify`'s result. |
| Scoring.Gather | project/python_backend/main.py:282-392 | The lists, flags, exact-match flag and raw confidence the procedure accumulates equal the composed stage assessment `Assess`. |
| Scoring.FindInstitution | project/python_backend/main.py:289-296 | The institution loop finds a match iff some table name contains the key or is contained in it. |
| Scoring.InstitutionStep | project/python_backend/main.py:288-300 | The institution stage raises at most the "not found" flag and earns at most the "Institution" label. It adds a discrepancy iff it raises the flag, and then only the one "Unknown institution" entry naming the extracted institution. |
| Scoring.AssessInstitution | project/python_backend/main.py:288-300 | A verified institution earns the label and no flag of its own. An absent one earns neither. A present, unverified one yields exactly one "not found" flag, leading the list, and exactly one "Unknown institution" discrepancy, which leads the list; no later discrepancy is an unknown institution. A verified or absent institution leaves no such discrepancy at all. |
| Scoring.InstitutionOutcome | project/python_backend/main.py:288-300 | The same three cases, stated on the returned result, including the single leading "Unknown institution" discrepancy. |
| Scoring.CombineInstitution | project/python_backend/main.py:288-300 | When the later stages cannot raise the institution flag or label, the result's institution label and flag count are those of the institution stage, and its first flag and first discrepancy come first in the result. |
| Scoring.NumberCheck | project/python_backend/main.py:308-314 | A certificate-number match earns the "Certificate Number" label with weight 1. |
| Scoring.NameCheck | project/python_backend/main.py:316-328 | A name match earns "Student Name" with weight 1, or "Student Name (Partial)" with weight 0.8. |
| Scoring.RollCheck | project/python_backend/main.py:330-336 | A roll-number match earns "Roll Number" with weight 1. |
| Scoring.CourseCheck | project/python_backend/main.py:338-345 | A course match earns "Course" with its similarity, which exceeds 0.7, as weight. |
| Scoring.CompareNumber | project/python_backend/main.py:308-314 | The certificate-number block updates the running totals as one `NumberCheck` adds to them. |
| Scoring.CompareName | project/python_backend/main.py:316-328 | The name block updates the totals as one `NameCheck` adds to them. |
| Scoring.CompareRoll | project/python_backend/main.py:330-336 | The roll-number block updates the totals as one `RollCheck` adds to them. |
| Scoring.CompareCourse | project/python_backend/main.py:338-345 | The course block updates the totals as one `CourseCheck` adds to them. |
| Scoring.CompareWithRecord | project/python_backend/main.py:305-345 | One turn of the record loop yields the four checks' totals, in the source's order. |
| Scoring.DecisiveIffAbove80 | project/python_backend/main.py:347-349 | A record is decisive exactly when fields were compared and the match percentage exceeds 80. |
| Scoring.RecordLabelsOnly | project/python_backend/main.py:308-345 | Comparing one record yields only the number, name, partial-name, roll and course labels. |
| Scoring.CompareAll | project/python_backend/main.py:304 | There is one record comparison per table record. |
| Scoring.CompareAllAt | project/python_backend/main.py:304 | The k-th comparison is that of the k-th record. |
| Scoring.ScanFrom | project/python_backend/main.py:304-352 | The record loop reports an exact match only with a percentage above 80. |
| Scoring.ScanFromStep | project/python_backend/main.py:347-352 | One turn of the loop, with the source's own test: the percentage exceeds 80, so the loop stops, or else it goes on with the record's labels and messages kept. |
| Scoring.ScanRecords | project/python_backend/main.py:303-352 | The imperative record loop with `break` returns the specified scan outcome. |
| Scoring.ScanFromExtends | project/python_backend/main.py:304-352 | The loop only appends to the labels and discrepancies gathered before it. |
| Scoring.ScanFromStops | project/python_backend/main.py:304-352 | The loop ends with an exact match iff some remaining record is decisive. It then reports the percentage of the first decisive record. |
| Scoring.ScanStopsAtFirstDecisive | project/python_backend/main.py:304-352 | For the whole table, the scan matches exactly iff some record is decisive, and its percentage is that of the first decisive record. |
| Scoring.ScanFromKeeps | project/python_backend/main.py:308-345 | Labels and messages of every record compared before the loop stops remain in the output. |
| Scoring.MismatchesAreNotRolledBack | project/python_backend/main.py:308-345 | For the table: the discrepancies and labels of a non-decisive record scanned before the stop are kept, not rolled back. |
| Scoring.ScanFromLabels | project/python_backend/main.py:304-352 | The loop adds only record labels to those it starts with. |
| Scoring.ScanMessages | project/python_backend/main.py:304-352 | The record scan never reports an unknown institution. |
| Scoring.ScanLabels | project/python_backend/main.py:304-352 | The scan yields only record labels. |
| Scoring.AddWithinCount | project/python_backend/main.py:305-345 | Adding a comparison worth at most one point keeps the score within the number of fields compared. |
| Scoring.PercentageWithinCount | project/python_backend/main.py:348 | A score within the field count gives a percentage in [0, 100]. |
| Scoring.PercentageAtMost100 | project/python_backend/main.py:348 | With similarities in [0, 1], every record's match percentage lies in [0, 100]. |
| Scoring.YearStep | project/python_backend/main.py:355-365 | The year stage raises at most one of the two year flags, earns at most the "Graduation Year" label, and adds no discrepancy. |
| Scoring.CompareAllIgnoresYear | project/python_backend/main.py:304-345 | The record comparisons do not read the graduation year. |
| Scoring.CombineYear | project/python_backend/main.py:355-365 | Against the same stages without a year stage, the year stage adds exactly its flags, labels and points. |
| Scoring.GraduationYearRules | project/python_backend/main.py:355-365 | Against the same certificate without a year: after 2024, the future-year flag and −20. Before 1950, the unrealistic flag and −30. Otherwise, the "Graduation Year" label and +10. A missing or zero year changes nothing. |
| Scoring.FirstNamedIn | project/python_backend/main.py:370-372 | Finds the first table entry whose name occurs in the key, or reports that none does. |
| Scoring.FirstNamedFrom | project/python_backend/main.py:370-372 | The first entry naming the key is the one the search returns. |
| Scoring.FindFormat | project/python_backend/main.py:370-379 | The imperative format loop with `break` finds the format of the first table name the key contains. |
| Scoring.FormatStep | project/python_backend/main.py:368-379 | The format stage raises at most the format flag, earns at most the "Certificate Format" label, and adds no discrepancy. It scores +15 with the label, -15 with the flag, and 0 when no check runs. |
| Scoring.CombineFormat | project/python_backend/main.py:368-379 | Only the format stage can earn the format label or raise the format flag. |
| Scoring.FormatCheckRules | project/python_backend/main.py:368-379 | The format check runs only for a present certificate number of a verified institution. A fitting number earns the label. A non-fitting one raises the flag. |
| Scoring.FormatCheckPoints | project/python_backend/main.py:368-379 | Against the same assessment without the format stage: a fitting number adds the label and 15 points, a non-fitting one adds the flag and takes 15 points off, and no check changes nothing. Discrepancies and the exact-match verdict are never affected. |
| Scoring.FormatIgnoresTrailingCharacters | project/python_backend/main.py:373 | A fitting certificate number still earns the format label with any characters appended. |
| Scoring.Clamp | project/python_backend/main.py:393 | The clamp yields a value in [0, 100] and leaves values already in range unchanged. |
| Scoring.ExactMatchIsValid | project/python_backend/main.py:381-395 | A decisive record match always gives a valid result, with confidence at least 85 minus 10 per flag. |
| Scoring.VerifyReports | project/python_backend/main.py:399-406 | The flags, discrepancies and verification verdict come from the assessment, and the matched fields hold exactly its labels, as a set. |
| Formats.MatchAtIgnoresSuffix | project/python_backend/main.py:373 | A pattern that matches at a position still matches with text appended. |
| Formats.MatchIgnoresSuffix | project/python_backend/main.py:373 | `re.match` of a table format accepts any extension of a matching number. |
| Formats.RanchiRecordMatches | project/python_backend/main.py:69 | The Ranchi University certificate on record fits its institution's format. |
| Formats.NitRecordMatches | project/python_backend/main.py:75 | The NIT Jamshedpur certificate on record fits its institution's format. |
| Extraction.SplitLines | project/python_backend/main.py:178 | `split('\n')` yields at least one piece. |
| Extraction.SplitJoin | project/python_backend/main.py:178 | The pieces joined with newlines give back the text, and no piece holds a newline. |
| Extraction.StripLeft | project/python_backend/main.py:177-178 | Leading whitespace is removed and a suffix of the input remains. |
| Extraction.StripRight | project/python_backend/main.py:177-178 | Trailing whitespace is removed and a prefix of the input remains. |
| Extraction.StripTrims | project/python_backend/main.py:177-178 | `strip` leaves no whitespace at either end and keeps a contiguous part of the input. |
| Extraction.NonEmptyStripped | project/python_backend/main.py:178 | Only non-empty stripped lines are kept. |
| Extraction.LinesAreLowerCase | project/python_backend/main.py:177-178 | The text is lower-cased, then stripped, split and stripped line by line. Every resulting line is non-empty and has no upper-case letter. |
| Extraction.FirstInstitutionLine | project/python_backend/main.py:229-236 | Finds the first line that contains an institution keyword and has at most six words, or reports that none does. |
| Extraction.FirstInstitutionLineIs | project/python_backend/main.py:229-236 | The first line naming an institution is the one the scan returns. |
| Extraction.ExtractInstitution | project/python_backend/main.py:228-236 | The nested loop with its two `break`s sets the institution to the title-cased first such line. |
| Extraction.InstitutionRoundTrip | project/python_backend/main.py:228-236 | Lower-casing the institution found gives back a prepared line that names an institution. |
| Text.ContainsIff | project/python_backend/main.py:232 | The substring test holds exactly when the substring occurs at some position. |
| Text.LowerOfLowerCase | project/python_backend/main.py:177 | Lower-casing text without upper-case letters changes nothing. |
| Text.LowerOfTitle | project/python_backend/main.py:233 | Lower-casing a title-cased line gives the line lower-cased. |
| Endpoint.ExtractCertificateData | project/python_backend/main.py:172-278 | The institution is the one the line scan finds. Every other field is the one the field reader gives. |
| Endpoint.VerifyCertificate | project/python_backend/main.py:422-457 | 400 with the fixed refusal iff the type is neither `image/…` nor `application/pdf`. 500 iff the type is `application/pdf`, with a detail starting "Verification failed: ". A result iff an image, and it is `Verify` of the data extracted from the recognised text. |
| Endpoint.PdfFailureDetail | project/python_backend/main.py:438-439 | The detail of the wrapped PDF refusal starts with "Verification failed: ". |
| Endpoint.Render | project/python_backend/main.py:422 | The serialised list holds each element's text, in order. |
| Endpoint.Select | project/python_backend/main.py:403 | The selection lists exactly the labels in the set, each once. |
| Endpoint.ListingExists | project/python_backend/main.py:403 | Every set of labels has a listing without repeats, as `list(set(...))` gives. |
| Endpoint.LabelTextInjective | project/python_backend/main.py:294-374 | Distinct labels have distinct texts. |
| Endpoint.ToJson | project/python_backend/main.py:53-61 | The response model carries every field unchanged, with flags, discrepancies and the listed matched fields as their texts, in order. |
| Endpoint.MatchedFieldsOnce | project/python_backend/main.py:403 | The serialised matched fields have no repeats and are exactly the texts of the set's labels. |
| Endpoint.Health | project/python_backend/main.py:459-463 | `/health` reports status "healthy". |
| Endpoint.Institutions | project/python_backend/main.py:465-468 | `/institutions` lists the table's names, in table order. |
| Endpoint.Names | project/python_backend/main.py:468 | The names of the table entries, in order. |
| Endpoint.ListedInstitutionsVerify | project/python_backend/main.py:289-296 | Every listed (non-empty, lower-case) institution name verifies as an institution. |
| Api.UploadForm | project/src/services/api.ts:34-35 | The form has one field, named `file`, holding the file. |
| Api.ToClient | project/src/services/api.ts:49-57 | The seven fields are carried over unchanged: adding back the dropped `extracted_data` restores the reply. The mapped result never has `extractedData`. |
| Api.ClientRoundTrip | project/src/services/api.ts:49-57 | A client result without extracted data survives the trip to the wire shape and back. |
| Api.Detail | project/src/services/api.ts:65-67 | The reply's `detail` is used iff there is a response with a non-empty detail. |
| Api.AxiosMessage | project/src/services/api.ts:61-67 | `ECONNREFUSED` gives the fixed "not running" message before any status check. Otherwise a non-empty detail is used. Failing that, status 500 gives the internal-error text and any other status "Verification service error: " with the message. The message is never empty. |
| Api.Classify | project/src/services/api.ts:58-70 | An axios error becomes an `Error` with that message. Anything else is rethrown unchanged. |
| Api.VerifyWithPython | project/src/services/api.ts:32-71 | Resolves iff the reply is delivered, with the mapped result and no extracted data. Otherwise rejects with the classified error. |
| Api.CheckHealth | project/src/services/api.ts:73-83 | True iff GET `/health` resolves. It never rejects. |
| Api.GetVerifiedInstitutions | project/src/services/api.ts:85-95 | The reply's `institutions` list, or `[]` on any failure. |
| Upload.Run.Progress | project/src/components/Verification/CertificateUpload.tsx:72-94 | Every stage a run waits in shows a progress in {20, 40, 60, 80, 100}. |
| Upload.CertificateUpload.ProgressIsAStep | project/src/components/Verification/CertificateUpload.tsx:13-17 | The progress bar only ever shows 0, 20, 40, 60, 80 or 100. |
| Upload.ErrorText | project/src/components/Verification/CertificateUpload.tsx:115 | The catch shows an `Error`'s message, or "Verification failed" for anything else. |
| Upload.DetailsOf | project/src/components/Verification/CertificateUpload.tsx:97-106 | The eight details are the extracted data's, and all undefined when there is none. |
| Upload.CertificateUpload.constructor | project/src/components/Verification/CertificateUpload.tsx:11-17 | The initial state: no file, progress 0, not processing, empty stage, status "checking", no error. |
| Upload.CertificateUpload.CheckPythonService | project/src/components/Verification/CertificateUpload.tsx:19-26 | On mount, the status becomes "checking" and a health check is pending. |
| Upload.CertificateUpload.HealthReplied | project/src/components/Verification/CertificateUpload.tsx:26-27 | The pending check settles to "online" iff the health request resolved, "offline" otherwise. |
| Upload.CertificateUpload.HandleDragOver | project/src/components/Verification/CertificateUpload.tsx:30-33 | Dragging over sets `dragOver` and keeps the panel invariant. |
| Upload.CertificateUpload.HandleDragLeave | project/src/components/Verification/CertificateUpload.tsx:35-38 | Leaving clears `dragOver` and keeps the panel invariant. |
| Upload.CertificateUpload.ProcessFile | project/src/components/Verification/CertificateUpload.tsx:59-75 | Selects the file, starts processing, clears the error, and shows "Uploading file..." at 20 while awaiting the first delay. |
| Upload.CertificateUpload.HandleDrop | project/src/components/Verification/CertificateUpload.tsx:40-50 | Clears `dragOver`. Only the first file is considered, and it is processed iff its type mentions "pdf" or "image". Otherwise the run and its display are unchanged. |
| Upload.CertificateUpload.HandleFileSelect | project/src/components/Verification/CertificateUpload.tsx:52-57 | A picked file is processed with no type check. No file changes nothing. |
| Upload.CertificateUpload.Advance | project/src/components/Verification/CertificateUpload.tsx:75-83 | The first delay moves the run to OCR at 40, the second to extraction at 60. |
| Upload.CertificateUpload.Post | project/src/components/Verification/CertificateUpload.tsx:85-91 | The third delay shows the verifying stage at 80 and posts the file's form once. |
| Upload.CertificateUpload.Complete | project/src/components/Verification/CertificateUpload.tsx:108-112 | The completion timer stops processing and calls `onFileUpload`, then `onVerificationComplete`, once each. |
| Upload.CertificateUpload.TimerFired | project/src/components/Verification/CertificateUpload.tsx:75-112 | Each delay advances the run one stage (40, 60, 80), and the last posts the form once. The final timer clears processing and calls `onFileUpload` then `onVerificationComplete`, once each. Progress never decreases. |
| Upload.CertificateUpload.ServiceReplied | project/src/components/Verification/CertificateUpload.tsx:91-119 | Success shows "Verification complete!" at 100 and waits for the timer with the mapped result and all-undefined details. Failure shows the error message, stops processing, and resets progress to 0 and the stage to "". The selected file is kept either way. |
| Upload.PostedRun | project/src/components/Verification/CertificateUpload.tsx:59-91 | A chosen file, after the three delays, has its form posted once and the run awaits the reply with no error and no callback. The drag state, service status and pending health check are untouched. |
| Upload.SuccessfulRun | project/src/components/Verification/CertificateUpload.tsx:59-112 | A whole successful run posts one form and ends at 100, stage "Verification complete!", no error, file kept. The callbacks list grows by exactly `onFileUpload(file)` then `onVerificationComplete` with the mapped reply and all-undefined details. The drag state, service status and pending health check are untouched. |
| Upload.FailedRun | project/src/components/Verification/CertificateUpload.tsx:59-119 | A whole failed run posts one form and ends at 0 with an empty stage, the classified error shown, the file still selected and no callback called. The drag state, service status and pending health check are untouched. |
| Results.StatusColor | project/src/components/Verification/VerificationResults.tsx:22-26 | Green iff valid and above 80. Yellow iff valid and in (60, 80]. Red iff invalid or at most 60. |
| Results.IconMatchesColor | project/src/components/Verification/VerificationResults.tsx:12-26 | The icon always shows the colour's tier. |
| Results.RedCases | project/src/components/Verification/VerificationResults.tsx:22-26 | An invalid result is red whatever its confidence. A result at exactly 60 is red too. |
| Results.Header | project/src/components/Verification/VerificationResults.tsx:40 | "Complete" iff valid, "Failed" otherwise. |
| Results.PanelsFor | project/src/components/Verification/VerificationResults.tsx:133-170 | The issues panel shows iff there is a flag or a discrepancy. Each list shows iff it is non-empty. |
| Results.PanelTone | project/src/components/Verification/VerificationResults.tsx:134-137 | The panel is red for the red tier, yellow for the yellow tier, and blue for the green tier. |
| Results.Shown | project/src/components/Verification/VerificationResults.tsx:75-87 | A present, non-empty value is shown as is. A missing or empty one reads "N/A". |
| Results.UploadedDetailsReadNA | project/src/components/Verification/VerificationResults.tsx:75-87 | The details handed on by the upload panel read "N/A" on all three lines. |
| App.ContentFor | project/src/App.tsx:96-204 | No content iff the tab is not a navigation id. The verify case iff the tab is "verify", where results show iff both a result and details are present. |
| App.RoutesAreDistinct | project/src/components/Layout/Navigation.tsx:9-17 | Each of the seven navigation ids has a case of its own. |
| App.App.constructor | project/src/App.tsx:66-70 | Initially unauthenticated, on "dashboard", with no file, result or details. |
| App.App.HandleLogin | project/src/App.tsx:72-77 | Authenticates only for "admin@gmail.com" / "admin". Otherwise nothing changes. |
| App.App.HandleLogout | project/src/App.tsx:79-85 | Back to unauthenticated on "dashboard", with file, result and details cleared. |
| App.App.HandleFileUpload | project/src/App.tsx:87-89 | Only the file changes. |
| App.App.HandleVerificationComplete | project/src/App.tsx:91-94 | Only the result and the details change. |
| App.App.SetActiveTab | project/src/App.tsx:213 | The navigation's tab change sets the active tab. |
| App.App.Render | project/src/App.tsx:206-221 | The login page iff unauthenticated, whatever the tab. Otherwise the main screen for the active tab, whose content is that tab's content given whether a result and extracted data are held. |
| App.LogoutThenLogin | project/src/App.tsx:72-85 | After a logout and a fresh login, the app shows the dashboard with nothing uploaded. |
| Login.LoginPage.constructor | project/src/components/Auth/LoginPage.tsx:9-14 | Empty fields, password hidden, not loading, no error, no success screen. |
| Login.LoginPage.SetEmail | project/src/components/Auth/LoginPage.tsx:92 | Typing sets the email. |
| Login.LoginPage.SetPassword | project/src/components/Auth/LoginPage.tsx:111 | Typing sets the password. |
| Login.LoginPage.ToggleShowPassword | project/src/components/Auth/LoginPage.tsx:118 | The eye button toggles password visibility. |
| Login.LoginPage.HandleSubmit | project/src/components/Auth/LoginPage.tsx:16-22 | Submit clears the error and sets loading, then waits with the entered credentials. |
| Login.LoginPage.DelayEnded | project/src/components/Auth/LoginPage.tsx:22-32 | After the first delay: accepted credentials bring up the success screen and wait again. Others set the fixed invalid-credentials message and stop loading. After the second delay, `onLogin` is called once with the credentials and loading stops; the success screen stays and the error is untouched. |
| Login.LoginPage.Render | project/src/components/Auth/LoginPage.tsx:35-54 | While `showSuccess` holds, only the success screen is shown. Otherwise the form shows with its error and loading state. |
| Login.Submit | project/src/components/Auth/LoginPage.tsx:16-33 | A whole submission ends not loading and not submitting, with the typed email, password and visibility unchanged. Accepted credentials give the success screen, an empty error and exactly one `onLogin` call with them. Others give the fixed message, no success screen and no call. |
| Integration.DropFilterCoversGate | project/src/components/Verification/CertificateUpload.tsx:47 | Every content type the service's gate accepts also passes the drop filter. |
| Integration.DropFilterIsWider | project/python_backend/main.py:428 | "application/x-pdf" passes the drop filter but the gate refuses it. |
| Integration.Served | project/python_backend/main.py:422-457 | A reply reaches the client as delivered data iff the service produced a result. An error status arrives as an axios error that is never a refused connection. |
| Integration.UnsupportedUploadReport | project/python_backend/main.py:428-429 | A file of a refused type ends with the panel showing the service's refusal text. |
| Integration.PdfUploadReport | project/python_backend/main.py:436-457 | A PDF passes the drop filter and the gate, and the panel then shows the wrapped "Verification failed: 400: …" detail. |
| Integration.ImageUploadReport | project/python_backend/main.py:441-453 | An image yields a client result that is valid iff its confidence is at least 60, with confidence in [0, 100], every flag's text in order, no extracted data, and all-undefined details. |
| Integration.ServedResultColour | project/python_backend/main.py:395 | For a result the service produced, the colour depends on confidence alone. A confidence of exactly 60 is valid yet red. |
| Integration.FormFieldIsEndpointParameter | project/python_backend/main.py:423 | The client's multipart field is the parameter the endpoint reads. |
| Integration.FetchedInstitutions | project/python_backend/main.py:465-468 | A running service gives the client the three table names, in table order. |
| Integration.SameCredentials | project/src/components/Auth/LoginPage.tsx:24 | The login page and the app accept the same credentials. |
| Integration.SignIn | project/src/App.tsx:72-77 | A submission whose `onLogin` goes to the app shows the success screen and authenticates the app exactly for accepted credentials; an app already signed in stays so. The app then leaves the login page. The tab, file, result and extracted data of the app and the typed credentials are unchanged. |
| Integration.UploadOnVerifyTab | project/src/App.tsx:109-122 | A successful upload on the verify tab ends the run at 100 with the file selected, shows the verify screen with the result card, records the file, the mapped reply and the all-undefined details, and lists "N/A" for name, institution and course. |

## Left out

- Scoring.Verify: confidence is a `real` computed exactly. The double rounding of the sums (main.py:325, 343) and of `match_percentage` (main.py:348) is not modelled. So the reported confidence can differ from the service's in the last bits, and a record percentage that rounds onto 80 in doubles can be judged decisive here and not there. For example, a partial name with a course similarity of the double 0.8 over two fields gives 80.0 in Python, which is not above 80, but about 80.0000000000000022 here, which is.
- OCR and image preprocessing (`extract_text_with_ocr`, `preprocess_image`): foreign libraries. The recognised text is a parameter `ocr` of the endpoint, a function of the uploaded bytes that never raises.
- `calculate_text_similarity`: TF-IDF cosine similarity in foreign numerics. It is an abstract parameter `sim`. The range [0, 1] is required only by the lemma that needs it (`PercentageAtMost100`).
- Endpoint.ExtractCertificateData: the regular-expression extraction of the name, roll number, course, year, certificate number and grade depends on Python `re` semantics. It is a parameter `readFields`; only the institution-line scan is modelled.
- Text.Lower: `lower`, `upper` and `title` are modelled on ASCII letters only; other characters are unchanged.
- Formats.DigitsBetween: `\d` in the certificate formats is modelled as an ASCII digit. Python's `\d` on a `str` also matches the other Unicode decimal digits (Arabic-Indic, Devanagari and so on), so a number written with those digits fits a format in the service but not in the model.
- Wall-clock timestamps (`datetime.now`) are a parameter.
- The FastAPI, CORS, logging and uvicorn set-up, the global exception handler, and `start_server.py`.
- A request with no content type: the gate's `startswith` would raise, and the global handler would answer 500. It is not modelled; the content type is always a string.
- The root endpoint `/`: a fixed message with no logic.
- `str(HTTPException)` is taken to read "<status>: <detail>", as the web framework formats it.
- A reply whose `detail` is not a string (a validation error's list) is not modelled.
- Integration.Served: the axios transport (error codes, messages, timeouts) is summarised. An error status arrives as an axios error with a status and detail; its code and message are parameters.
- Endpoint.ToJson: `list(set(...))` gives the matched fields in an unspecified order. The model takes any listing of the set, each label once.
- A reply without an `institutions` key is not modelled.
- Upload.CertificateUpload.ProcessFile: a second file started while a run is pending replaces the pending run. The stale continuation of the earlier run, still alive in the browser, is not modelled; nor is any other interleaving of concurrent runs.
- The `setTimeout` delays are steps in order (`TimerFired`); their durations are not modelled.
- The browser's content type for a file with no type is not modelled.
- Flags, matched-field labels and discrepancies are datatypes, rendered to the service's strings by `Text()`.
- JSX markup, CSS classes and icons, and the presentation components with mock data (statistics, charts, recent activity, institution cards, header).
- The result card's confidence text, timestamp and buttons: display only.
