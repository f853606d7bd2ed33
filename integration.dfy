/**
 * The service and the client together: what the upload panel accepts against
 * what the service accepts, what the panel ends up showing for each kind of
 * upload, and the login page handing over to the app.
 */
module Integration {
  import opened Wrappers
  import opened Text
  import opened Types
  import Scoring
  import Endpoint
  import Api
  import Upload
  import Results
  import App
  import Login

  /** Every content type the service's gate accepts also passes the drop filter. */
  lemma DropFilterCoversGate(contentType: string)
    requires Endpoint.Accepted(contentType)
    ensures Upload.DropAccepts(contentType)
  {
    if Endpoint.IsImage(contentType) {
      assert contentType[..5] == "image" by {
        assert contentType[..6] == "image/";
      }
      ContainsAt(contentType, "image", 0);
    } else {
      assert contentType[12..15] == "pdf";
      ContainsAt(contentType, "pdf", 12);
    }
  }

  /** The converse fails: "application/x-pdf" passes the drop filter and is refused by the gate. */
  lemma DropFilterIsWider()
    ensures Upload.DropAccepts("application/x-pdf") && !Endpoint.Accepted("application/x-pdf")
  {
    var t := "application/x-pdf";
    assert t[14..17] == "pdf";
    ContainsAt(t, "pdf", 14);
    assert t[0] == 'a';
  }

  /**
   * How axios settles on a service reply: a body is delivered; an error
   * status rejects with an axios error carrying the status and the detail
   * (code `ERR_BAD_REQUEST` for 4xx, `ERR_BAD_RESPONSE` for 5xx).
   */
  function Served(reply: Endpoint.Response<Scoring.VerificationResult>, order: seq<Scoring.Label>, message: string)
    : (t: Api.Transport<PythonVerificationResult>)
    requires reply.Ok? ==> Endpoint.IsListing(order, reply.body.matchedFields)
    ensures t.Delivered? <==> reply.Ok?
    ensures t.Failed? ==> t.failure.AxiosError? && t.failure.code != Some(Api.ConnectionRefused)
  {
    match reply
    case Ok(body) => Api.Delivered(Endpoint.ToJson(body, order))
    case HttpError(status, detail) =>
      var code := if 400 <= status < 500 then "ERR_BAD_REQUEST" else "ERR_BAD_RESPONSE";
      Api.Failed(Api.AxiosError(Some(code), Some(Api.ErrorResponse(status, Some(detail))), message))
  }

  /** The error the panel shows when the request fails. */
  function PanelError(t: Api.Transport<PythonVerificationResult>): string
    requires t.Failed?
  {
    Upload.ErrorText(Api.Classify(t.failure))
  }

  /**
   * A file of a type the gate refuses (which a picked file can be) ends with
   * the panel showing the service's own refusal.
   */
  lemma UnsupportedUploadReport(
    contentType: string, content: seq<bv8>, ocr: Endpoint.Ocr, readFields: Endpoint.FieldReader,
    db: Scoring.Database, sim: Scoring.Similarity, timestamp: string, order: seq<Scoring.Label>, message: string)
    requires !Endpoint.Accepted(contentType)
    ensures var t := Served(Endpoint.VerifyCertificate(contentType, content, ocr, readFields, db, sim, timestamp), order, message);
      t.Failed? && PanelError(t) == Endpoint.UnsupportedType
  {
  }

  /**
   * A PDF passes the drop filter and the gate, and the panel then shows the
   * wrapped 500 detail: the nested 400's status and text after
   * "Verification failed: ".
   */
  lemma PdfUploadReport(
    content: seq<bv8>, ocr: Endpoint.Ocr, readFields: Endpoint.FieldReader,
    db: Scoring.Database, sim: Scoring.Similarity, timestamp: string, order: seq<Scoring.Label>, message: string)
    ensures Upload.DropAccepts("application/pdf")
    ensures var t := Served(Endpoint.VerifyCertificate("application/pdf", content, ocr, readFields, db, sim, timestamp), order, message);
      t.Failed? && PanelError(t) == Endpoint.PdfFailureDetail()
  {
    DropFilterCoversGate("application/pdf");
  }

  /**
   * An image comes back as a result whose validity is its confidence being
   * at least 60, within [0, 100], with every flag's text in order, and with
   * no extracted data, so the details the panel hands on are all undefined.
   */
  lemma ImageUploadReport(
    contentType: string, content: seq<bv8>, ocr: Endpoint.Ocr, readFields: Endpoint.FieldReader,
    db: Scoring.Database, sim: Scoring.Similarity, timestamp: string, order: seq<Scoring.Label>, message: string)
    requires Endpoint.IsImage(contentType)
    requires var data := Endpoint.ExtractCertificateData(ocr(content), readFields);
      Endpoint.IsListing(order, Scoring.Verify(db, data, sim, timestamp).matchedFields)
    ensures var data := Endpoint.ExtractCertificateData(ocr(content), readFields);
      var v := Scoring.Verify(db, data, sim, timestamp);
      var t := Served(Endpoint.VerifyCertificate(contentType, content, ocr, readFields, db, sim, timestamp), order, message);
      && t.Delivered?
      && var r := Api.ToClient(t.data);
      && (r.isValid <==> r.confidence >= 60.0)
      && 0.0 <= r.confidence <= 100.0
      && |r.flags| == |v.flags| && (forall i | 0 <= i < |v.flags| :: r.flags[i] == v.flags[i].Text())
      && r.extractedData == None
      && Upload.DetailsOf(r.extractedData) == NoDetails
  {
  }

  /**
   * For a result the service produced, the colour depends on the confidence
   * alone: green above 80, yellow above 60, red at 60 and below, even
   * though the service calls 60 valid.
   */
  lemma ServedResultColour(r: VerificationResult)
    requires r.isValid <==> r.confidence >= 60.0
    ensures Results.StatusColor(r) == Results.Green <==> r.confidence > 80.0
    ensures Results.StatusColor(r) == Results.Yellow <==> 60.0 < r.confidence <= 80.0
    ensures Results.StatusColor(r) == Results.Red <==> r.confidence <= 60.0
    ensures r.confidence == 60.0 ==> r.isValid && Results.StatusColor(r) == Results.Red
  {
  }

  /** The multipart field the client posts is the parameter the endpoint reads. */
  lemma FormFieldIsEndpointParameter(file: File)
    ensures Api.UploadForm(file)[0].name == Endpoint.FileParameter
  {
  }

  /** The institutions the client fetches from a running service are the table's names, in order. */
  lemma FetchedInstitutions()
    ensures Api.GetVerifiedInstitutions(Api.Delivered(Endpoint.Institutions(Scoring.MockDatabase)))
      == ["ranchi university", "nit jamshedpur", "jharkhand university"]
  {
    var names := Api.GetVerifiedInstitutions(Api.Delivered(Endpoint.Institutions(Scoring.MockDatabase)));
    assert names[0] == Scoring.VerifiedInstitutions[0].name;
    assert names[1] == Scoring.VerifiedInstitutions[1].name;
    assert names[2] == Scoring.VerifiedInstitutions[2].name;
  }

  /** The login page and the app check the same credentials. */
  lemma SameCredentials(email: string, password: string)
    ensures Login.Accepts(email, password) <==> App.AcceptsCredentials(email, password)
  {
  }

  /**
   * A submission on the login page whose `onLogin` calls go to the app:
   * the app is authenticated afterwards exactly when it was before or the
   * credentials were accepted, and then it shows the main screen; nothing
   * else of the app changes.
   */
  method SignIn(page: Login.LoginPage, app: App.App)
    requires page.Valid() && !page.isLoading && !page.showSuccess
    modifies page`error, page`isLoading, page`showSuccess, page`submission, page`logins, app`isAuthenticated
    ensures page.Valid() && !page.isLoading
    ensures page.email == old(page.email) && page.password == old(page.password)
    ensures page.showSuccess <==> Login.Accepts(old(page.email), old(page.password))
    ensures app.isAuthenticated == (old(app.isAuthenticated) || Login.Accepts(old(page.email), old(page.password)))
    ensures app.activeTab == old(app.activeTab) && app.uploadedFile == old(app.uploadedFile)
    ensures app.verificationResult == old(app.verificationResult) && app.extractedData == old(app.extractedData)
    ensures Login.Accepts(old(page.email), old(page.password)) ==> app.Render().MainScreen?
  {
    var before := |page.logins|;
    Login.Submit(page);
    if |page.logins| > before {
      var c := page.logins[before];
      SameCredentials(c.email, c.password);
      app.HandleLogin(c.email, c.password);
    }
  }

  /**
   * A successful upload on the verify tab, its callbacks going to the app:
   * the result card appears with the mapped reply, and it reads "N/A" for
   * the student name, the institution and the course.
   */
  method UploadOnVerifyTab(panel: Upload.CertificateUpload, app: App.App, file: File, reply: PythonVerificationResult)
    requires panel.Valid()
    requires app.isAuthenticated && app.activeTab == "verify"
    modifies panel`selectedFile, panel`isProcessing, panel`error, panel`processingStage, panel`uploadProgress,
      panel`run, panel`requests, panel`callbacks, app`uploadedFile, app`verificationResult, app`extractedData
    ensures panel.Valid() && panel.run == Upload.Idle && panel.uploadProgress == 100 && panel.selectedFile == Some(file)
    ensures app.Render() == App.MainScreen("verify", App.VerifyContent(true))
    ensures app.uploadedFile == Some(file)
    ensures app.verificationResult == Some(Api.ToClient(reply)) && app.extractedData == Some(NoDetails)
    ensures Results.DetailLinesOf(app.extractedData.value) == Results.DetailLines("N/A", "N/A", "N/A")
  {
    var before := |panel.callbacks|;
    Upload.SuccessfulRun(panel, file, reply);
    // the panel calls onFileUpload(file), then onVerificationComplete(result, extractedData)
    var uploaded, completed := panel.callbacks[before], panel.callbacks[before + 1];
    app.HandleFileUpload(uploaded.file);
    app.HandleVerificationComplete(completed.result, completed.details);
    Results.UploadedDetailsReadNA();
  }
}
