/**
 * The upload panel (components/Verification/CertificateUpload.tsx) as a
 * state machine. Its React state becomes the fields of a class; each `await`
 * of the verification run is a point where the run is suspended (`run`), and
 * the timer firing or the service replying are the methods that resume it.
 */
module Upload {
  import opened Wrappers
  import opened Text
  import opened Types
  import Api

  datatype ServiceStatus = Checking | Online | Offline

  const UploadingStage := "Uploading file..."
  const OcrStage := "Processing with OCR..."
  const ExtractingStage := "Extracting certificate data..."
  const VerifyingStage := "Verifying against database..."
  const CompleteStage := "Verification complete!"

  /** The progress values the panel ever shows. */
  const ProgressValues: set<nat> := {0, 20, 40, 60, 80, 100}

  /** Where the current `verifyWithPython` run is suspended, if anywhere. */
  datatype Run =
    | Idle
    | Uploading(file: File)       // awaiting the 500 ms delay
    | Recognising(file: File)     // awaiting the 800 ms delay
    | Extracting(file: File)      // awaiting the 600 ms delay
    | Requesting(file: File)      // awaiting the service's reply
    | Finishing(file: File, result: VerificationResult, details: CertificateDetails)  // awaiting the 1 s timer
  {
    /** The progress shown while the run waits here. */
    function Progress(): (p: nat)
      requires !Idle?
      ensures p in ProgressValues && p > 0
    {
      match this
      case Uploading(_) => 20
      case Recognising(_) => 40
      case Extracting(_) => 60
      case Requesting(_) => 80
      case Finishing(_, _, _) => 100
    }

    /** The stage label shown while the run waits here. */
    function Stage(): string
      requires !Idle?
    {
      match this
      case Uploading(_) => UploadingStage
      case Recognising(_) => OcrStage
      case Extracting(_) => ExtractingStage
      case Requesting(_) => VerifyingStage
      case Finishing(_, _, _) => CompleteStage
    }
  }

  /** A call of one of the panel's callbacks: `onFileUpload` or `onVerificationComplete`. */
  datatype Callback =
    | FileUploaded(file: File)
    | VerificationCompleted(result: VerificationResult, details: CertificateDetails)

  /** The drop filter: the type mentions "pdf" or "image" anywhere. */
  predicate DropAccepts(contentType: string) {
    Contains(contentType, "pdf") || Contains(contentType, "image")
  }

  /** The message the `catch` shows: an `Error`'s message, or a fixed text for anything else. */
  function ErrorText(thrown: Api.Thrown): (e: string)
    ensures thrown.ErrorValue? ==> e == thrown.message
    ensures thrown.OtherValue? ==> e == "Verification failed"
  {
    match thrown
    case ErrorValue(message) => message
    case OtherValue => "Verification failed"
  }

  /** The eight details read from `result.extractedData?.…`: all undefined when it is missing. */
  function DetailsOf(extracted: Option<ExtractedData>): (d: CertificateDetails)
    ensures extracted.None? ==> d == NoDetails
    ensures extracted.Some? ==> d == extracted.value
  {
    extracted.GetOr(NoDetails)
  }

  class CertificateUpload {
    var dragOver: bool
    var selectedFile: Option<File>
    var uploadProgress: nat
    var isProcessing: bool
    var processingStage: string
    var pythonServiceStatus: ServiceStatus
    var error: Option<string>
    /** Where the verification run is suspended. */
    var run: Run
    /** A health check has been sent and has not settled. */
    var healthPending: bool
    /** The forms posted to `/verify-certificate`, in order. */
    var requests: seq<seq<Api.FormField>>
    /** The callbacks called, in order. */
    var callbacks: seq<Callback>

    /**
     * A run in progress shows its own stage and progress, for the file it
     * was started on; with no run, the panel shows either nothing (progress 0)
     * or the completed stage with no error. Callbacks come in pairs, the
     * upload first, and the details handed on are all undefined.
     */
    ghost predicate Valid()
      reads this
    {
      && (run.Idle? <==> !isProcessing)
      && (!run.Idle? ==>
            uploadProgress == run.Progress() && processingStage == run.Stage()
            && selectedFile == Some(run.file) && error == None)
      && (run.Idle? ==>
            (uploadProgress == 0 && processingStage == "")
            || (uploadProgress == 100 && processingStage == CompleteStage && error == None))
      && (run.Finishing? ==> run.result.extractedData == None && run.details == NoDetails)
      && (healthPending ==> pythonServiceStatus == Checking)
      && |callbacks| % 2 == 0
      && (forall i | 0 <= i < |callbacks| :: callbacks[i].FileUploaded? <==> i % 2 == 0)
      && (forall i | 0 <= i < |callbacks| :: callbacks[i].VerificationCompleted? ==> callbacks[i].details == NoDetails)
      && (forall i | 0 <= i < |requests| :: |requests[i]| == 1 && requests[i][0].name == Api.FileField)
    }

    /** The progress bar only ever shows one of six values. */
    lemma ProgressIsAStep()
      requires Valid()
      ensures uploadProgress in ProgressValues
    {
    }

    /** The state before the mount effect runs. */
    constructor ()
      ensures Valid()
      ensures !dragOver && selectedFile == None && uploadProgress == 0 && !isProcessing
      ensures processingStage == "" && pythonServiceStatus == Checking && error == None
      ensures run == Idle && !healthPending && requests == [] && callbacks == []
    {
      dragOver := false;
      selectedFile := None;
      uploadProgress := 0;
      isProcessing := false;
      processingStage := "";
      pythonServiceStatus := Checking;
      error := None;
      run := Idle;
      healthPending := false;
      requests := [];
      callbacks := [];
    }

    /** `checkPythonService`, up to its `await`: the status reads 'checking'. */
    method CheckPythonService()
      requires Valid()
      modifies this`pythonServiceStatus, this`healthPending
      ensures Valid()
      ensures pythonServiceStatus == Checking && healthPending
    {
      pythonServiceStatus := Checking;
      healthPending := true;
    }

    /** The health check settles: 'online' exactly when `checkHealth` reports true. */
    method HealthReplied(reply: Api.Transport<HealthBody>)
      requires Valid()
      modifies this`pythonServiceStatus, this`healthPending
      ensures Valid() && !healthPending
      ensures old(healthPending) ==> pythonServiceStatus == (if reply.Delivered? then Online else Offline)
      ensures !old(healthPending) ==> pythonServiceStatus == old(pythonServiceStatus)
    {
      if healthPending {
        var isOnline := Api.CheckHealth(reply);
        pythonServiceStatus := if isOnline then Online else Offline;
        healthPending := false;
      }
    }

    method HandleDragOver()
      requires Valid()
      modifies this`dragOver
      ensures Valid() && dragOver
    {
      dragOver := true;
    }

    method HandleDragLeave()
      requires Valid()
      modifies this`dragOver
      ensures Valid() && !dragOver
    {
      dragOver := false;
    }

    /** The fields a verification run touches, all as they were. */
    twostate predicate RunUnchanged()
      reads this
    {
      && selectedFile == old(selectedFile) && isProcessing == old(isProcessing) && error == old(error)
      && processingStage == old(processingStage) && uploadProgress == old(uploadProgress) && run == old(run)
    }

    /**
     * `processFile` and the start of `verifyWithPython`, up to its first
     * `await`: a new run on `file`, at 20 %.
     */
    method ProcessFile(file: File)
      requires Valid()
      modifies this`selectedFile, this`isProcessing, this`error, this`processingStage, this`uploadProgress, this`run
      ensures Valid()
      ensures selectedFile == Some(file) && isProcessing && error == None
      ensures processingStage == UploadingStage && uploadProgress == 20 && run == Uploading(file)
    {
      selectedFile := Some(file);
      isProcessing := true;
      error := None;
      processingStage := UploadingStage;
      // verifyWithPython(file)
      processingStage := UploadingStage;
      uploadProgress := 20;
      run := Uploading(file);
    }

    /** A drop: only the first file, and only a PDF or an image by its type, starts a run. */
    method HandleDrop(files: seq<File>)
      requires Valid()
      modifies this`dragOver, this`selectedFile, this`isProcessing, this`error, this`processingStage,
        this`uploadProgress, this`run
      ensures Valid() && !dragOver
      ensures |files| > 0 && DropAccepts(files[0].contentType) ==>
        selectedFile == Some(files[0]) && run == Uploading(files[0]) && uploadProgress == 20
      ensures !(|files| > 0 && DropAccepts(files[0].contentType)) ==> RunUnchanged()
    {
      dragOver := false;
      if |files| > 0 && DropAccepts(files[0].contentType) {
        ProcessFile(files[0]);
      }
    }

    /** A file picked in the dialog starts a run whatever its type. */
    method HandleFileSelect(files: seq<File>)
      requires Valid()
      modifies this`selectedFile, this`isProcessing, this`error, this`processingStage, this`uploadProgress, this`run
      ensures Valid()
      ensures |files| > 0 ==> selectedFile == Some(files[0]) && run == Uploading(files[0]) && uploadProgress == 20
      ensures |files| == 0 ==> RunUnchanged()
    {
      if |files| > 0 {
        ProcessFile(files[0]);
      }
    }

    /** One of the first two delays ends: the run moves to its next stage, 20 points further. */
    method Advance()
      requires Valid() && (run.Uploading? || run.Recognising?)
      modifies this`run, this`uploadProgress, this`processingStage
      ensures Valid()
      ensures old(run).Uploading? ==> run == Recognising(old(run).file) && uploadProgress == 40
      ensures old(run).Recognising? ==> run == Extracting(old(run).file) && uploadProgress == 60
    {
      if run.Uploading? {
        processingStage := OcrStage;
        uploadProgress := 40;
        run := Recognising(run.file);
      } else {
        processingStage := ExtractingStage;
        uploadProgress := 60;
        run := Extracting(run.file);
      }
    }

    /** The third delay ends: the form is posted and the run awaits the reply at 80 %. */
    method Post()
      requires Valid() && run.Extracting?
      modifies this`run, this`uploadProgress, this`processingStage, this`requests
      ensures Valid()
      ensures run == Requesting(old(run).file) && uploadProgress == 80
      ensures requests == old(requests) + [Api.UploadForm(old(run).file)]
    {
      var file := run.file;
      processingStage := VerifyingStage;
      uploadProgress := 80;
      requests := requests + [Api.UploadForm(file)];
      run := Requesting(file);
    }

    /** The completion timer: the run ends and the two callbacks are called in order. */
    method Complete()
      requires Valid() && run.Finishing?
      modifies this`run, this`isProcessing, this`callbacks
      ensures Valid()
      ensures run == Idle && !isProcessing
      ensures callbacks == old(callbacks) + [FileUploaded(old(run).file), VerificationCompleted(old(run).result, old(run).details)]
    {
      var file, result, details := run.file, run.result, run.details;
      isProcessing := false;
      callbacks := callbacks + [FileUploaded(file)];
      callbacks := callbacks + [VerificationCompleted(result, details)];
      run := Idle;
    }

    /**
     * The pending timer fires. A delay moves the run to its next stage, 20
     * points further; after the third delay the form is posted. The
     * completion timer ends the run and calls `onFileUpload`, then
     * `onVerificationComplete`. With no timer pending nothing changes.
     */
    method TimerFired()
      requires Valid()
      modifies this`run, this`uploadProgress, this`processingStage, this`isProcessing, this`requests, this`callbacks
      ensures Valid()
      ensures old(run).Uploading? ==> run == Recognising(old(run).file) && uploadProgress == 40
      ensures old(run).Recognising? ==> run == Extracting(old(run).file) && uploadProgress == 60
      ensures old(run).Extracting? ==> run == Requesting(old(run).file) && uploadProgress == 80
      ensures old(run).Extracting? ==> requests == old(requests) + [Api.UploadForm(old(run).file)]
      ensures !old(run).Extracting? ==> requests == old(requests)
      ensures old(run).Finishing? ==>
        run == Idle && !isProcessing && uploadProgress == 100
        && callbacks == old(callbacks) + [FileUploaded(old(run).file), VerificationCompleted(old(run).result, old(run).details)]
      ensures !old(run).Finishing? ==> callbacks == old(callbacks)
      ensures old(run).Idle? || old(run).Requesting? ==> RunUnchanged()
      ensures uploadProgress >= old(uploadProgress)
    {
      if run.Uploading? || run.Recognising? {
        Advance();
      } else if run.Extracting? {
        Post();
      } else if run.Finishing? {
        Complete();
      }
    }

    /**
     * The service replies to the posted form. On success the run completes
     * at 100 % and waits for its timer; on failure the error is shown, the
     * progress and stage are reset and the selected file is kept. A reply
     * with no request waiting changes nothing.
     */
    method ServiceReplied(reply: Api.Transport<PythonVerificationResult>)
      requires Valid()
      modifies this`run, this`uploadProgress, this`processingStage, this`isProcessing, this`error
      ensures Valid()
      ensures old(run).Requesting? && reply.Delivered? ==>
        var result := Api.ToClient(reply.data);
        run == Finishing(old(run).file, result, NoDetails) && uploadProgress == 100
        && processingStage == CompleteStage && isProcessing && error == None
      ensures old(run).Requesting? && reply.Failed? ==>
        run == Idle && !isProcessing && uploadProgress == 0 && processingStage == ""
        && error == Some(ErrorText(Api.Classify(reply.failure)))
      ensures !old(run).Requesting? ==> RunUnchanged()
      ensures selectedFile == old(selectedFile)
    {
      if run.Requesting? {
        var file := run.file;
        match Api.VerifyWithPython(reply)
        case Resolved(result) =>
          processingStage := CompleteStage;
          uploadProgress := 100;
          var details := DetailsOf(result.extractedData);
          run := Finishing(file, result, details);
        case Rejected(thrown) =>
          error := Some(ErrorText(thrown));
          isProcessing := false;
          uploadProgress := 0;
          processingStage := "";
          run := Idle;
      }
    }
  }

  /**
   * A file chosen on an idle panel, with the three delays over: the form is
   * posted and the run awaits the reply at 80 %, no callback called yet.
   */
  method PostedRun(panel: CertificateUpload, file: File)
    requires panel.Valid()
    modifies panel`selectedFile, panel`isProcessing, panel`error, panel`processingStage, panel`uploadProgress,
      panel`run, panel`requests
    ensures panel.Valid()
    ensures panel.run == Requesting(file) && panel.isProcessing && panel.error == None
    ensures panel.selectedFile == Some(file)
    ensures panel.requests == old(panel.requests) + [Api.UploadForm(file)]
    ensures panel.callbacks == old(panel.callbacks)
    ensures panel.dragOver == old(panel.dragOver) && panel.pythonServiceStatus == old(panel.pythonServiceStatus)
    ensures panel.healthPending == old(panel.healthPending)
  {
    panel.ProcessFile(file);
    panel.Advance();
    panel.Advance();
    panel.Post();
  }

  /**
   * A run that meets no failure goes 20, 40, 60, 80, 100 and then ends,
   * calling back once with the file and once with the mapped result; the
   * form it posts carries the file under `file`. The drag state and the
   * service status are not touched.
   */
  method SuccessfulRun(panel: CertificateUpload, file: File, reply: PythonVerificationResult)
    requires panel.Valid()
    modifies panel`selectedFile, panel`isProcessing, panel`error, panel`processingStage, panel`uploadProgress,
      panel`run, panel`requests, panel`callbacks
    ensures panel.Valid()
    ensures panel.run == Idle && !panel.isProcessing && panel.error == None && panel.uploadProgress == 100
    ensures panel.processingStage == CompleteStage
    ensures panel.dragOver == old(panel.dragOver) && panel.pythonServiceStatus == old(panel.pythonServiceStatus)
    ensures panel.healthPending == old(panel.healthPending)
    ensures panel.selectedFile == Some(file)
    ensures panel.requests == old(panel.requests) + [Api.UploadForm(file)]
    ensures panel.callbacks ==
      old(panel.callbacks) + [FileUploaded(file), VerificationCompleted(Api.ToClient(reply), NoDetails)]
  {
    PostedRun(panel, file);
    panel.ServiceReplied(Api.Delivered(reply));
    panel.TimerFired();
  }

  /**
   * A run whose request fails, after posting its form, shows the error's
   * message and keeps the file; no callback is called, and the drag state
   * and the service status are not touched.
   */
  method FailedRun(panel: CertificateUpload, file: File, failure: Api.Failure)
    requires panel.Valid()
    modifies panel`selectedFile, panel`isProcessing, panel`error, panel`processingStage, panel`uploadProgress,
      panel`run, panel`requests, panel`callbacks
    ensures panel.Valid()
    ensures panel.run == Idle && !panel.isProcessing && panel.uploadProgress == 0 && panel.processingStage == ""
    ensures panel.error == Some(ErrorText(Api.Classify(failure)))
    ensures panel.selectedFile == Some(file)
    ensures panel.requests == old(panel.requests) + [Api.UploadForm(file)]
    ensures panel.callbacks == old(panel.callbacks)
    ensures panel.dragOver == old(panel.dragOver) && panel.pythonServiceStatus == old(panel.pythonServiceStatus)
    ensures panel.healthPending == old(panel.healthPending)
  {
    PostedRun(panel, file);
    panel.ServiceReplied(Api.Failed(failure));
  }
}
