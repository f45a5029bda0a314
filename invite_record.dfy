/**
 * The candidate's recording page. It keeps a recording state, the blob the
 * recorder last handed over and an error message, and moves between
 * `idle`, `recording`, `stopped`, `uploading`, `uploaded` and `error` through
 * its handlers. What it renders decides which handlers the candidate can
 * reach: the recorder is shown except once uploaded, the upload button only
 * when stopped (and enabled only with a blob), the redo buttons when stopped,
 * uploaded or failed, and the error snackbar while there is a message.
 *
 * The upload request is a parameter: `UploadBegun` produces it and
 * `UploadFinished` takes its outcome. The recorder component never calls the
 * page's `onStart` handler, so no rendered control leads to `recording`.
 */
module InviteRecordPage {
  import opened Wrappers
  import RecorderComponent

  type Blob = RecorderComponent.Blob

  datatype Phase = Idle | Recording | Stopped | Uploading | Uploaded | Error

  datatype Session = Session(phase: Phase, blob: Option<Blob>, uploadError: Option<string>)

  /** What a non-`Error` value thrown by `fetch` looks like to the page. */
  datatype Rejection = ErrorObject(message: string) | NonErrorValue

  /**
   * How the upload request ended: a 2xx response, another response (with its
   * body text, `None` when reading it failed, and its status text), or a
   * rejected `fetch`.
   */
  datatype FetchOutcome = Ok | HttpError(body: Option<string>, statusText: string) | Rejected(reason: Rejection)

  /** The multipart POST the page sends: the blob in form field `file`. */
  datatype UploadRequest = UploadRequest(url: string, field: string, fileName: string, file: Blob)

  /** The state after a handler's synchronous part, and the upload request it sent, if any. */
  datatype Reaction = Reaction(next: Session, request: Option<UploadRequest>)

  const UploadEndpoint := "http://localhost:8000/upload/"
  const NoVideoMessage := "No video recorded to upload"
  const UploadFailedPrefix := "Upload failed: "
  const ConnectionMessage := "Upload failed. Please check your connection and try again."

  function Initial(): (s: Session)
    ensures s.phase == Idle && s.blob == None && s.uploadError == None
  {
    Session(Idle, None, None)
  }

  /**
   * The message shown after a failed upload. A non-2xx response becomes an
   * `Error` whose text is the body, or the status text when the body is empty
   * or unreadable; a thrown `Error` keeps its message; anything else thrown
   * gets the generic connection message.
   */
  function FailureMessage(outcome: FetchOutcome): (msg: string)
    requires !outcome.Ok?
    ensures outcome.HttpError? ==> UploadFailedPrefix <= msg
    ensures outcome.HttpError? && outcome.body.Some? && outcome.body.value != "" ==>
              msg == UploadFailedPrefix + outcome.body.value
    ensures outcome.HttpError? && (outcome.body == None || outcome.body == Some("")) ==>
              msg == UploadFailedPrefix + outcome.statusText
    ensures outcome.Rejected? && outcome.reason.ErrorObject? ==> msg == outcome.reason.message
    ensures outcome == Rejected(NonErrorValue) ==> msg == ConnectionMessage
  {
    match outcome
    case HttpError(body, statusText) =>
      var errorText := if body.Some? then body.value else statusText;
      UploadFailedPrefix + (if errorText != "" then errorText else statusText)
    case Rejected(ErrorObject(message)) => message
    case Rejected(NonErrorValue) => ConnectionMessage
  }

  /** `handleStop`: from any state, the blob is kept and the page is stopped; the error is untouched. */
  function OnStop(s: Session, b: Blob): (t: Session)
    ensures t.phase == Stopped && t.blob == Some(b) && t.uploadError == s.uploadError
  {
    Session(Stopped, Some(b), s.uploadError)
  }

  /**
   * The part of `handleUpload` before the request: with no blob the page
   * fails without sending anything; otherwise it is uploading, the old error
   * is cleared and the blob is posted to the invite's upload URL.
   */
  function UploadBegun(s: Session, inviteId: string): (r: Reaction)
    ensures r.request.Some? <==> s.blob.Some?
    ensures s.blob == None ==> r.next == Session(Error, None, Some(NoVideoMessage))
    ensures s.blob.Some? ==> r.next == Session(Uploading, s.blob, None)
    ensures s.blob.Some? ==> r.request.value.file == s.blob.value
    ensures r.request.Some? ==> (&& r.request.value.url == UploadEndpoint + inviteId
                                 && r.request.value.field == "file"
                                 && r.request.value.fileName == inviteId + ".webm")
  {
    match s.blob
    case None => Reaction(s.(phase := Error, uploadError := Some(NoVideoMessage)), None)
    case Some(b) =>
      Reaction(Session(Uploading, s.blob, None),
                  Some(UploadRequest(UploadEndpoint + inviteId, "file", inviteId + ".webm", b)))
  }

  /**
   * The part of `handleUpload` after the request: success exactly when the
   * response was 2xx, and the failure message otherwise. The blob is kept.
   */
  function UploadFinished(s: Session, outcome: FetchOutcome): (t: Session)
    ensures t.phase == Uploaded <==> outcome.Ok?
    ensures t.phase == Error <==> !outcome.Ok?
    ensures t.blob == s.blob
    ensures outcome.Ok? ==> t.uploadError == s.uploadError
    ensures !outcome.Ok? ==> t.uploadError == Some(FailureMessage(outcome))
  {
    if outcome.Ok? then s.(phase := Uploaded)
    else s.(phase := Error, uploadError := Some(FailureMessage(outcome)))
  }

  /** `handleRedo`: back to the start from any state. */
  function Redone(s: Session): (t: Session)
    ensures t == Initial()
  {
    Session(Idle, None, None)
  }

  /** `handleStartRecording`: recording, with no blob and no error, from any state. */
  function RecordingStarted(s: Session): (t: Session)
    ensures t.phase == Recording && t.blob == None && t.uploadError == None
  {
    Session(Recording, None, None)
  }

  /** Closing the error snackbar clears the message and nothing else. */
  function ErrorDismissed(s: Session): (t: Session)
    ensures t.phase == s.phase && t.blob == s.blob && t.uploadError == None
  {
    s.(uploadError := None)
  }

  /** `getStatusMessage`: every state has a non-empty caption (distinct ones, see `StatusMessagesDistinct`). */
  function StatusMessage(p: Phase): (m: string)
    ensures m != ""
  {
    match p
    case Idle => "Click 'Start Recording' to begin your video response"
    case Recording => "Recording in progress... Speak clearly and look at the camera"
    case Stopped => "Recording completed! You can upload this video or record again"
    case Uploading => "Uploading your video... Please wait"
    case Uploaded => "Video uploaded successfully! You can record another video if needed"
    case Error => "An error occurred. Please try recording again"
  }

  /** The status messages have pairwise different lengths. */
  lemma MessageLength(p: Phase)
    ensures |StatusMessage(p)| == match p
      case Idle => 52
      case Recording => 61
      case Stopped => 62
      case Uploading => 35
      case Uploaded => 67
      case Error => 45
  {
    match p
    case Idle =>
    case Recording =>
    case Stopped =>
    case Uploading =>
    case Uploaded =>
    case Error =>
  }

  /** Each state has its own status message. */
  lemma StatusMessagesDistinct(p: Phase, q: Phase)
    requires p != q
    ensures StatusMessage(p) != StatusMessage(q)
  {
    MessageLength(p);
    MessageLength(q);
  }

  /** `getStatusColor`: red while recording or failed, green when stopped or uploaded. */
  function StatusColor(p: Phase): (c: string)
    ensures c == "error.main" <==> p == Recording || p == Error
    ensures c == "success.main" <==> p == Stopped || p == Uploaded
    ensures c == "text.secondary" <==> p == Idle
    ensures c == "info.main" <==> p == Uploading
  {
    match p
    case Idle => "text.secondary"
    case Recording => "error.main"
    case Stopped => "success.main"
    case Uploading => "info.main"
    case Uploaded => "success.main"
    case Error => "error.main"
  }

  /** The recorder component is rendered. */
  predicate RecorderShown(s: Session)
  {
    s.phase != Uploaded
  }

  /** The upload button is rendered and enabled. */
  predicate UploadEnabled(s: Session)
  {
    s.phase == Stopped && s.blob.Some?
  }

  /** A "Record Again", "Record New Video" or "Try Again" button is rendered. */
  predicate RedoOffered(s: Session)
  {
    s.phase == Stopped || s.phase == Uploaded || s.phase == Error
  }

  /** The error snackbar is open (an empty message is falsy). */
  predicate SnackbarOpen(s: Session)
  {
    s.uploadError.Some? && s.uploadError.value != ""
  }

  /** What the candidate can do on the rendered page. */
  datatype UiEvent = RecorderStopped(blob: Blob) | UploadClicked | RedoClicked | SnackbarClosed

  predicate Deliverable(s: Session, e: UiEvent)
  {
    match e
    case RecorderStopped(_) => RecorderShown(s)
    case UploadClicked => UploadEnabled(s)
    case RedoClicked => RedoOffered(s)
    case SnackbarClosed => SnackbarOpen(s)
  }

  /** The handler a UI event runs, with the request it sends. */
  function OnEvent(s: Session, e: UiEvent, inviteId: string): (r: Reaction)
    ensures r.request.Some? ==> e.UploadClicked? && s.blob.Some?
    ensures !e.UploadClicked? ==> r.next.uploadError == None || r.next.uploadError == s.uploadError
  {
    match e
    case RecorderStopped(b) => Reaction(OnStop(s, b), None)
    case UploadClicked => UploadBegun(s, inviteId)
    case RedoClicked => Reaction(Redone(s), None)
    case SnackbarClosed => Reaction(ErrorDismissed(s), None)
  }

  /**
   * States the rendered page can be in: it is never `recording` (nothing
   * calls `onStart`), and `stopped` and `uploading` always hold a blob.
   */
  predicate Consistent(s: Session)
  {
    && s.phase != Recording
    && (s.phase == Stopped ==> s.blob.Some?)
    && (s.phase == Uploading ==> s.blob.Some?)
  }

  /** Every UI event the page offers, and every upload outcome, keeps the page consistent. */
  lemma ConsistentPreserved(s: Session, e: UiEvent, outcome: FetchOutcome, inviteId: string)
    requires Consistent(s)
    ensures Consistent(Initial())
    ensures Deliverable(s, e) ==> Consistent(OnEvent(s, e, inviteId).next)
    ensures Consistent(UploadFinished(s, outcome))
  {
  }

  /**
   * The upload button is only clickable with a blob, so a click from the page
   * always sends the request; the "No video recorded" branch is reached only
   * by calling the handler directly.
   */
  lemma UploadClickSends(s: Session, inviteId: string)
    requires Deliverable(s, UploadClicked)
    ensures OnEvent(s, UploadClicked, inviteId).request == Some(UploadRequest(UploadEndpoint + inviteId, "file", inviteId + ".webm", s.blob.value))
    ensures OnEvent(s, UploadClicked, inviteId).next.phase == Uploading
  {
  }

  /** Once uploaded, only a redo leaves `uploaded`; nothing else the page offers sends a request. */
  lemma UploadedUntilRedo(s: Session, e: UiEvent, inviteId: string)
    requires s.phase == Uploaded && Deliverable(s, e) && !e.RedoClicked?
    ensures OnEvent(s, e, inviteId).next.phase == Uploaded
    ensures OnEvent(s, e, inviteId).request == None
  {
  }

  /**
   * Stopping the recorder, clicking upload and getting a 2xx answer ends in
   * `uploaded` holding that blob, from any state in which the recorder shows.
   */
  lemma StopUploadSucceed(s: Session, b: Blob, inviteId: string)
    requires RecorderShown(s)
    ensures var stopped := OnEvent(s, RecorderStopped(b), inviteId).next;
            && Deliverable(stopped, UploadClicked)
            && OnEvent(stopped, UploadClicked, inviteId).request.value.file == b
            && UploadFinished(OnEvent(stopped, UploadClicked, inviteId).next, Ok) == Session(Uploaded, Some(b), None)
  {
  }

  /**
   * A failed upload shows its message and offers a way back to the start.
   * The one exception to the message is a thrown `Error` with an empty
   * message, which leaves the snackbar closed.
   */
  lemma FailureIsRecoverable(s: Session, outcome: FetchOutcome, inviteId: string)
    requires outcome != Ok
    requires outcome != Rejected(ErrorObject(""))
    ensures var failed := UploadFinished(s, outcome);
            && failed.phase == Error
            && SnackbarOpen(failed)
            && Deliverable(failed, RedoClicked)
            && OnEvent(failed, RedoClicked, inviteId).next == Initial()
  {
    var msg := FailureMessage(outcome);
    if outcome.HttpError? {
      assert |msg| >= |UploadFailedPrefix|;
    }
  }

  /** A thrown `Error` with an empty message fails the upload without opening the snackbar. */
  lemma EmptyThrownMessageIsSilent(s: Session)
    ensures var failed := UploadFinished(s, Rejected(ErrorObject("")));
            failed.phase == Error && failed.uploadError == Some("") && !SnackbarOpen(failed)
  {
  }

  /** The page component's state hooks. */
  class InviteRecord {
    const inviteId: string
    var recordingState: Phase
    var recordedBlob: Option<Blob>
    var uploadError: Option<string>

    function View(): Session
      reads this
    {
      Session(recordingState, recordedBlob, uploadError)
    }

    /** The page with an invite id from the route (without one it renders only an "Invalid Invite" notice). */
    constructor (id: string)
      requires id != ""
      ensures inviteId == id && View() == Initial()
    {
      inviteId := id;
      recordingState, recordedBlob, uploadError := Idle, None, None;
    }

    method HandleStop(blob: Blob)
      modifies this
      ensures View() == OnStop(old(View()), blob)
    {
      recordedBlob := Some(blob);
      recordingState := Stopped;
    }

    /** `handleUpload` up to the `fetch` call. */
    method BeginUpload() returns (request: Option<UploadRequest>)
      modifies this
      ensures Reaction(View(), request) == UploadBegun(old(View()), inviteId)
    {
      if recordedBlob == None {
        uploadError := Some(NoVideoMessage);
        recordingState := Error;
        return None;
      }
      recordingState := Uploading;
      uploadError := None;
      request := Some(UploadRequest(UploadEndpoint + inviteId, "file", inviteId + ".webm", recordedBlob.value));
    }

    /** `handleUpload` after the `fetch` call settled with `outcome`. */
    method FinishUpload(outcome: FetchOutcome)
      modifies this
      ensures View() == UploadFinished(old(View()), outcome)
    {
      match outcome {
        case Ok =>
          recordingState := Uploaded;
        case HttpError(body, statusText) =>
          var errorText := if body.Some? then body.value else statusText;
          uploadError := Some(UploadFailedPrefix + (if errorText != "" then errorText else statusText));
          recordingState := Error;
        case Rejected(reason) =>
          uploadError := Some(if reason.ErrorObject? then reason.message else ConnectionMessage);
          recordingState := Error;
      }
    }

    /** The whole of `handleUpload`, with the request answered by `outcome` when one is sent. */
    method HandleUpload(outcome: FetchOutcome) returns (request: Option<UploadRequest>)
      modifies this
      ensures request == UploadBegun(old(View()), inviteId).request
      ensures request.None? ==> View() == UploadBegun(old(View()), inviteId).next
      ensures request.Some? ==> View() == UploadFinished(UploadBegun(old(View()), inviteId).next, outcome)
    {
      request := BeginUpload();
      if request.Some? {
        FinishUpload(outcome);
      }
    }

    method HandleRedo()
      modifies this
      ensures View() == Redone(old(View()))
    {
      recordingState := Idle;
      recordedBlob := None;
      uploadError := None;
    }

    method HandleStartRecording()
      modifies this
      ensures View() == RecordingStarted(old(View()))
    {
      recordingState := Recording;
      uploadError := None;
      recordedBlob := None;
    }

    /** The snackbar's `onClose`. */
    method DismissError()
      modifies this
      ensures View() == ErrorDismissed(old(View()))
    {
      uploadError := None;
    }
  }
}
