/** The upload page: a file validator and the two-step upload (create the
    document, then the signature request) with its progress milestones.
    Each handler is a pure function of the old page state giving the new one
    and the ordered observable events it produced; the `Upload` class performs
    the same updates on its fields one at a time. */
module UploadPage {
  import opened JsSemantics
  import opened CredentialStore
  import opened SigningService

  /** The parts of a browser `File` the page inspects. */
  datatype FileInfo = FileInfo(name: string, mediaType: string, size: nat)

  const PdfMediaType: string := "application/pdf"

  /** The 10 MB limit, in bytes. */
  const MaxFileSize: nat := 10 * 1024 * 1024

  /** Verdict of the file input's change handler. */
  datatype FileCheck = NoFile | InvalidFileType | FileTooLarge | Accepted

  /** `handleFileChange`'s tests, in their order: no file, then the media
      type, then the size. */
  function CheckFile(candidate: Option<FileInfo>): (r: FileCheck)
    ensures r == NoFile <==> candidate.None?
    ensures r == InvalidFileType <==> candidate.Some? && candidate.value.mediaType != PdfMediaType
    ensures r == FileTooLarge <==>
      candidate.Some? && candidate.value.mediaType == PdfMediaType && candidate.value.size > MaxFileSize
    ensures r == Accepted <==>
      candidate.Some? && candidate.value.mediaType == PdfMediaType && candidate.value.size <= MaxFileSize
  {
    match candidate
    case None => NoFile
    case Some(f) =>
      if f.mediaType != PdfMediaType then InvalidFileType
      else if f.size > MaxFileSize then FileTooLarge
      else Accepted
  }

  /** The result shown after a successful upload. */
  datatype UploadResponse = UploadResponse(documentId: string, signatureId: string, signatureUrl: string, status: string)

  datatype UploadState = UploadState(
    file: Option<FileInfo>,
    uploading: bool,
    progress: int,
    response: Option<UploadResponse>)

  const InitialState := UploadState(None, false, 0, None)

  /** The new state after `handleFileChange`: an accepted file replaces the
      selected one; anything else, including no file, changes nothing. */
  function OnFileChange(s: UploadState, candidate: Option<FileInfo>): (r: UploadState)
    ensures CheckFile(candidate) == Accepted ==> r == s.(file := candidate)
    ensures CheckFile(candidate) != Accepted ==> r == s
    ensures r.uploading == s.uploading && r.progress == s.progress && r.response == s.response
  {
    if CheckFile(candidate) == Accepted then s.(file := candidate) else s
  }

  /** What the upload handler makes observable, in order: each state update
      and each remote request. */
  datatype Event =
    | UploadingSet(on: bool)
    | ProgressSet(percent: int)
    | DocumentRequested(file: FileInfo)
    | SignatureRequested(documentId: string, redirectUrl: string, signers: seq<SignerInvite>)
    | ResponseSet(response: UploadResponse)

  predicate IsRequest(e: Event) {
    e.DocumentRequested? || e.SignatureRequested?
  }

  datatype UploadOutcome = NoFileSelected | MissingCredentials | Succeeded | UploadFailed

  datatype UploadStep = UploadStep(state: UploadState, events: seq<Event>, outcome: UploadOutcome)

  /** The progress values set by `events`, in order. */
  function Progresses(events: seq<Event>): (r: seq<int>)
    ensures |r| <= |events|
  {
    if events == [] then []
    else (if events[0].ProgressSet? then [events[0].percent] else []) + Progresses(events[1..])
  }

  /** The remote requests among `events`, in order. */
  function Requests(events: seq<Event>): (r: seq<Event>)
    ensures forall i :: 0 <= i < |r| ==> IsRequest(r[i])
  {
    if events == [] then []
    else (if IsRequest(events[0]) then [events[0]] else []) + Requests(events[1..])
  }

  /** The result record: the document id of the first response, everything
      else of the second. */
  function ResultOf(doc: DocumentResponse, sig: SignatureResponse): (r: UploadResponse)
    ensures r.documentId == doc.documentId
    ensures r.signatureId == sig.signatureId && r.signatureUrl == sig.signatureUrl && r.status == sig.status
  {
    UploadResponse(doc.documentId, sig.signatureId, sig.signatureUrl, sig.status)
  }

  /** The two guards `handleUpload` passes before it touches any state. */
  predicate Admitted(s: UploadState, items: Items) {
    s.file.Some? && Validate(items).Some?
  }

  /** `handleUpload` from state `s`, with `items` the local storage, `origin`
      the page's origin, and `docReply` and `sigReply` what the two remote
      calls settle to. Without a file, or without valid credentials, nothing
      happens at all. Otherwise the upload ends with `uploading` false and the
      file unchanged; it succeeds exactly when both calls deliver, and only
      then is the result replaced; a failure keeps the previous result. */
  function OnUpload(s: UploadState, items: Items, origin: string,
                    docReply: Reply<DocumentResponse>, sigReply: Reply<SignatureResponse>)
    : (r: UploadStep)
    ensures s.file.None? ==> r == UploadStep(s, [], NoFileSelected)
    ensures s.file.Some? && Validate(items).None? ==> r == UploadStep(s, [], MissingCredentials)
    ensures Admitted(s, items) ==>
      && r.state.file == s.file
      && !r.state.uploading
      && |r.events| >= 5 && r.events[0] == UploadingSet(true)
      && r.events[|r.events| - 1] == UploadingSet(false)
    ensures r.outcome == Succeeded <==> Admitted(s, items) && docReply.Delivered? && sigReply.Delivered?
    ensures r.outcome == Succeeded ==>
      && r.state.progress == 100
      && r.state.response == Some(ResultOf(docReply.value, sigReply.value))
    ensures r.outcome == UploadFailed <==> Admitted(s, items) && (docReply.Rejected? || sigReply.Rejected?)
    ensures r.outcome == UploadFailed ==>
      && r.state.response == s.response
      && r.state.progress == (if docReply.Rejected? then 25 else 50)
  {
    if s.file.None? then UploadStep(s, [], NoFileSelected)
    else if Validate(items).None? then UploadStep(s, [], MissingCredentials)
    else Transfer(s, s.file.value, origin, docReply, sigReply)
  }

  /** The `try`/`finally` part of `handleUpload`, once both guards passed and
      `f` is the selected file: the document call, then the signature call,
      then the result; a rejected call ends the attempt where it stands. */
  function Transfer(s: UploadState, f: FileInfo, origin: string,
                    docReply: Reply<DocumentResponse>, sigReply: Reply<SignatureResponse>)
    : UploadStep
  {
    var started := DocumentStage(f);
    match docReply
    case Rejected =>
      UploadStep(s.(uploading := false, progress := 25), started + [UploadingSet(false)], UploadFailed)
    case Delivered(doc) =>
      var requested := started + SignatureStage(doc.documentId, origin);
      match sigReply
      case Rejected =>
        UploadStep(s.(uploading := false, progress := 50), requested + [UploadingSet(false)], UploadFailed)
      case Delivered(sig) =>
        var result := ResultOf(doc, sig);
        UploadStep(s.(uploading := false, progress := 100, response := Some(result)),
                   requested + FinalStage(result), Succeeded)
  }

  /** Events up to the first remote call: uploading on, progress 0 then 25,
      the document request. */
  function DocumentStage(f: FileInfo): (r: seq<Event>)
    ensures |r| == 4
  {
    [UploadingSet(true), ProgressSet(0), ProgressSet(25), DocumentRequested(f)]
  }

  /** Events between the two remote calls: progress 50, then the signature
      request for the returned document, redirecting to the status page. */
  function SignatureStage(documentId: string, origin: string): (r: seq<Event>)
    ensures |r| == 2
  {
    [ProgressSet(50), SignatureRequested(documentId, origin + "/status", DemoSigners)]
  }

  /** Events after both calls delivered: progress 100, the result, uploading off. */
  function FinalStage(result: UploadResponse): (r: seq<Event>)
    ensures |r| == 3
  {
    [ProgressSet(100), ResponseSet(result), UploadingSet(false)]
  }

  lemma {:induction false} ProgressesAppend(a: seq<Event>, b: seq<Event>)
    ensures Progresses(a + b) == Progresses(a) + Progresses(b)
  {
    if a == [] {
      assert a + b == b;
    } else {
      assert (a + b)[0] == a[0];
      assert (a + b)[1..] == a[1..] + b;
      ProgressesAppend(a[1..], b);
    }
  }

  lemma {:induction false} RequestsAppend(a: seq<Event>, b: seq<Event>)
    ensures Requests(a + b) == Requests(a) + Requests(b)
  {
    if a == [] {
      assert a + b == b;
    } else {
      assert (a + b)[0] == a[0];
      assert (a + b)[1..] == a[1..] + b;
      RequestsAppend(a[1..], b);
    }
  }

  /** Both traces of a concatenation are the concatenations of the traces. */
  lemma TracesAppend(a: seq<Event>, b: seq<Event>)
    ensures Progresses(a + b) == Progresses(a) + Progresses(b)
    ensures Requests(a + b) == Requests(a) + Requests(b)
  {
    ProgressesAppend(a, b);
    RequestsAppend(a, b);
  }

  /** Both traces of a list with first element `e`. */
  lemma TracesCons(e: Event, rest: seq<Event>)
    ensures Progresses([e] + rest) == (if e.ProgressSet? then [e.percent] else []) + Progresses(rest)
    ensures Requests([e] + rest) == (if IsRequest(e) then [e] else []) + Requests(rest)
  {
    assert ([e] + rest)[1..] == rest;
  }

  lemma StageTraces(f: FileInfo, documentId: string, origin: string, result: UploadResponse)
    ensures Progresses(DocumentStage(f)) == [0, 25]
    ensures Requests(DocumentStage(f)) == [DocumentRequested(f)]
    ensures Progresses(SignatureStage(documentId, origin)) == [50]
    ensures Requests(SignatureStage(documentId, origin)) == [SignatureRequested(documentId, origin + "/status", DemoSigners)]
    ensures Progresses(FinalStage(result)) == [100]
    ensures Requests(FinalStage(result)) == []
    ensures Progresses([UploadingSet(false)]) == [] && Requests([UploadingSet(false)]) == []
  {
    var started := DocumentStage(f);
    TracesCons(started[0], started[1..]);
    TracesCons(started[1], started[2..]);
    TracesCons(started[2], started[3..]);
    TracesCons(started[3], []);
    var tail := SignatureStage(documentId, origin);
    TracesCons(tail[0], tail[1..]);
    TracesCons(tail[1], []);
    var done := FinalStage(result);
    TracesCons(done[0], done[1..]);
    TracesCons(done[1], done[2..]);
    TracesCons(done[2], []);
  }

  /** A refused upload (no file, or no valid credentials) makes no remote
      request and sets no progress. */
  lemma RefusedUploadIsSilent(s: UploadState, items: Items, origin: string,
                              docReply: Reply<DocumentResponse>, sigReply: Reply<SignatureResponse>)
    requires !Admitted(s, items)
    ensures var r := OnUpload(s, items, origin, docReply, sigReply);
      Progresses(r.events) == [] && Requests(r.events) == [] && r.state == s
  {
  }

  /** A successful upload sets progress 0, 25, 50, 100 in that order, requests
      the document and then the signature for the document id the first call
      returned, and sets the result only after progress reached 100: the
      result is the event right after the 100 milestone, and no earlier event
      sets it. */
  lemma SuccessfulUploadTrace(s: UploadState, items: Items, origin: string,
                              doc: DocumentResponse, sig: SignatureResponse)
    requires Admitted(s, items)
    ensures var r := OnUpload(s, items, origin, Delivered(doc), Delivered(sig));
      && r.outcome == Succeeded
      && Progresses(r.events) == [0, 25, 50, 100]
      && Requests(r.events) == [DocumentRequested(s.file.value),
                                SignatureRequested(doc.documentId, origin + "/status", DemoSigners)]
      && r.events[|r.events| - 3] == ProgressSet(100)
      && r.events[|r.events| - 2] == ResponseSet(ResultOf(doc, sig))
      && forall i :: 0 <= i < |r.events| - 2 ==> !r.events[i].ResponseSet?
  {
    var started := DocumentStage(s.file.value);
    var tail := SignatureStage(doc.documentId, origin);
    var r := OnUpload(s, items, origin, Delivered(doc), Delivered(sig));
    assert r.events == started + tail + FinalStage(ResultOf(doc, sig));
    StageTraces(s.file.value, doc.documentId, origin, ResultOf(doc, sig));
    TracesAppend(started, tail);
    TracesAppend(started + tail, FinalStage(ResultOf(doc, sig)));
  }

  /** Fed the simulated responses of both endpoints, an admitted upload
      succeeds with the simulated ids, both non-empty, and status `pending`.
      `docStamp` and `sigStamp` are the clock readings of the two calls, and
      `urlStamp` the second reading of the signature call. */
  lemma SimulatedUploadSucceeds(s: UploadState, items: Items, origin: string,
                                docStamp: string, sigStamp: string, urlStamp: string)
    requires Admitted(s, items)
    ensures var doc := SimulateApiCall(DocumentsEndpoint, docStamp, "").document;
      var sig := SimulateApiCall(SignatureEndpoint, sigStamp, urlStamp).signature;
      var r := OnUpload(s, items, origin, Delivered(doc), Delivered(sig));
      && r.outcome == Succeeded
      && r.state.response.Some?
      && r.state.response.value.documentId == "doc_" + docStamp != ""
      && r.state.response.value.signatureId == "sig_" + sigStamp != ""
      && r.state.response.value.signatureUrl == SandboxOrigin + "/sign/" + urlStamp
      && r.state.response.value.status == "pending"
  {
  }

  /** When document creation fails, progress stops at 25 after the one
      document request. */
  lemma DocumentFailureTrace(s: UploadState, items: Items, origin: string, sigReply: Reply<SignatureResponse>)
    requires Admitted(s, items)
    ensures var r := OnUpload(s, items, origin, Rejected, sigReply);
      && r.outcome == UploadFailed
      && Progresses(r.events) == [0, 25]
      && Requests(r.events) == [DocumentRequested(s.file.value)]
      && forall i :: 0 <= i < |r.events| ==> !r.events[i].ResponseSet?
  {
    StageTraces(s.file.value, "", origin, UploadResponse("", "", "", ""));
    TracesAppend(DocumentStage(s.file.value), [UploadingSet(false)]);
  }

  /** When the signature request fails, progress stops at 50 after both
      requests. */
  lemma SignatureFailureTrace(s: UploadState, items: Items, origin: string, doc: DocumentResponse)
    requires Admitted(s, items)
    ensures var r := OnUpload(s, items, origin, Delivered(doc), Rejected);
      && r.outcome == UploadFailed
      && Progresses(r.events) == [0, 25, 50]
      && Requests(r.events) == [DocumentRequested(s.file.value),
                                SignatureRequested(doc.documentId, origin + "/status", DemoSigners)]
      && forall i :: 0 <= i < |r.events| ==> !r.events[i].ResponseSet?
  {
    var started := DocumentStage(s.file.value);
    var tail := SignatureStage(doc.documentId, origin);
    var r := OnUpload(s, items, origin, Delivered(doc), Rejected);
    assert r.events == started + tail + [UploadingSet(false)];
    StageTraces(s.file.value, doc.documentId, origin, UploadResponse("", "", "", ""));
    TracesAppend(started, tail);
    TracesAppend(started + tail, [UploadingSet(false)]);
  }

  /** The page component: its four state hooks as fields, the shared storage,
      and a ghost log of the events the handlers produced. */
  class Upload {
    var file: Option<FileInfo>
    var uploading: bool
    var progress: int
    var uploadResponse: Option<UploadResponse>
    ghost var events: seq<Event>
    const storage: BrowserStorage

    function State(): UploadState
      reads this
    {
      UploadState(file, uploading, progress, uploadResponse)
    }

    constructor (storage: BrowserStorage)
      ensures State() == InitialState && events == [] && this.storage == storage
    {
      file, uploading, progress, uploadResponse := None, false, 0, None;
      events := [];
      this.storage := storage;
    }

    /** `handleFileChange` with `candidate` the first selected file, if any. */
    method HandleFileChange(candidate: Option<FileInfo>) returns (verdict: FileCheck)
      modifies this
      ensures verdict == CheckFile(candidate)
      ensures State() == OnFileChange(old(State()), candidate)
      ensures events == old(events)
    {
      verdict := CheckFile(candidate);
      if candidate.None? {
        return;
      }
      var selected := candidate.value;
      if selected.mediaType != PdfMediaType {
        return;
      }
      if selected.size > MaxFileSize {
        return;
      }
      file := candidate;
    }

    /** `handleUpload`, with `origin` the page's origin and `docReply`,
        `sigReply` what the two awaited calls settle to. Each state-hook write
        goes through a setter that logs it, in the order the source writes. */
    method HandleUpload(origin: string, docReply: Reply<DocumentResponse>, sigReply: Reply<SignatureResponse>)
      returns (outcome: UploadOutcome)
      modifies this
      ensures var r := OnUpload(old(State()), storage.items, origin, docReply, sigReply);
        && State() == r.state
        && events == old(events) + r.events
        && outcome == r.outcome
    {
      if file.None? {
        return NoFileSelected;
      }
      var credentials := Validate(storage.items);
      if credentials.None? {
        return MissingCredentials;
      }
      outcome := SendFile(origin, docReply, sigReply);
    }

    /** The `try`/`finally` part of `handleUpload` for the selected file:
        the document stage, then on delivery the signature stage, then on
        delivery the final stage; a rejected call ends with `uploading` off. */
    method SendFile(origin: string, docReply: Reply<DocumentResponse>, sigReply: Reply<SignatureResponse>)
      returns (outcome: UploadOutcome)
      requires file.Some?
      modifies this
      ensures var r := Transfer(old(State()), old(file.value), origin, docReply, sigReply);
        && State() == r.state
        && events == old(events) + r.events
        && outcome == r.outcome
    {
      ghost var before := events;
      var selected := file.value;
      StartDocument(selected);
      match docReply
      case Rejected =>
        SetUploading(false);
        assert events == before + (DocumentStage(selected) + [UploadingSet(false)]);
        return UploadFailed;
      case Delivered(documentResponse) =>
        RequestSignature(documentResponse.documentId, origin);
        ghost var requested := DocumentStage(selected) + SignatureStage(documentResponse.documentId, origin);
        assert events == before + requested;
        match sigReply
        case Rejected =>
          SetUploading(false);
          assert events == before + (requested + [UploadingSet(false)]);
          return UploadFailed;
        case Delivered(signatureResponse) =>
          var response := UploadResponse(documentResponse.documentId, signatureResponse.signatureId,
                                         signatureResponse.signatureUrl, signatureResponse.status);
          Finish(response);
          assert response == ResultOf(documentResponse, signatureResponse);
          assert events == before + (requested + FinalStage(response));
          return Succeeded;
    }

    /** Up to the first call: uploading on, progress 0 then 25, and the
        document request for `f`. */
    method StartDocument(f: FileInfo)
      modifies this
      ensures file == old(file) && uploadResponse == old(uploadResponse)
      ensures uploading && progress == 25
      ensures events == old(events) + DocumentStage(f)
    {
      SetUploading(true);
      SetProgress(0);
      SetProgress(25);
      LogRequest(DocumentRequested(f));
    }

    /** Between the calls: progress 50, and the signature request for the
        returned document, redirecting to the status page of `origin`. */
    method RequestSignature(documentId: string, origin: string)
      modifies this
      ensures file == old(file) && uploading == old(uploading) && uploadResponse == old(uploadResponse)
      ensures progress == 50
      ensures events == old(events) + SignatureStage(documentId, origin)
    {
      SetProgress(50);
      LogRequest(SignatureRequested(documentId, origin + "/status", DemoSigners));
    }

    /** After both calls: progress 100, the result, and uploading off. */
    method Finish(response: UploadResponse)
      modifies this
      ensures file == old(file)
      ensures !uploading && progress == 100 && uploadResponse == Some(response)
      ensures events == old(events) + FinalStage(response)
    {
      SetProgress(100);
      SetUploadResponse(response);
      SetUploading(false);
    }

    /** `setUploading(on)`, logged. */
    method SetUploading(on: bool)
      modifies this
      ensures uploading == on
      ensures file == old(file) && progress == old(progress) && uploadResponse == old(uploadResponse)
      ensures events == old(events) + [UploadingSet(on)]
    {
      uploading := on;
      events := events + [UploadingSet(on)];
    }

    /** `setProgress(p)`, logged. */
    method SetProgress(p: int)
      modifies this
      ensures progress == p
      ensures file == old(file) && uploading == old(uploading) && uploadResponse == old(uploadResponse)
      ensures events == old(events) + [ProgressSet(p)]
    {
      progress := p;
      events := events + [ProgressSet(p)];
    }

    /** `setUploadResponse(response)`, logged. */
    method SetUploadResponse(response: UploadResponse)
      modifies this
      ensures uploadResponse == Some(response)
      ensures file == old(file) && uploading == old(uploading) && progress == old(progress)
      ensures events == old(events) + [ResponseSet(response)]
    {
      uploadResponse := Some(response);
      events := events + [ResponseSet(response)];
    }

    /** A remote request leaving the page, logged; no state hook changes. */
    ghost method LogRequest(e: Event)
      requires IsRequest(e)
      modifies this
      ensures State() == old(State())
      ensures events == old(events) + [e]
    {
      events := events + [e];
    }
  }
}
