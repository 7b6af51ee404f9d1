/** The boundary to the remote signing provider: the shapes of its responses,
    the signature-status record, and the simulated responses the pages build
    in place of real calls. A remote call's result enters the model as a
    `Reply`, chosen by the environment; clock readings and random draws of
    the simulation are parameters. */
module SigningService {
  import opened JsSemantics

  /** The settled promise of one remote call: its value, or a thrown error. */
  datatype Reply<T> = Delivered(value: T) | Rejected

  /** Response of `/api/documents`. */
  datatype DocumentResponse = DocumentResponse(documentId: string)

  /** Response of `/api/signature`. */
  datatype SignatureResponse = SignatureResponse(signatureId: string, signatureUrl: string, status: string)

  datatype SignerInvite = SignerInvite(name: string, email: string)

  /** The fixed signer the upload page sends with every signature request. */
  const DemoSigners: seq<SignerInvite> := [SignerInvite("John Doe", "john@example.com")]

  const DocumentsEndpoint: string := "/api/documents"
  const SignatureEndpoint: string := "/api/signature"
  const SandboxOrigin: string := "https://sandbox.setu.co"

  /** What `simulateApiCall` resolves to; `NoResponse` is its `undefined`
      for an endpoint it does not know. */
  datatype ApiResponse =
    | DocumentCreated(document: DocumentResponse)
    | SignatureCreated(signature: SignatureResponse)
    | NoResponse

  /** `simulateApiCall(endpoint)`; `stamp1` and `stamp2` are the decimal
      renderings of the `Date.now()` readings it takes (the signature branch
      reads the clock twice). The document endpoint yields a document id, the
      signature endpoint a pending request with a sandbox signing URL. */
  function SimulateApiCall(endpoint: string, stamp1: string, stamp2: string): (r: ApiResponse)
    ensures r.DocumentCreated? <==> endpoint == DocumentsEndpoint
    ensures r.SignatureCreated? <==> endpoint == SignatureEndpoint
    ensures r.DocumentCreated? ==> r.document.documentId == "doc_" + stamp1
    ensures r.SignatureCreated? ==>
      && r.signature.signatureId == "sig_" + stamp1
      && r.signature.signatureUrl == SandboxOrigin + "/sign/" + stamp2
      && r.signature.status == "pending"
  {
    if endpoint == DocumentsEndpoint then DocumentCreated(DocumentResponse("doc_" + stamp1))
    else if endpoint == SignatureEndpoint then
      SignatureCreated(SignatureResponse("sig_" + stamp1, SandboxOrigin + "/sign/" + stamp2, "pending"))
    else NoResponse
  }

  /** Request status vocabulary. */
  datatype RequestStatus = Pending | Completed | Failed | Expired

  /** Signer status vocabulary (`"pending"` in the source; `Waiting` here to
      keep it apart from the request's `Pending`). */
  datatype SignerStatus = Waiting | Signed | Declined

  datatype Signer = Signer(name: string, email: string, status: SignerStatus, signedAt: Option<string>)

  datatype SignatureStatus = SignatureStatus(
    id: string,
    documentId: string,
    status: RequestStatus,
    createdAt: string,
    completedAt: Option<string>,
    signedDocumentUrl: Option<string>,
    signers: seq<Signer>)

  /** The record invariant: completion time and signed-document URL are
      present exactly when the request is completed. */
  predicate WellShaped(r: SignatureStatus) {
    && (r.completedAt.Some? <==> r.status == Completed)
    && (r.signedDocumentUrl.Some? <==> r.status == Completed)
  }

  /** `s.slice(-n)` for a positive `n`: the last `n` characters, or all of
      `s` when it is shorter. */
  function LastChars(s: string, n: nat): (r: string)
    requires n > 0
    ensures |r| == if |s| < n then |s| else n
    ensures r == s[|s| - |r|..]
  {
    if |s| <= n then s else s[|s| - n..]
  }

  /** `simulateStatusCheck(id)`. `isCompleted` is the random draw, `createdAt`,
      `completedAt` and `signedAt` the rendered clock readings. The record
      echoes `id`, is well shaped, is pending or completed as drawn, and its
      one signer has signed exactly when the request is completed. */
  function SimulateStatusCheck(id: string, isCompleted: bool, createdAt: string, completedAt: string, signedAt: string)
    : (r: SignatureStatus)
    ensures r.id == id && r.createdAt == createdAt
    ensures WellShaped(r)
    ensures r.status == Completed <==> isCompleted
    ensures r.status == Pending <==> !isCompleted
    ensures r.documentId == "doc_" + LastChars(id, 6)
    ensures r.signedDocumentUrl.Some? ==> r.signedDocumentUrl.value == SandboxOrigin + "/documents/" + id + "/download"
    ensures |r.signers| == 1
    ensures r.signers[0].status == Signed <==> r.status == Completed
    ensures r.signers[0].signedAt.Some? <==> r.status == Completed
  {
    SignatureStatus(
      id,
      "doc_" + LastChars(id, 6),
      if isCompleted then Completed else Pending,
      createdAt,
      if isCompleted then Some(completedAt) else None,
      if isCompleted then Some(SandboxOrigin + "/documents/" + id + "/download") else None,
      [Signer("John Doe", "john@example.com",
              if isCompleted then Signed else Waiting,
              if isCompleted then Some(signedAt) else None)])
  }
}
