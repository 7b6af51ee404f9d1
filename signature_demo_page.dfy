/** The demo signing step: a session that goes Unsigned, Signing, Signed and
    stays Signed, with its ids taken from the query string. The processing
    delay is an explicit timer callback. */
module SignatureDemoPage {
  import opened JsSemantics

  const DefaultSignatureId: string := "sig_demo_123"
  const DefaultDocumentName: string := "Contract_Document.pdf"
  const StatusPathPrefix: string := "/status?id="

  /** `searchParams.get('id') || 'sig_demo_123'`: never empty, and the
      parameter itself whenever it is present and non-empty. */
  function SignatureIdFrom(idParam: Option<string>): (r: string)
    ensures r != ""
    ensures idParam.Some? && idParam.value != "" ==> r == idParam.value
    ensures idParam.None? || idParam.value == "" ==> r == DefaultSignatureId
  {
    OrElse(idParam, DefaultSignatureId)
  }

  /** `searchParams.get('doc') || 'Contract_Document.pdf'`, likewise. */
  function DocumentNameFrom(docParam: Option<string>): (r: string)
    ensures r != ""
    ensures docParam.Some? && docParam.value != "" ==> r == docParam.value
    ensures docParam.None? || docParam.value == "" ==> r == DefaultDocumentName
  {
    OrElse(docParam, DefaultDocumentName)
  }

  /** The path `handleComplete` navigates to: the status page with the
      signature id as its `id` parameter. */
  function CompletePath(signatureId: string): (r: string)
    ensures |r| == |StatusPathPrefix| + |signatureId|
    ensures r[..|StatusPathPrefix|] == StatusPathPrefix
    ensures r[|StatusPathPrefix|..] == signatureId
  {
    StatusPathPrefix + signatureId
  }

  datatype Phase = Unsigned | Signing | Signed

  class SignatureDemo {
    var signed: bool
    var loading: bool
    const signatureId: string
    const documentName: string

    /** `signed` and `loading` are never both set. */
    predicate Valid()
      reads this
    {
      !(signed && loading)
    }

    function CurrentPhase(): Phase
      reads this
    {
      if signed then Signed else if loading then Signing else Unsigned
    }

    constructor (idParam: Option<string>, docParam: Option<string>)
      ensures Valid() && CurrentPhase() == Unsigned
      ensures !signed && !loading
      ensures signatureId == SignatureIdFrom(idParam) && documentName == DocumentNameFrom(docParam)
    {
      signed, loading := false, false;
      signatureId := SignatureIdFrom(idParam);
      documentName := DocumentNameFrom(docParam);
    }

    /** A click on the sign button. The button is disabled while `loading`,
        and once signed the page shows the completion view instead, so the
        click starts `handleSign` only from Unsigned; it sets `loading` and
        leaves the timer pending. */
    method PressSign() returns (started: bool)
      requires Valid()
      modifies this
      ensures Valid()
      ensures started <==> old(CurrentPhase()) == Unsigned
      ensures started ==> CurrentPhase() == Signing
      ensures Step(old(CurrentPhase()), Click) == Some(CurrentPhase())
      ensures !started ==> signed == old(signed) && loading == old(loading)
    {
      started := !loading && !signed;
      if started {
        loading := true;
      }
    }

    /** The end of `handleSign`'s delay: the document is signed and loading
        ends. The callback exists only while a sign is in progress. */
    method SignTimerFires()
      requires Valid() && loading
      modifies this
      ensures Valid()
      ensures old(CurrentPhase()) == Signing && CurrentPhase() == Signed
      ensures Step(old(CurrentPhase()), TimerFires) == Some(CurrentPhase())
      ensures signed && !loading
    {
      signed := true;
      loading := false;
    }

    /** `handleComplete`: the path of the status page for this signature. */
    method HandleComplete() returns (path: string)
      ensures path == CompletePath(signatureId)
      ensures path[|StatusPathPrefix|..] == signatureId
    {
      path := StatusPathPrefix + signatureId;
    }
  }

  /** What can happen to a session: a click on the sign button, or the
      signing delay running out. */
  datatype SessionEvent = Click | TimerFires

  /** The phase after one event, as the class's methods take it: a click
      starts signing only from Unsigned and is ignored otherwise (in
      particular while loading); the timer, which exists only while signing,
      completes it. `None` is a timer firing with no sign in progress. */
  function Step(p: Phase, e: SessionEvent): (r: Option<Phase>)
    ensures p == Signed ==> r.None? || r.value == Signed
    ensures e == TimerFires ==> (r.Some? <==> p == Signing)
    ensures e == TimerFires && p == Signing ==> r == Some(Signed)
    ensures e == Click ==> r == Some(if p == Unsigned then Signing else p)
  {
    match e
    case Click => if p == Unsigned then Some(Signing) else Some(p)
    case TimerFires => if p == Signing then Some(Signed) else None
  }

  /** The phase after a run of events, `None` if some timer fired without a
      sign in progress. */
  function Run(p: Phase, events: seq<SessionEvent>): Option<Phase>
    decreases |events|
  {
    if events == [] then Some(p)
    else match Step(p, events[0])
      case None => None
      case Some(q) => Run(q, events[1..])
  }

  /** Signed is terminal: whatever clicks and timer firings follow, a signed
      session stays signed. */
  lemma {:induction false} SignedIsTerminal(events: seq<SessionEvent>)
    ensures Run(Signed, events).None? || Run(Signed, events).value == Signed
  {
    if events != [] {
      SignedIsTerminal(events[1..]);
    }
  }
}
