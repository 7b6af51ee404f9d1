/** The status page: look up a signature request, replace the shown record
    with each fetched snapshot, and re-check automatically while the request
    is pending and auto-refresh is on. The handlers are pure functions of the
    page state; the `Status` class performs the same updates on its fields.
    Interval ticks are explicit calls, and a run of ticks is the function
    `AutoRefreshRun` over the replies the ticks receive. */
module StatusPage {
  import opened JsSemantics
  import opened CredentialStore
  import opened SigningService

  datatype PollState = PollState(
    requestId: string,
    statusData: Option<SignatureStatus>,
    loading: bool,
    autoRefresh: bool)

  datatype CheckOutcome = MissingRequestId | MissingCredentials | Refreshed | CheckFailed

  /** The outcomes that got past both guards, and so called the service. */
  predicate CallsService(o: CheckOutcome) {
    o == Refreshed || o == CheckFailed
  }

  datatype CheckStep = CheckStep(state: PollState, outcome: CheckOutcome)

  /** `handleStatusCheck` from state `s`, with `items` the local storage and
      `reply` what the status fetch settles to. A blank id is refused first,
      then missing credentials; either leaves the state as it was and calls
      nothing. Otherwise the service is asked for `s.requestId`; a delivered
      record replaces the shown one wholesale and, when completed, switches
      auto-refresh off; a failure keeps the shown record. `loading` ends
      false either way, and the id is never changed. */
  function OnStatusCheck(s: PollState, items: Items, reply: Reply<SignatureStatus>): (r: CheckStep)
    ensures IsBlank(s.requestId) ==> r == CheckStep(s, MissingRequestId)
    ensures !IsBlank(s.requestId) && Validate(items).None? ==> r == CheckStep(s, MissingCredentials)
    ensures CallsService(r.outcome) <==> !IsBlank(s.requestId) && Validate(items).Some?
    ensures r.state.requestId == s.requestId
    ensures CallsService(r.outcome) ==> !r.state.loading
    ensures r.outcome == Refreshed <==> CallsService(r.outcome) && reply.Delivered?
    ensures r.outcome == Refreshed ==>
      && r.state.statusData == Some(reply.value)
      && r.state.autoRefresh == (s.autoRefresh && reply.value.status != Completed)
    ensures r.outcome == CheckFailed ==> r.state == s.(loading := false)
  {
    if IsBlank(s.requestId) then CheckStep(s, MissingRequestId)
    else if Validate(items).None? then CheckStep(s, MissingCredentials)
    else ReplyStep(s, reply)
  }

  /** The part of `handleStatusCheck` after both guards: the fetched record
      replaces the shown one (a completed one also switches auto-refresh
      off), a failure keeps it; `loading` ends false. */
  function ReplyStep(s: PollState, reply: Reply<SignatureStatus>): CheckStep {
    match reply
    case Delivered(status) =>
      CheckStep(s.(statusData := Some(status), loading := false,
                   autoRefresh := if status.status == Completed then false else s.autoRefresh),
                Refreshed)
    case Rejected => CheckStep(s.(loading := false), CheckFailed)
  }

  /** The auto-refresh effect's condition: the interval runs only while
      auto-refresh is on, the id is non-empty and the shown record is pending. */
  predicate TickEligible(s: PollState) {
    && s.autoRefresh
    && s.requestId != ""
    && s.statusData.Some?
    && s.statusData.value.status == Pending
  }

  /** The auto-refresh button: shown only for a pending record, where a click
      flips the flag; with no button nothing changes. */
  function OnToggle(s: PollState): (r: PollState)
    ensures s.statusData.Some? && s.statusData.value.status == Pending ==> r == s.(autoRefresh := !s.autoRefresh)
    ensures !(s.statusData.Some? && s.statusData.value.status == Pending) ==> r == s
  {
    if s.statusData.Some? && s.statusData.value.status == Pending then s.(autoRefresh := !s.autoRefresh) else s
  }

  /** The URL `handleDownload` opens: the shown record's signed-document URL
      when it is present and non-empty, nothing otherwise. */
  function DownloadTarget(s: PollState): (r: Option<string>)
    ensures r.Some? <==>
      s.statusData.Some? && s.statusData.value.signedDocumentUrl.Some? && s.statusData.value.signedDocumentUrl.value != ""
    ensures r.Some? ==> r.value == s.statusData.value.signedDocumentUrl.value
    ensures r.Some? && WellShaped(s.statusData.value) ==> s.statusData.value.status == Completed
  {
    if s.statusData.Some? && s.statusData.value.signedDocumentUrl.Some? && s.statusData.value.signedDocumentUrl.value != ""
    then Some(s.statusData.value.signedDocumentUrl.value)
    else None
  }

  /** A reply after which the request is still worth polling: a failure
      (which keeps the pending record) or another pending record. */
  predicate KeepsPolling(reply: Reply<SignatureStatus>) {
    reply.Rejected? || reply.value.status == Pending
  }

  /** The state after the interval has fired for each of `replies` in turn,
      stopping at the first point where the effect's condition fails (the
      interval is then cleared and no further tick happens). */
  function AutoRefreshRun(s: PollState, items: Items, replies: seq<Reply<SignatureStatus>>): (r: PollState)
    ensures r.requestId == s.requestId
    decreases |replies|
  {
    if replies == [] || !TickEligible(s) then s
    else AutoRefreshRun(OnStatusCheck(s, items, replies[0]).state, items, replies[1..])
  }

  /** Polling stops for good: if the run still leaves the interval active,
      every reply it received kept the request pending. So once a tick yields
      a completed, failed or expired record, no tick follows. */
  lemma {:induction false} AutoRefreshStopsWhenSettled(s: PollState, items: Items, replies: seq<Reply<SignatureStatus>>)
    requires Validate(items).Some? && !IsBlank(s.requestId)
    ensures TickEligible(AutoRefreshRun(s, items, replies)) ==>
      forall i :: 0 <= i < |replies| ==> KeepsPolling(replies[i])
    decreases |replies|
  {
    if replies != [] && TickEligible(s) {
      var next := OnStatusCheck(s, items, replies[0]).state;
      if !KeepsPolling(replies[0]) {
        assert !TickEligible(next);
        assert AutoRefreshRun(s, items, replies) == next;
      } else {
        AutoRefreshStopsWhenSettled(next, items, replies[1..]);
        forall i | 1 <= i < |replies| ensures replies[i] == replies[1..][i - 1] {
        }
      }
    }
  }

  /** Conversely, while every reply keeps the request pending the interval
      stays active and auto-refresh stays on. */
  lemma {:induction false} AutoRefreshContinuesWhilePending(s: PollState, items: Items, replies: seq<Reply<SignatureStatus>>)
    requires Validate(items).Some? && !IsBlank(s.requestId)
    requires TickEligible(s)
    requires forall i :: 0 <= i < |replies| ==> KeepsPolling(replies[i])
    ensures TickEligible(AutoRefreshRun(s, items, replies))
    decreases |replies|
  {
    if replies != [] {
      var next := OnStatusCheck(s, items, replies[0]).state;
      assert KeepsPolling(replies[0]);
      forall i | 0 <= i < |replies[1..]| ensures KeepsPolling(replies[1..][i]) {
        assert replies[1..][i] == replies[i + 1];
      }
      AutoRefreshContinuesWhilePending(next, items, replies[1..]);
    }
  }

  /** The first completed record ends auto-refresh: the run stops on it, shows
      it, and leaves the flag off. */
  lemma {:induction false} CompletedEndsAutoRefresh(s: PollState, items: Items, replies: seq<Reply<SignatureStatus>>, k: nat)
    requires Validate(items).Some? && !IsBlank(s.requestId)
    requires TickEligible(s)
    requires k < |replies| && replies[k].Delivered? && replies[k].value.status == Completed
    requires forall i :: 0 <= i < k ==> KeepsPolling(replies[i])
    ensures var r := AutoRefreshRun(s, items, replies);
      r.statusData == Some(replies[k].value) && !r.autoRefresh && !TickEligible(r)
    decreases k
  {
    var next := OnStatusCheck(s, items, replies[0]).state;
    if k == 0 {
      assert next.statusData == Some(replies[0].value) && !next.autoRefresh;
      assert AutoRefreshRun(next, items, replies[1..]) == next;
    } else {
      assert KeepsPolling(replies[0]);
      forall i | 0 <= i < k - 1 ensures KeepsPolling(replies[1..][i]) {
        assert replies[1..][i] == replies[i + 1];
      }
      CompletedEndsAutoRefresh(next, items, replies[1..], k - 1);
    }
  }

  /** A pending snapshot followed by a completed one: after the second tick
      auto-refresh has switched itself off. */
  lemma PendingThenCompleted(s: PollState, items: Items, pending: SignatureStatus, completed: SignatureStatus)
    requires Validate(items).Some? && !IsBlank(s.requestId)
    requires TickEligible(s)
    requires pending.status == Pending && completed.status == Completed
    ensures !AutoRefreshRun(s, items, [Delivered(pending), Delivered(completed)]).autoRefresh
  {
    CompletedEndsAutoRefresh(s, items, [Delivered(pending), Delivered(completed)], 1);
  }

  /** Fed the simulated status service, a check that passes both guards
      shows a well-shaped record for the page's own id, pending or completed
      as drawn, and auto-refresh survives only a pending one. */
  lemma SimulatedCheckShowsWellShaped(s: PollState, items: Items, isCompleted: bool,
                                      createdAt: string, completedAt: string, signedAt: string)
    requires Validate(items).Some? && !IsBlank(s.requestId)
    ensures var r := OnStatusCheck(s, items, Delivered(SimulateStatusCheck(s.requestId, isCompleted, createdAt, completedAt, signedAt)));
      && r.outcome == Refreshed
      && r.state.statusData.Some?
      && WellShaped(r.state.statusData.value)
      && r.state.statusData.value.id == s.requestId
      && (r.state.statusData.value.status == Completed <==> isCompleted)
      && (r.state.autoRefresh <==> s.autoRefresh && !isCompleted)
  {
  }

  /** The page component: its four state hooks as fields, the shared storage,
      and a ghost log of the ids sent to the status service. */
  class Status {
    var requestId: string
    var statusData: Option<SignatureStatus>
    var loading: bool
    var autoRefresh: bool
    ghost var requests: seq<string>
    const storage: BrowserStorage

    function State(): PollState
      reads this
    {
      PollState(requestId, statusData, loading, autoRefresh)
    }

    /** The initial state: the `id` query parameter, or the empty string. */
    constructor (storage: BrowserStorage, idParam: Option<string>)
      ensures State() == PollState(OrElse(idParam, ""), None, false, false)
      ensures requests == [] && this.storage == storage
    {
      requestId := OrElse(idParam, "");
      statusData, loading, autoRefresh := None, false, false;
      requests := [];
      this.storage := storage;
    }

    /** The id input's change handler. */
    method EditRequestId(v: string)
      modifies this
      ensures State() == old(State()).(requestId := v)
      ensures requests == old(requests)
    {
      requestId := v;
    }

    /** `handleStatusCheck`, with `reply` what the awaited fetch settles to. */
    method HandleStatusCheck(reply: Reply<SignatureStatus>) returns (outcome: CheckOutcome)
      modifies this
      ensures OnStatusCheck(old(State()), storage.items, reply) == CheckStep(State(), outcome)
      ensures requests == old(requests) + if CallsService(outcome) then [old(requestId)] else []
    {
      if Trim(requestId) == [] {
        return MissingRequestId;
      }
      var credentials := Validate(storage.items);
      if credentials.None? {
        return MissingCredentials;
      }
      outcome := FetchAndShow(reply);
    }

    /** The `try`/`finally` part of `handleStatusCheck`, reached once both
        guards have passed: loading is on while the fetch for the current id
        is awaited, the reply is shown, and loading ends. */
    method FetchAndShow(reply: Reply<SignatureStatus>) returns (outcome: CheckOutcome)
      modifies this
      ensures ReplyStep(old(State()), reply) == CheckStep(State(), outcome)
      ensures requests == old(requests) + [old(requestId)]
    {
      loading := true;
      requests := requests + [requestId];
      match reply {
        case Delivered(status) =>
          statusData := Some(status);
          if status.status == Completed {
            autoRefresh := false;
          }
          outcome := Refreshed;
        case Rejected =>
          outcome := CheckFailed;
      }
      loading := false;
    }

    /** The mount effect: an id taken from the URL is checked at once. */
    method OnMount(reply: Reply<SignatureStatus>) returns (checked: bool)
      modifies this
      ensures checked == (old(requestId) != "")
      ensures checked ==> State() == OnStatusCheck(old(State()), storage.items, reply).state
      ensures checked ==>
        requests == old(requests) +
          (if CallsService(OnStatusCheck(old(State()), storage.items, reply).outcome) then [old(requestId)] else [])
      ensures !checked ==> State() == old(State()) && requests == old(requests)
    {
      checked := requestId != "";
      if checked {
        var _ := HandleStatusCheck(reply);
      }
    }

    /** One firing of the auto-refresh interval: it exists only while the
        effect's condition holds, and then runs a full check. */
    method Tick(reply: Reply<SignatureStatus>) returns (fired: bool)
      modifies this
      ensures fired == TickEligible(old(State()))
      ensures fired ==> State() == OnStatusCheck(old(State()), storage.items, reply).state
      ensures fired ==>
        requests == old(requests) +
          (if CallsService(OnStatusCheck(old(State()), storage.items, reply).outcome) then [old(requestId)] else [])
      ensures !fired ==> State() == old(State()) && requests == old(requests)
    {
      fired := autoRefresh && requestId != "" && statusData.Some? && statusData.value.status == Pending;
      if fired {
        var _ := HandleStatusCheck(reply);
      }
    }

    /** The auto-refresh button; `shown` says whether it was on screen. */
    method ToggleAutoRefresh() returns (shown: bool)
      modifies this
      ensures shown == (old(statusData).Some? && old(statusData).value.status == Pending)
      ensures State() == OnToggle(old(State()))
    {
      shown := statusData.Some? && statusData.value.status == Pending;
      if shown {
        autoRefresh := !autoRefresh;
      }
    }

    /** `handleDownload`: returns the URL handed to the external opener, if
        any. It changes no state. */
    method HandleDownload() returns (url: Option<string>)
      ensures url == DownloadTarget(State())
      ensures url.Some? ==> statusData.Some? && statusData.value.signedDocumentUrl == Some(url.value)
      ensures url.None? ==> statusData.None? || statusData.value.signedDocumentUrl.None? ||
                                statusData.value.signedDocumentUrl.value == ""
    {
      url := None;
      if statusData.Some? && statusData.value.signedDocumentUrl.Some? && statusData.value.signedDocumentUrl.value != "" {
        url := Some(statusData.value.signedDocumentUrl.value);
      }
    }
  }
}
