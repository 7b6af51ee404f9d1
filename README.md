# Setu signature flow — a Dafny model of its page logic

The repository is a small React demo of a document-signing workflow against
the Setu sandbox: store API credentials, upload a PDF to create a signature
request, poll the request's status (by hand or on an interval) and download
the signed document, plus a demo page that plays the signer's part. All of
its behaviour lives in the event handlers of four pages. This project lifts
those handlers into four small state machines and proves what they promise.

- `js_semantics.dfy` (`JsSemantics`): `Option`, `String.prototype.trim` with
  the ECMAScript whitespace set, and the `value || fallback` defaulting.
- `credential_store.dfy` (`CredentialStore`): the credential record, the one
  local-storage slot `"setu-credentials"` (a payload is either a parsed
  record or `Malformed`), the `validateCredentials` check shared by the
  upload and status pages (the two copies in `src/pages/Upload.tsx:26-38`
  and `src/pages/Status.tsx:52-64` are identical and are modelled once), the
  effect of save, clear and load on the storage, and the shared
  `BrowserStorage` object.
- `settings_page.dfy` (`SettingsPage`): the settings form as a class whose
  methods are the mount effect, the three field edits, save and clear.
- `signing_service.dfy` (`SigningService`): the remote boundary. A call's
  result is a `Reply` (`Delivered` or `Rejected`) chosen by the environment.
  The response shapes and the status record come with its invariant:
  `completedAt` and `signedDocumentUrl` are present exactly when the request
  is completed. The simulated responses `simulateApiCall` and
  `simulateStatusCheck` take their clock readings and random draw as
  parameters.
- `upload_page.dfy` (`UploadPage`): the file validator and the two-step
  upload. `OnUpload` gives the new page state and the ordered events
  (state updates and remote requests) of one `handleUpload`. In the `Upload`
  class every state-hook write goes through a setter that writes the field
  and logs its event in one step, in the order the source writes.
- `status_page.dfy` (`StatusPage`): the status check with its two guards,
  the auto-refresh condition, the toggle and the download. `AutoRefreshRun`
  is a run of interval ticks over the replies they receive.
- `signature_demo_page.dfy` (`SignatureDemoPage`): the signing session
  Unsigned → Signing → Signed, the default query parameters and the
  completion path.

Each imperative handler has two parts. A pure function of the old state
(`OnFileChange`, `OnUpload`, `OnStatusCheck`, `OnToggle`, `Saved`,
`Cleared`, `Loaded`, `Step`) carries the properties in its `ensures`. A
class method does the source's field updates in order and `ensures` that
its new state is what that function gives. The trimmed-empty test of the
status page is the source's `trim()` in the method and "every character is
whitespace" in the function; `Trim`'s contract connects the two. Timer ticks and the end of the
signing delay are explicit method calls.

Behaviour of the code that a reader might expect to be otherwise:
- Auto-refresh is switched off only when a check returns `completed`. A
  poller could switch the flag off on every terminal status; this code does
  not do so for `failed` or `expired`. Ticks still stop on those statuses,
  because the interval condition requires `pending`.
  `AutoRefreshStopsWhenSettled` proves this.
- The previous upload result is neither cleared when a new upload starts
  nor when a new file is selected. A failed upload therefore leaves an
  earlier result in place.
- The download handler tests only that the signed-document URL is present
  and non-empty. It does not test the status. For a well-shaped record,
  download therefore implies completed (`DownloadTarget`). The converse
  fails: a completed record whose URL is the empty string offers no
  download.
- Interval ticks call the check without looking at `loading`, so nothing
  stops a tick while another check is in flight.

## Model

| member | source | states |
|---|---|---|
| `JsSemantics.Trim` | src/pages/Status.tsx:90 | `requestId.trim()` is a slice `s[i..j]` of the id between a blank prefix and a blank suffix; it is empty exactly when every character is ECMAScript whitespace or a line terminator, and otherwise starts and ends with neither |
| `SignatureDemoPage.SignatureIdFrom` | src/pages/SignatureDemo.tsx:14 | the signature id is the `id` parameter when that is present and non-empty, otherwise `sig_demo_123`; it is never empty |
| `SignatureDemoPage.DocumentNameFrom` | src/pages/SignatureDemo.tsx:15 | the document name is the `doc` parameter when that is present and non-empty, otherwise `Contract_Document.pdf`; it is never empty |
| `CredentialStore.Credentials.With` | src/pages/Settings.tsx:101-103 | editing one field (the same spread at lines 115-117 and 143-145) sets that field and leaves the other two unchanged |
| `CredentialStore.Validate` | src/pages/Upload.tsx:26-38 | credentials are returned exactly when the slot is present, parses as a record and has all three fields non-empty, and they are then the stored record; absent, malformed or incomplete gives nothing |
| `CredentialStore.Saved` | src/pages/Settings.tsx:37-47 | a save with all fields non-empty writes the record so that validation returns exactly it; a save with an empty field leaves the storage untouched; no other key changes |
| `CredentialStore.Cleared` | src/pages/Settings.tsx:54-60 | after clear the slot is absent and validation returns nothing; no other key changes |
| `CredentialStore.Loaded` | src/pages/Settings.tsx:25-35 | the on-mount load copies a parsed record into the form; an absent or malformed slot leaves the form (the all-empty defaults) in place |
| `CredentialStore.ClearIdempotent` | src/pages/Settings.tsx:54-60 | clearing twice leaves the storage as clearing once |
| `CredentialStore.LoadAfterSave` | src/pages/Settings.tsx:25-47 | after a successful save the next on-mount load yields the saved record, whatever the form held |
| `CredentialStore.BrowserStorage.SetItem` | src/pages/Settings.tsx:47 | `setItem` maps the key to the payload and changes nothing else |
| `CredentialStore.BrowserStorage.RemoveItem` | src/pages/Settings.tsx:60 | `removeItem` drops the key and changes nothing else |
| `SettingsPage.Settings.constructor` | src/pages/Settings.tsx:17-21 | the form starts with all three fields empty |
| `SettingsPage.Settings.OnMount` | src/pages/Settings.tsx:25-35 | the mount effect updates the form as `Loaded` says and only reads the storage |
| `SettingsPage.Settings.Edit` | src/pages/Settings.tsx:101-103 | a field's change handler sets that field and keeps the other two |
| `SettingsPage.Settings.HandleSave` | src/pages/Settings.tsx:37-52 | save succeeds exactly when all fields are non-empty; the storage becomes `Saved` of the form, so validation then returns the form contents; a refused save leaves the storage as it was; the form never changes |
| `SettingsPage.Settings.HandleClear` | src/pages/Settings.tsx:54-65 | clear empties the form and removes the slot, after which validation returns nothing |
| `SettingsPage.SaveThenClear` | src/pages/Settings.tsx:37-60 | saving `c1`/`s1`/`p1` makes the credentials valid, and clearing makes them invalid again |
| `SigningService.SimulateApiCall` | src/pages/Upload.tsx:65-79 | the document endpoint yields `doc_`+stamp; the signature endpoint yields `sig_`+stamp, a sandbox signing URL and status `pending`; any other endpoint yields nothing |
| `SigningService.LastChars` | src/pages/Status.tsx:73 | `id.slice(-6)` (for a positive count) is the last six characters, or the whole id when it is shorter |
| `SigningService.SimulateStatusCheck` | src/pages/Status.tsx:66-87 | the simulated record echoes the id, is well shaped (completion time and URL present iff completed), is pending or completed as drawn, and its one signer is `signed`, with a signing time, iff completed |
| `UploadPage.CheckFile` | src/pages/Upload.tsx:40-63 | no file, a non-PDF type, a size above 10 × 1024 × 1024 bytes and acceptance are told apart in that order; a PDF of exactly 10 MiB is accepted |
| `UploadPage.OnFileChange` | src/pages/Upload.tsx:40-63 | an accepted file replaces the selection; no file, a wrong type or an oversized file leave the whole state, including the previous file, unchanged |
| `UploadPage.ResultOf` | src/pages/Upload.tsx:119-124 | the result's document id comes from the first response; its signature id, URL and status come from the second |
| `UploadPage.OnUpload` | src/pages/Upload.tsx:81-142 | no file or invalid credentials change nothing and emit nothing; otherwise the file is kept, `uploading` ends false, success holds exactly when both calls deliver and then progress is 100 and the result is `ResultOf` both responses; on failure the previous result is kept and progress stays at 25 or 50 |
| `UploadPage.RefusedUploadIsSilent` | src/pages/Upload.tsx:81-92 | a refused upload makes no remote request, sets no progress and changes no state |
| `UploadPage.SuccessfulUploadTrace` | src/pages/Upload.tsx:94-126 | a successful upload sets progress 0, 25, 50, 100 in that order; it requests the document, then the signature for the returned document id with the `/status` redirect and the demo signer; the result is set right after progress 100 and by no earlier event |
| `UploadPage.DocumentFailureTrace` | src/pages/Upload.tsx:97-141 | if document creation fails, progress stops at 0, 25; only the document was requested and no result is set |
| `UploadPage.SimulatedUploadSucceeds` | src/pages/Upload.tsx:65-126 | fed the simulated responses of both endpoints, an admitted upload succeeds; the result carries the non-empty ids `doc_`+stamp and `sig_`+stamp, the sandbox signing URL and status `pending` |
| `UploadPage.SignatureFailureTrace` | src/pages/Upload.tsx:105-141 | if the signature request fails, progress stops at 0, 25, 50; both requests were made and no result is set |
| `UploadPage.Upload.StartDocument` | src/pages/Upload.tsx:94-103 | through the logging setters: uploading on, progress 0 then 25, then the document request; the log grows by exactly that stage |
| `UploadPage.Upload.RequestSignature` | src/pages/Upload.tsx:105-115 | progress 50, then the signature request for the returned document id with the `/status` redirect and the demo signer |
| `UploadPage.Upload.Finish` | src/pages/Upload.tsx:117-140 | progress 100, the result, then uploading off, each logged in that order |
| `UploadPage.Upload.constructor` | src/pages/Upload.tsx:20-23 | no file, not uploading, progress 0, no result |
| `UploadPage.Upload.HandleFileChange` | src/pages/Upload.tsx:40-63 | the handler's verdict is `CheckFile`, and the new state is `OnFileChange` of the old one |
| `UploadPage.Upload.HandleUpload` | src/pages/Upload.tsx:81-142 | the field-by-field upload ends in the state `OnUpload` gives, and its event log grows by exactly `OnUpload`'s events |
| `UploadPage.Upload.SendFile` | src/pages/Upload.tsx:94-141 | past both guards, the two awaited calls and the field writes end in the state, events and outcome the `try`/`finally` part of `OnUpload` gives |
| `StatusPage.OnStatusCheck` | src/pages/Status.tsx:89-130 | a blank id is refused first, then missing credentials, both with no state change and no service call; past the guards `loading` ends false; a delivered record replaces the shown one wholesale, and a completed one turns auto-refresh off while other statuses leave it as it was; a failure keeps the shown record; the id never changes |
| `StatusPage.OnToggle` | src/pages/Status.tsx:227-234 | the auto-refresh button flips the flag only while the shown record is pending; otherwise nothing changes |
| `StatusPage.DownloadTarget` | src/pages/Status.tsx:150-160 | download opens the signed-document URL exactly when it is present and non-empty; for a well-shaped record that means the request is completed |
| `StatusPage.AutoRefreshRun` | src/pages/Status.tsx:132-141 | a run of interval ticks, each a full check, stopping once the interval condition fails; the request id is unchanged |
| `StatusPage.AutoRefreshStopsWhenSettled` | src/pages/Status.tsx:132-141 | if the interval is still active after a run, every reply kept the request pending; once a tick yields a completed, failed or expired record, no tick follows |
| `StatusPage.AutoRefreshContinuesWhilePending` | src/pages/Status.tsx:132-141 | while every reply fails or is pending, the interval stays active |
| `StatusPage.CompletedEndsAutoRefresh` | src/pages/Status.tsx:109-141 | the first completed record of a run is shown, auto-refresh is off, and no further tick happens |
| `StatusPage.PendingThenCompleted` | src/pages/Status.tsx:109-141 | a pending reply followed by a completed one leaves auto-refresh off after the second tick |
| `StatusPage.SimulatedCheckShowsWellShaped` | src/pages/Status.tsx:66-115 | fed the simulated status service past both guards, the check shows a well-shaped record for the page's own id, completed exactly as drawn, and auto-refresh survives only a pending one |
| `StatusPage.Status.constructor` | src/pages/Status.tsx:45-49 | the request id starts as the `id` parameter or the empty string; no record, not loading, auto-refresh off |
| `StatusPage.Status.EditRequestId` | src/pages/Status.tsx:209 | typing an id changes only the id |
| `StatusPage.Status.HandleStatusCheck` | src/pages/Status.tsx:89-130 | the field-by-field check ends in `OnStatusCheck`'s state and outcome; the service is asked for the current id exactly when both guards passed |
| `StatusPage.Status.FetchAndShow` | src/pages/Status.tsx:109-129 | past both guards, the fetch for the current id is logged, its reply shown as the post-guard part of `OnStatusCheck` says, and `loading` ends false |
| `StatusPage.Status.OnMount` | src/pages/Status.tsx:143-148 | an id present at mount is checked at once, logging the fetch as the check does; with no id nothing happens |
| `StatusPage.Status.Tick` | src/pages/Status.tsx:132-141 | a tick runs a full check, logging its fetch, exactly when auto-refresh is on, the id is non-empty and the shown record is pending; otherwise it changes nothing |
| `StatusPage.Status.ToggleAutoRefresh` | src/pages/Status.tsx:227-234 | the button is shown exactly for a pending record, and the new state is `OnToggle` of the old one |
| `StatusPage.Status.HandleDownload` | src/pages/Status.tsx:150-160 | the URL handed to the opener is the record's signed-document URL when that is present and non-empty; nothing otherwise; no state changes |
| `SignatureDemoPage.CompletePath` | src/pages/SignatureDemo.tsx:25-28 | the completion path is `/status?id=` followed by the signature id |
| `SignatureDemoPage.SignatureDemo.constructor` | src/pages/SignatureDemo.tsx:11-15 | the session starts unsigned and not loading, with the defaulted id and document name |
| `SignatureDemoPage.SignatureDemo.PressSign` | src/pages/SignatureDemo.tsx:134-137 | a click starts signing (sets loading) exactly from Unsigned; while loading, or once signed, it does nothing |
| `SignatureDemoPage.SignatureDemo.SignTimerFires` | src/pages/SignatureDemo.tsx:17-23 | the end of the delay takes Signing to Signed: `signed` true and `loading` false |
| `SignatureDemoPage.SignatureDemo.HandleComplete` | src/pages/SignatureDemo.tsx:25-28 | completing navigates to `CompletePath` of the session's signature id |
| `SignatureDemoPage.Step` | src/pages/SignatureDemo.tsx:17-23 | a click moves Unsigned to Signing and leaves the other phases alone; the timer fires only while signing and moves to Signed; Signed is never left |
| `SignatureDemoPage.SignedIsTerminal` | src/pages/SignatureDemo.tsx:11-23 | after `signed` is set, no sequence of clicks and timer firings makes the session unsigned again |

## Left out

- Rendering, toasts, routing (`Link`, `useNavigate`) and the status badge
  table are presentation and are not part of this model. The same goes for
  the secret-visibility toggle of the settings form, the landing page, the
  layout and the navigation highlight.
- Time: the `setTimeout` delays and the 5-second `setInterval` are not
  modelled. Ticks and the end of the signing delay are explicit calls.
- Concurrency: each handler runs to completion. Overlapping checks (a tick
  arriving while another check awaits its reply) and out-of-order replies
  are not modelled. The source has no guard against them.
- `loading` on the status page and `uploading` on the upload page are
  observable only during an await. The model's handlers are atomic, so both
  are false between calls. The upload's intermediate states appear in its
  event log instead.
- `Date.now()`, `new Date().toISOString()` and `Math.random()` are
  parameters of the simulated responses. The decimal and ISO renderings are
  not modelled.
- `JSON.parse` and `JSON.stringify` are abstracted: a stored value is a
  parsed record of three strings or `Malformed`. A string that parses to
  anything else, and an empty stored string, count as `Malformed`. Such
  payloads are outside the model. The source's mount effect would copy a
  parsed non-record into the form; the model leaves the form unchanged.
- CredentialStore.Validate: differs from the source on a stored object
  whose three fields are truthy non-strings (numbers, `true`, arrays). The
  source returns that object and the upload or check goes ahead; the model
  counts it as `Malformed` and returns nothing.
- `OnUpload` and `OnStatusCheck` accept any delivered reply. Only the
  lemmas `SimulatedUploadSucceeds` and `SimulatedCheckShowsWellShaped` tie
  them to the simulated services. For an arbitrary reply the model does not
  exclude empty ids or a record that is not well shaped.
- `window.open` is a foreign side effect. `HandleDownload` returns the URL
  it would open.
- The size display `(file.size / 1024 / 1024).toFixed(2)` is floating-point
  formatting and is not modelled.
- Strings are sequences of Unicode characters. JavaScript counts UTF-16 code
  units, so `slice(-6)` on text outside the Basic Multilingual Plane differs.
- The completion path inserts the id without URL encoding. How the status
  page then decodes its query string is not modelled.
- StatusPage.AutoRefreshRun: its own contract states only that the id is
  unchanged. What a run does is stated by the four lemmas after it.
