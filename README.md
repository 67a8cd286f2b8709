# VerificationPanel decision logic

A Dafny model of the decision logic of `VerificationPanel`, the right-panel
component of matrix-react-sdk that drives interactive device verification
(emoji/SAS comparison or QR code) with another user. The verification engine
(matrix-js-sdk) owns the request, its phases and its verifiers; the panel only
decides what to show and when to start a verifier.

- `Render.dfy` (module `Render`): the request phase, the stored `show_sas`
  event and the client's key material are mapped to one abstract presentation
  `Mode`: method choice (QR and emoji, or emoji only) with the emoji button or a
  spinner, the emoji comparison view, the verified summary, the cancelled
  summary with one of three messages, or nothing with a diagnostic.
- `Watcher.dfy` (module `Watcher`): the `_hasVerifier` guard of
  `_onRequestChange` as a pure edge detector, and what a sequence of "change"
  events does to it and to the log of `verify()` calls.
- `Panel.dfy` (module `Panel`): class `VerificationPanel` with the
  component's fields (`hasVerifier`, `sasEvent`, the "change" subscription, the
  pending `once("show_sas")` handlers) and its handlers as methods; ghost logs
  record `verify()` calls, caught failures, `confirm()`/`mismatch()` relays and
  `beginKeyVerification` calls. A client method walks one emoji verification
  from mount to unmount.
- `Engine.dfy` (module `Engine`): what the panel sees of the engine's objects:
  the request at one moment, its originating event, verifier identities and
  the `show_sas` payload.
- `Wrappers.dfy`: `Option`, standing for JavaScript's null/undefined.

Inputs the component reads from outside are parameters: the request as seen at
one moment (`Engine.Request`), the `phase` prop (separate from the request, as
`render` reads `this.props.phase`), the member, and the client's answers
(`Render.Client`: own user id, device id, device Ed25519 key, cross-signing id,
and stored cross-signing info per user). An empty string stands for a missing
(falsy) member field or request event id.

Behaviour of the code that the model keeps, where a reader might expect
otherwise:

- The guard tracks only whether the request has some verifier. A verifier
  replaced by another without an intervening "no verifier" change is not
  verified again (`Watcher.ReplacementDoesNotRearm`); only
  verifier -> none -> verifier re-arms it (`Watcher.NullRearms`).
- `_onSasMatchesClick` and `_onSasMismatchesClick` are not defensive no-ops:
  they dereference the stored event, so a stored event is their precondition.
- `_startSAS` does not check whether the panel is pending.
- The timeout code compared against is `"m.timeout"`.
- The stored SAS event is never cleared; it is simply not consulted outside
  STARTED (`Render.StaleSasIgnored`).

## Model

| member | source | states |
|---|---|---|
| `Render.DisplayName` | src/components/views/right_panel/VerificationPanel.js:169 | the name shown is the first non-empty of display name, name and user id; it is empty only when all three are |
| `Render.RenderQRPhase` | src/components/views/right_panel/VerificationPanel.js:57-116 | the QR variant is chosen iff cross-signing info for the other user is stored, the request event exists and its id is non-empty, otherwise emoji only; the button is the spinner iff pending, in both variants; the QR data carries the own user id, the event id, the other user's master key, the shared secret and exactly the two keys [device id, device Ed25519 key] then [cross-signing id, cross-signing id] |
| `Render.RenderVerifiedPhase` | src/components/views/right_panel/VerificationPanel.js:118-136 | DONE shows the verified summary naming the other party |
| `Render.CancelMessage` | src/components/views/right_panel/VerificationPanel.js:143-152 | timeout message iff the code is "m.timeout" (even when the other user cancelled); otherwise "they cancelled", naming them, iff the cancelling user is the other user; otherwise "you cancelled" |
| `Render.RenderCancelledPhase` | src/components/views/right_panel/VerificationPanel.js:138-164 | CANCELLED shows the cancellation summary with the message chosen by precedence |
| `Render.Render` | src/components/views/right_panel/VerificationPanel.js:166-196 | total dispatch, one mode per phase: READY gives the method choice with the emoji button; STARTED with a stored event gives the comparison view with that event's SAS and the display name, without one the same choice with a spinner; DONE verified; CANCELLED cancelled; UNSENT and REQUESTED nothing with a diagnostic naming the phase |
| `Render.StaleSasIgnored` | src/components/views/right_panel/VerificationPanel.js:171-193 | outside STARTED the view does not depend on the stored SAS event and is never the comparison view |
| `Watcher.OnChange` | src/components/views/right_panel/VerificationPanel.js:219-233 | the guard becomes "the request has a verifier"; the panel attaches (subscribes to show_sas and calls verify) iff the guard was down and a verifier is present, and then on that verifier |
| `Watcher.Run` | src/components/views/right_panel/VerificationPanel.js:221-231 | over a sequence of change events the verify log only grows, by at most one call per event |
| `Watcher.RunIsEdgeDetector` | src/components/views/right_panel/VerificationPanel.js:221-228 | the verify calls are exactly the verifiers present at rising edges of "the request has a verifier", in order; afterwards the guard equals whether the last event showed a verifier |
| `Watcher.SteadyVerifierNoMoreCalls` | src/components/views/right_panel/VerificationPanel.js:221-223 | once armed, any number of further change events that report a verifier add no verify call |
| `Watcher.ReplacementDoesNotRearm` | src/components/views/right_panel/VerificationPanel.js:222-223 | from a disarmed guard, events that all report verifiers (possibly different ones) cause exactly one verify call, on the first |
| `Watcher.NullRearms` | src/components/views/right_panel/VerificationPanel.js:221-223 | after any history, an event without a verifier leaves the guard down, so a verifier reported on the next event is verified once more |
| `Watcher.CallsBoundedByResets` | src/components/views/right_panel/VerificationPanel.js:221-228 | the number of verify calls is at most one plus the number of events that showed no verifier |
| `Watcher.ChangeIdempotent` | src/components/views/right_panel/VerificationPanel.js:219-233 | handling the same change twice equals handling it once |
| `Panel.VerificationPanel.constructor` | src/components/views/right_panel/VerificationPanel.js:51-55 | a new panel has no guard, no stored event, no subscription and empty logs |
| `Panel.VerificationPanel.OnRequestChange` | src/components/views/right_panel/VerificationPanel.js:219-233 | guard and verify log follow `Watcher.OnChange` applied to the request's current verifier; on attach the show_sas handler is added and a failed verify only adds a logged error; nothing else changes |
| `Panel.VerificationPanel.EmitChange` | src/components/views/right_panel/VerificationPanel.js:236 | a change event runs the handler only while subscribed; otherwise guard, log and handlers are unchanged |
| `Panel.VerificationPanel.ComponentDidMount` | src/components/views/right_panel/VerificationPanel.js:235-238 | subscribes and runs one immediate evaluation of the request |
| `Panel.VerificationPanel.ComponentWillUnmount` | src/components/views/right_panel/VerificationPanel.js:240-242 | removes the subscription and changes nothing else |
| `Panel.VerificationPanel.OnVerifierShowSas` | src/components/views/right_panel/VerificationPanel.js:215-217 | stores the SAS event |
| `Panel.VerificationPanel.EmitShowSas` | src/components/views/right_panel/VerificationPanel.js:224 | a verifier's show_sas reaches the panel only through a pending once-handler, which it consumes |
| `Panel.VerificationPanel.OnSasMatchesClick` | src/components/views/right_panel/VerificationPanel.js:207-209 | requires a stored event and relays exactly one confirm to it |
| `Panel.VerificationPanel.OnSasMismatchesClick` | src/components/views/right_panel/VerificationPanel.js:211-213 | requires a stored event and relays exactly one mismatch to it |
| `Panel.VerificationPanel.StartSas` | src/components/views/right_panel/VerificationPanel.js:198-205 | begins a SAS verification and calls verify on the verifier it returns, with no pending check; a failed verify, or a missing verifier (whose verify call throws inside the try), only adds a logged error and, for a missing verifier, no verify call |

## Left out

- JSX, CSS classes, `sdk.getComponent`, `Spinner`, `E2EIcon`, the "Got it" button wired to `onClose`: presentation, abstracted into `Render.Mode`.
- Localised strings (`_t`): messages are the variants of `Render.CancelText` and `Render.Mode`.
- `MatrixClientPeg` lookups: their results are the fields of `Render.Client`.
- QR encoding inside `VerificationQRCode` and all cryptography: owned by other code; VerificationQRCode is not part of this model.
- Promises: `verify()` is modelled as an immediate call with a failure flag; the order in which concurrent awaits settle is not modelled.
- Event emitter internals: `on`/`off` are a subscription flag and `once("show_sas")` a set of verifiers with a pending handler, so a handler registered twice on the same verifier is recorded once.
- `console.error` output: a ghost count of caught failures, and the `Unhandled` mode's diagnostic.
- Panel.VerificationPanel.ComponentWillUnmount: takes the request prop to be the same object from mount to unmount. The source reads `this.props.request` afresh at mount, in the handler and at unmount and has no update hook, so if the parent swaps the request, `off` runs on the new request while the handler stays registered on the old one, whose change events then keep running the handler (reading the new request's verifier, possibly calling verify()) after unmount.
- Panel.VerificationPanel.StartSas: does not model `beginKeyVerification` itself throwing; that call sits before the `try`, so such an exception would escape the handler unlogged.
- Phase values outside the six listed in the prop types.
