/**
 * The VerificationPanel component's own state and event handlers. The request
 * and its verifiers belong to the verification engine: each handler receives
 * what the request reports at that moment. verify() is recorded in a ghost log
 * together with whether it failed; a failure is caught and only logged.
 */
module Panel {
  import opened Wrappers
  import opened Engine
  import opened Render
  import opened Watcher

  /** The user's answer relayed to a SAS event: confirm() or mismatch(). */
  datatype SasReply = Confirm(event: SasEvent) | Mismatch(event: SasEvent)

  class VerificationPanel {
    /** `_hasVerifier`: the guard of _onRequestChange. */
    var hasVerifier: bool
    /** `state.sasEvent`: the last `show_sas` event received; never cleared. */
    var sasEvent: Option<SasEvent>
    /** Whether _onRequestChange is registered on the request's "change" event. */
    var subscribed: bool
    /** Verifiers on which a `once("show_sas")` handler of this panel is pending. */
    var sasListeners: set<VerifierId>

    /** Every verify() call issued, by the watcher or by _startSAS, in order. */
    ghost var verifyCalls: seq<VerifierId>
    /** Number of failed verify() calls caught and logged. */
    ghost var errorsLogged: nat
    /** confirm()/mismatch() calls relayed to SAS events. */
    ghost var replies: seq<SasReply>
    /** What beginKeyVerification returned to each _startSAS (None: null or undefined). */
    ghost var startedVerifiers: seq<Option<VerifierId>>

    /** The guard and the verify() log, as the pure watcher sees them. */
    ghost function WatcherTrace(): Trace
      reads this
    {
      Trace(hasVerifier, verifyCalls)
    }

    /** What the panel renders for the given props. */
    function View(props: Props, client: Client): Mode
      reads this
    {
      Render.Render(props, sasEvent, client)
    }

    constructor ()
      ensures !hasVerifier && sasEvent == None && !subscribed && sasListeners == {}
      ensures verifyCalls == [] && errorsLogged == 0 && replies == [] && startedVerifiers == []
    {
      hasVerifier := false;
      sasEvent := None;
      subscribed := false;
      sasListeners := {};
      verifyCalls := [];
      errorsLogged := 0;
      replies := [];
      startedVerifiers := [];
    }

    /**
     * _onRequestChange: on the edge "no verifier -> a verifier" subscribe once to
     * the verifier's `show_sas` and call its verify(); otherwise only update the guard.
     */
    method OnRequestChange(request: Request, verifyFails: bool)
      modifies this
      ensures WatcherTrace() == Extend(old(WatcherTrace()), request.verifier)
      ensures var attached := OnChange(old(hasVerifier), request.verifier).attached;
        sasListeners == old(sasListeners) + (if attached.Some? then {attached.value} else {}) &&
        errorsLogged == old(errorsLogged) + (if attached.Some? && verifyFails then 1 else 0)
      ensures sasEvent == old(sasEvent) && subscribed == old(subscribed)
      ensures replies == old(replies) && startedVerifiers == old(startedVerifiers)
    {
      var hadVerifier := hasVerifier;
      hasVerifier := request.verifier.Some?;
      if !hadVerifier && hasVerifier {
        sasListeners := sasListeners + {request.verifier.value};
        verifyCalls := verifyCalls + [request.verifier.value];
        if verifyFails {
          errorsLogged := errorsLogged + 1;
        }
      }
    }

    /** The request emits "change": the handler runs only while subscribed. */
    method EmitChange(request: Request, verifyFails: bool)
      modifies this
      ensures WatcherTrace() == if old(subscribed) then Extend(old(WatcherTrace()), request.verifier) else old(WatcherTrace())
      ensures var attached := if old(subscribed) then OnChange(old(hasVerifier), request.verifier).attached else None;
        sasListeners == old(sasListeners) + (if attached.Some? then {attached.value} else {}) &&
        errorsLogged == old(errorsLogged) + (if attached.Some? && verifyFails then 1 else 0)
      ensures sasEvent == old(sasEvent) && subscribed == old(subscribed)
      ensures replies == old(replies) && startedVerifiers == old(startedVerifiers)
    {
      if subscribed {
        OnRequestChange(request, verifyFails);
      }
    }

    /** componentDidMount: subscribe to "change", then evaluate the request once. */
    method ComponentDidMount(request: Request, verifyFails: bool)
      modifies this
      ensures subscribed
      ensures WatcherTrace() == Extend(old(WatcherTrace()), request.verifier)
      ensures var attached := OnChange(old(hasVerifier), request.verifier).attached;
        sasListeners == old(sasListeners) + (if attached.Some? then {attached.value} else {}) &&
        errorsLogged == old(errorsLogged) + (if attached.Some? && verifyFails then 1 else 0)
      ensures sasEvent == old(sasEvent)
      ensures replies == old(replies) && startedVerifiers == old(startedVerifiers)
    {
      subscribed := true;
      OnRequestChange(request, verifyFails);
    }

    /** componentWillUnmount: remove the "change" handler; nothing else changes. */
    method ComponentWillUnmount()
      modifies this`subscribed
      ensures !subscribed
    {
      subscribed := false;
    }

    /** _onVerifierShowSas: store the event. */
    method OnVerifierShowSas(e: SasEvent)
      modifies this`sasEvent
      ensures sasEvent == Some(e)
    {
      sasEvent := Some(e);
    }

    /** A verifier emits `show_sas`: a pending once-handler fires and is removed. */
    method EmitShowSas(e: SasEvent)
      modifies this`sasEvent, this`sasListeners
      ensures sasListeners == old(sasListeners) - {e.verifier}
      ensures sasEvent == if e.verifier in old(sasListeners) then Some(e) else old(sasEvent)
    {
      if e.verifier in sasListeners {
        sasListeners := sasListeners - {e.verifier};
        OnVerifierShowSas(e);
      }
    }

    /** _onSasMatchesClick: dereferences the stored event without a guard. */
    method OnSasMatchesClick()
      requires sasEvent.Some?
      modifies this`replies
      ensures replies == old(replies) + [Confirm(sasEvent.value)]
    {
      replies := replies + [Confirm(sasEvent.value)];
    }

    /** _onSasMismatchesClick: dereferences the stored event without a guard. */
    method OnSasMismatchesClick()
      requires sasEvent.Some?
      modifies this`replies
      ensures replies == old(replies) + [Mismatch(sasEvent.value)]
    {
      replies := replies + [Mismatch(sasEvent.value)];
    }

    /**
     * _startSAS: begin a SAS verification (the engine hands back `verifier`) and
     * call its verify(), with no check of whether the panel is pending and
     * without touching the guard. A missing verifier makes the verify() call
     * throw inside the try, so it is caught and logged like a failed verify().
     */
    method StartSas(verifier: Option<VerifierId>, verifyFails: bool)
      modifies this`startedVerifiers, this`verifyCalls, this`errorsLogged
      ensures startedVerifiers == old(startedVerifiers) + [verifier]
      ensures verifyCalls == old(verifyCalls) + if verifier.Some? then [verifier.value] else []
      ensures errorsLogged == old(errorsLogged) + if verifier.None? || verifyFails then 1 else 0
    {
      startedVerifiers := startedVerifiers + [verifier];
      if verifier.Some? {
        verifyCalls := verifyCalls + [verifier.value];
      }
      if verifier.None? || verifyFails {
        errorsLogged := errorsLogged + 1;
      }
    }
  }

  /**
   * A client: mount while READY, a verifier appears and is verified once,
   * repeated change events add nothing, the SAS comparison shows and is
   * confirmed, DONE shows success; after unmount no change event reaches the panel.
   */
  method VerifyByEmojiFlow(props: Props, client: Client, v: VerifierId, w: VerifierId, sas: seq<nat>)
  {
    var panel := new VerificationPanel();
    var request := props.request;
    panel.ComponentDidMount(request.(verifier := None), false);
    assert panel.View(props.(phase := Ready), client).action == StartEmojiButton;

    panel.EmitChange(request.(verifier := Some(v)), false);
    assert panel.verifyCalls == [v] && v in panel.sasListeners;
    panel.EmitChange(request.(verifier := Some(v)), false);
    panel.EmitChange(request.(verifier := Some(w)), false);
    assert panel.verifyCalls == [v];
    assert panel.View(props.(phase := Started), client).action == Spinner;

    panel.EmitShowSas(SasEvent(v, sas));
    assert panel.View(props.(phase := Started), client) == CompareEmoji(DisplayName(props.member), sas);
    panel.OnSasMatchesClick();
    assert panel.replies == [Confirm(SasEvent(v, sas))];
    assert panel.View(props.(phase := Done), client) == ShowVerified(DisplayName(props.member));

    panel.ComponentWillUnmount();
    panel.EmitChange(request.(verifier := None), false);
    panel.EmitChange(request.(verifier := Some(w)), false);
    assert panel.verifyCalls == [v];
  }
}
