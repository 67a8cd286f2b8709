/**
 * The verifier-attach guard of VerificationPanel._onRequestChange, as a pure
 * state machine. The guard field `_hasVerifier` only tracks whether the
 * request has SOME verifier: it detects the edge "no verifier -> a verifier",
 * and on that edge the panel subscribes to `show_sas` and calls verify().
 * A change event reports what `request.verifier` holds at that moment.
 */
module Watcher {
  import opened Wrappers
  import opened Engine

  /** The outcome of one change event: the new guard value, and the verifier attached on this event if any. */
  datatype Step = Step(hasVerifier: bool, attached: Option<VerifierId>)

  /** The guard state and the log of verify() calls issued by the watcher so far. */
  datatype Trace = Trace(hasVerifier: bool, verifyCalls: seq<VerifierId>)

  /** One run of _onRequestChange. */
  function OnChange(hadVerifier: bool, verifier: Option<VerifierId>): (s: Step)
    ensures s.hasVerifier <==> verifier.Some?
    ensures s.attached.Some? <==> !hadVerifier && verifier.Some?
    ensures s.attached.Some? ==> s.attached == verifier
  {
    var hasVerifier := verifier.Some?;
    Step(hasVerifier, if !hadVerifier && hasVerifier then verifier else None)
  }

  /** The trace after one more change event. */
  function Extend(t: Trace, verifier: Option<VerifierId>): Trace
  {
    var s := OnChange(t.hasVerifier, verifier);
    Trace(s.hasVerifier, t.verifyCalls + if s.attached.Some? then [s.attached.value] else [])
  }

  /** The trace after a sequence of change events; the verify() log only grows. */
  function Run(start: Trace, events: seq<Option<VerifierId>>): (t: Trace)
    ensures start.verifyCalls <= t.verifyCalls
    ensures |t.verifyCalls| <= |start.verifyCalls| + |events|
    decreases |events|
  {
    if events == [] then start
    else Extend(Run(start, events[..|events| - 1]), events[|events| - 1])
  }

  /** Event i shows a verifier where the previous event (or the initial guard) showed none. */
  ghost predicate RisingEdge(had: bool, events: seq<Option<VerifierId>>, i: nat)
    requires i < |events|
  {
    events[i].Some? && (if i == 0 then !had else events[i - 1].None?)
  }

  /** Reference definition, from the events alone: the verifiers seen at rising edges, in order. */
  ghost function EdgeVerifiers(had: bool, events: seq<Option<VerifierId>>): seq<VerifierId>
    decreases |events|
  {
    if events == [] then []
    else
      var n := |events| - 1;
      EdgeVerifiers(had, events[..n]) + if RisingEdge(had, events, n) then [events[n].value] else []
  }

  /** Number of change events on which the request had no verifier. */
  function NullEvents(events: seq<Option<VerifierId>>): nat
    decreases |events|
  {
    if events == [] then 0
    else NullEvents(events[..|events| - 1]) + if events[|events| - 1].None? then 1 else 0
  }

  /**
   * The watcher issues verify() exactly at the rising edges of "the request has
   * a verifier", on the verifier present there; afterwards the guard equals
   * "the last event showed a verifier".
   */
  lemma {:induction false} RunIsEdgeDetector(start: Trace, events: seq<Option<VerifierId>>)
    ensures Run(start, events).verifyCalls == start.verifyCalls + EdgeVerifiers(start.hasVerifier, events)
    ensures Run(start, events).hasVerifier == if events == [] then start.hasVerifier else events[|events| - 1].Some?
    decreases |events|
  {
    if events != [] {
      var n := |events| - 1;
      var pre := events[..n];
      RunIsEdgeDetector(start, pre);
      assert forall i :: 0 <= i < n ==> RisingEdge(start.hasVerifier, pre, i) == RisingEdge(start.hasVerifier, events, i);
      if n > 0 {
        assert pre[n - 1] == events[n - 1];
      }
    }
  }

  /**
   * Once the guard is armed, any number of further change events that all
   * report a verifier (the same one or another) issue no verify() call.
   */
  lemma {:induction false} SteadyVerifierNoMoreCalls(start: Trace, events: seq<Option<VerifierId>>)
    requires start.hasVerifier
    requires forall i :: 0 <= i < |events| ==> events[i].Some?
    ensures Run(start, events) == start
    decreases |events|
  {
    if events != [] {
      SteadyVerifierNoMoreCalls(start, events[..|events| - 1]);
    }
  }

  /**
   * From an unarmed guard, a run of events that all report a verifier issues
   * exactly one verify(), on the first verifier: replacing that verifier by
   * another one does not re-arm the guard.
   */
  lemma {:induction false} ReplacementDoesNotRearm(start: Trace, events: seq<Option<VerifierId>>)
    requires !start.hasVerifier
    requires events != []
    requires forall i :: 0 <= i < |events| ==> events[i].Some?
    ensures Run(start, events).verifyCalls == start.verifyCalls + [events[0].value]
    ensures Run(start, events).hasVerifier
    decreases |events|
  {
    var n := |events| - 1;
    if n == 0 {
      assert events[..0] == [];
    } else {
      ReplacementDoesNotRearm(start, events[..n]);
    }
  }

  /**
   * A verifier reported right after an event without one is verified, whatever
   * came before: the null event re-arms the guard.
   */
  lemma NullRearms(start: Trace, events: seq<Option<VerifierId>>, v: VerifierId)
    requires |events| >= 2
    requires events[|events| - 2] == None && events[|events| - 1] == Some(v)
    ensures !Run(start, events[..|events| - 1]).hasVerifier
    ensures Run(start, events).verifyCalls == Run(start, events[..|events| - 1]).verifyCalls + [v]
  {
    var pre := events[..|events| - 1];
    assert pre[|pre| - 1] == None;
  }

  /**
   * Each verify() after the first needs an event without a verifier before it:
   * the calls, plus one while the guard is down, never exceed the initial
   * allowance plus the events that showed no verifier.
   */
  lemma {:induction false} CallsBoundedByResets(start: Trace, events: seq<Option<VerifierId>>)
    ensures var t := Run(start, events);
      |t.verifyCalls| + (if t.hasVerifier then 0 else 1) <=
      |start.verifyCalls| + (if start.hasVerifier then 0 else 1) + NullEvents(events)
    decreases |events|
  {
    if events != [] {
      CallsBoundedByResets(start, events[..|events| - 1]);
    }
  }

  /** Handling the same change twice is the same as handling it once. */
  lemma ChangeIdempotent(t: Trace, v: Option<VerifierId>)
    ensures Extend(Extend(t, v), v) == Extend(t, v)
  {
  }
}
