/** The operator-signal dispatch of `watchSignals` in main.go: which
    subscribed operating-system signal leads to which action on the
    sessions. Signals are their Linux numbers. */
module Signals {

  type Signal = int

  const SIGINT: Signal := 2
  const SIGUSR1: Signal := 10
  const SIGTERM: Signal := 15

  /** The signals the handler registers for with signal.Notify. */
  const SUBSCRIBED: set<Signal> := {SIGINT, SIGTERM, SIGUSR1}

  /** What the handler does with one received signal. */
  datatype Action =
    | CancelSession   // cancel the context of the session that owns the handler
    | StartLite       // run a new, depth-reduced session
    | NoAction

  /** The `switch` of the handler loop; a signal with no `case` falls through
      to nothing. */
  function Dispatch(sig: Signal): (a: Action)
    ensures a == CancelSession <==> sig == SIGINT
    ensures a == StartLite <==> sig == SIGUSR1
    ensures a == NoAction <==> sig != SIGINT && sig != SIGUSR1
  {
    if sig == SIGINT then CancelSession
    else if sig == SIGUSR1 then StartLite
    else NoAction
  }

  /** Every subscribed signal but SIGTERM does something; SIGTERM, though
      registered, has no case and is ignored, so it neither cancels the
      session nor starts a lite one. */
  lemma SubscribedActions(sig: Signal)
    requires sig in SUBSCRIBED
    ensures Dispatch(sig) == NoAction <==> sig == SIGTERM
  {
  }

  /** The handler loop over the signals it receives, in order: the actions
      it takes. SIGINT may arrive more than once; each one cancels again. */
  function Actions(sigs: seq<Signal>): (acts: seq<Action>)
    ensures |acts| == |sigs|
    ensures forall i :: 0 <= i < |sigs| ==> acts[i] == Dispatch(sigs[i])
  {
    if sigs == [] then [] else [Dispatch(sigs[0])] + Actions(sigs[1..])
  }

  /** A stream of received signals cancels the session iff it holds a SIGINT. */
  lemma {:induction false} CancelsIffInterrupted(sigs: seq<Signal>)
    ensures CancelSession in Actions(sigs) <==> SIGINT in sigs
  {
    var acts := Actions(sigs);
    if CancelSession in acts {
      var i :| 0 <= i < |acts| && acts[i] == CancelSession;
      assert sigs[i] == SIGINT;
    }
    if SIGINT in sigs {
      var i :| 0 <= i < |sigs| && sigs[i] == SIGINT;
      assert acts[i] == CancelSession;
    }
  }
}
