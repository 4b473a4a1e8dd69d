/**
 * A receiver as an object that records the signals it accepts, its own
 * members (done, error, value, starting), and the customization-point
 * objects set_done, set_error, set_value and set_starting that call them.
 * The wrappers for done, value and starting catch an exception thrown by
 * the receiver's member and hand it to the same receiver's error channel;
 * they have no exception result, because they never throw.
 */
module Receivers {
  import opened Signals

  /**
   * What set_done, set_value or set_starting leaves on the receiver when
   * the receiver's own member reacts with `reaction`.
   */
  function Guarded(sig: Signal, reaction: Status): (d: seq<Signal>)
    requires !sig.Error?
    ensures |d| == 1
    ensures reaction.Returned? ==> d == [sig]
    ensures reaction.Threw? ==> d == [Error(ExceptionPtr(reaction.exn))]
  {
    match reaction
    case Returned => [sig]
    case Threw(e) => [Error(ExceptionPtr(e))]
  }

  class Receiver {
    /** Every signal the receiver has accepted, in order. */
    var trace: seq<Signal>

    constructor ()
      ensures trace == []
    {
      trace := [];
    }

    /**
     * The receiver's own done(), value(vn...) or starting(up) member: it
     * accepts `sig` unless `reaction` says that it throws.
     */
    method Accept(sig: Signal, reaction: Status) returns (st: Status)
      requires !sig.Error?
      modifies this
      ensures st == reaction
      ensures trace == old(trace) + (if reaction.Returned? then [sig] else [])
    {
      if reaction.Returned? {
        trace := trace + [sig];
      }
      st := reaction;
    }

    /** The receiver's own error(e) member, the final sink: it takes `err` as given. */
    method AcceptError(err: ErrorArg)
      modifies this
      ensures trace == old(trace) + [Error(err)]
    {
      trace := trace + [Error(err)];
    }
  }

  /** set_done: a throwing done() becomes one error carrying that exception. */
  method SetDone(r: Receiver, reaction: Status)
    modifies r
    ensures r.trace == old(r.trace) + Guarded(Done, reaction)
  {
    var st := r.Accept(Done, reaction);
    if st.Threw? {
      r.AcceptError(ExceptionPtr(st.exn));
    }
  }

  /** set_error: forwards the error unchanged, without catching anything. */
  method SetError(r: Receiver, err: ErrorArg)
    modifies r
    ensures r.trace == old(r.trace) + [Error(err)]
  {
    r.AcceptError(err);
  }

  /** set_value: a throwing value(vn...) becomes one error carrying that exception. */
  method SetValue(r: Receiver, vn: seq<Payload>, reaction: Status)
    modifies r
    ensures r.trace == old(r.trace) + Guarded(Value(vn), reaction)
  {
    var st := r.Accept(Value(vn), reaction);
    if st.Threw? {
      r.AcceptError(ExceptionPtr(st.exn));
    }
  }

  /** set_starting: a throwing starting(up) becomes one error carrying that exception. */
  method SetStarting(r: Receiver, up: Payload, reaction: Status)
    modifies r
    ensures r.trace == old(r.trace) + Guarded(Starting(up), reaction)
  {
    var st := r.Accept(Starting(up), reaction);
    if st.Threw? {
      r.AcceptError(ExceptionPtr(st.exn));
    }
  }

  /** A pending receiver that is sent done stays within the protocol: it is completed. */
  lemma DoneCompletes(t: seq<Signal>, reaction: Status)
    requires Pending(t)
    ensures Completed(t + Guarded(Done, reaction))
  {
    FinishPending(t, Guarded(Done, reaction));
  }

  /** set_value and set_starting keep a pending receiver pending exactly when the member returns. */
  lemma NonTerminalKeepsPending(t: seq<Signal>, sig: Signal, reaction: Status)
    requires Pending(t) && (sig.Value? || sig.Starting?)
    ensures Pending(t + Guarded(sig, reaction)) <==> reaction.Returned?
    ensures reaction.Threw? ==> Completed(t + Guarded(sig, reaction))
  {
    TerminalsAppend(t, Guarded(sig, reaction));
    if reaction.Threw? {
      FinishPending(t, Guarded(sig, reaction));
    }
  }
}
