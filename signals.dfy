/**
 * The four receiver signals of pushmi, the exceptions that travel through
 * them, and the receiver protocol: any number of value and starting
 * signals, then at most one terminal signal (error or done), which is last.
 */
module Signals {

  /** A value passed through set_value or set_starting, or a plain error object passed to set_error. */
  type Payload = int

  /** The exception an std::exception_ptr refers to. */
  datatype Exn =
    | Raised(code: nat)          // thrown by user code: a receiver member, an awaitable, a copy or an allocation
    | Boxed(obj: Payload)        // what std::make_exception_ptr makes of a plain error object
    | PromiseAlreadySatisfied    // the std::future_error a second assignment to an std::promise throws

  /** The argument of set_error: an std::exception_ptr, or an error object of any other type. */
  datatype ErrorArg = ExceptionPtr(exn: Exn) | ErrorObject(obj: Payload)

  datatype Signal =
    | Value(args: seq<Payload>)
    | Error(err: ErrorArg)
    | Done
    | Starting(up: Payload)

  /** How a call ended: it returned normally, or an exception escaped it. */
  datatype Status = Returned | Threw(exn: Exn)

  predicate IsTerminal(s: Signal) {
    s.Error? || s.Done?
  }

  /** The number of terminal signals in a trace. */
  function Terminals(t: seq<Signal>): (n: nat)
    ensures n <= |t|
    ensures n == 0 <==> forall i :: 0 <= i < |t| ==> !IsTerminal(t[i])
  {
    if t == [] then 0
    else (if IsTerminal(t[0]) then 1 else 0) + Terminals(t[1..])
  }

  /** The receiver has not yet seen its terminal signal. */
  predicate Pending(t: seq<Signal>) {
    Terminals(t) == 0
  }

  /** The receiver has seen exactly one terminal signal, and nothing after it. */
  predicate Completed(t: seq<Signal>) {
    Terminals(t) == 1 && IsTerminal(t[|t| - 1])
  }

  lemma {:induction false} TerminalsAppend(a: seq<Signal>, b: seq<Signal>)
    ensures Terminals(a + b) == Terminals(a) + Terminals(b)
  {
    if a == [] {
      assert a + b == b;
    } else {
      assert (a + b)[1..] == a[1..] + b;
      TerminalsAppend(a[1..], b);
    }
  }

  /** In a completed trace every signal before the last is a value or a starting signal. */
  lemma {:induction false} CompletedEndsOnce(t: seq<Signal>)
    requires Completed(t)
    ensures forall i :: 0 <= i < |t| - 1 ==> !IsTerminal(t[i])
  {
    var front, last := t[..|t| - 1], [t[|t| - 1]];
    assert t == front + last;
    TerminalsAppend(front, last);
    assert Terminals(last) == 1;
    assert Terminals(front) == 0;
    forall i | 0 <= i < |t| - 1
      ensures !IsTerminal(t[i])
    {
      assert t[i] == front[i];
    }
  }

  /** Appending a completed delivery to a pending trace completes the trace. */
  lemma FinishPending(t: seq<Signal>, d: seq<Signal>)
    requires Pending(t) && Completed(d)
    ensures Completed(t + d)
  {
    TerminalsAppend(t, d);
    assert (t + d)[|t + d| - 1] == d[|d| - 1];
  }
}
