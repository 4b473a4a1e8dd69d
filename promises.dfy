/**
 * The adapter that makes an std::promise a receiver. The promise is a
 * single-assignment slot: set_done leaves it alone, set_error stores an
 * exception (wrapping a plain error object first), set_value stores the
 * value. A second set_value makes std::promise throw std::future_error,
 * which the adapter lets escape; the set_error adapters are noexcept, so a
 * second assignment through them ends the program (std::terminate).
 */
module Promises {
  import opened Options
  import opened Signals

  datatype Slot<T> = Unset | HoldsValue(v: T) | HoldsException(e: Exn)

  /** A call of one of the adapter's overloads. */
  datatype AdapterCall<T> = DoneCall | ErrorCall(err: ErrorArg) | ValueCall(v: T)

  /** What a call does: the new slot and how the call ended, or std::terminate. */
  datatype Effect<T> = Effect(slot: Slot<T>, status: Status) | Terminated

  /** The exception set_error stores: an std::exception_ptr as it is, any other error object wrapped. */
  function Stored(err: ErrorArg): (e: Exn)
    ensures err.ExceptionPtr? ==> e == err.exn
    ensures err.ErrorObject? ==> e == Boxed(err.obj)
  {
    match err
    case ExceptionPtr(e) => e
    case ErrorObject(x) => Boxed(x)
  }

  /** One adapter call on a promise whose slot is `s`. */
  function Step<T>(s: Slot<T>, c: AdapterCall<T>): (r: Effect<T>)
    ensures c.DoneCall? ==> r == Effect(s, Returned)
    ensures c.ErrorCall? ==> (r.Effect? <==> s.Unset?)
    ensures c.ErrorCall? && r.Effect? ==> r == Effect(HoldsException(Stored(c.err)), Returned)
    ensures c.ValueCall? ==> r.Effect? && (r.status == Returned <==> s.Unset?)
    ensures c.ValueCall? && s.Unset? ==> r.slot == HoldsValue(c.v)
    ensures c.ValueCall? && !s.Unset? ==> r == Effect(s, Threw(PromiseAlreadySatisfied))
  {
    match c
    case DoneCall => Effect(s, Returned)
    case ErrorCall(err) =>
      if s.Unset? then Effect(HoldsException(Stored(err)), Returned) else Terminated
    case ValueCall(v) =>
      if s.Unset? then Effect(HoldsValue(v), Returned) else Effect(s, Threw(PromiseAlreadySatisfied))
  }

  /** A sequence of adapter calls; None if one of them terminated the program. */
  function Run<T>(s: Slot<T>, calls: seq<AdapterCall<T>>): Option<Slot<T>>
    decreases |calls|
  {
    if calls == [] then Some(s)
    else match Step(s, calls[0])
      case Terminated => None
      case Effect(next, _) => Run(next, calls[1..])
  }

  /** Single assignment: once the slot is set, no later call changes it (the program may end instead). */
  lemma {:induction false} AssignedOnce<T>(s: Slot<T>, calls: seq<AdapterCall<T>>)
    requires !s.Unset?
    ensures Run(s, calls) == None || Run(s, calls) == Some(s)
  {
    if calls != [] {
      match Step(s, calls[0])
      case Terminated =>
      case Effect(next, _) =>
        AssignedOnce(next, calls[1..]);
    }
  }

  /** set_done never resolves the promise and never fails, however often it is called. */
  lemma {:induction false} DoneNeverResolves<T>(s: Slot<T>, calls: seq<AdapterCall<T>>)
    requires forall i :: 0 <= i < |calls| ==> calls[i].DoneCall?
    ensures Run(s, calls) == Some(s)
  {
    if calls != [] {
      DoneNeverResolves(s, calls[1..]);
    }
  }

  /** The first value or error reaches the slot; what comes after cannot replace it. */
  lemma FirstAssignmentWins<T>(first: AdapterCall<T>, rest: seq<AdapterCall<T>>)
    requires !first.DoneCall?
    ensures var s := Step(Unset, first).slot;
      !s.Unset? && (Run(Unset, [first] + rest) == None || Run(Unset, [first] + rest) == Some(s))
  {
    var s := Step(Unset, first).slot;
    assert ([first] + rest)[1..] == rest;
    AssignedOnce(s, rest);
  }

  /** An std::promise<T>. */
  class Promise<T> {
    var slot: Slot<T>

    constructor ()
      ensures slot == Unset
    {
      slot := Unset;
    }

    /** set_done on a promise: a no-op, since std::promise has no way to say "done". */
    method SetDone()
      ensures unchanged(this)
    {
    }

    /** set_error on a promise; noexcept, so only an unset promise can take it. */
    method SetError(err: ErrorArg)
      requires slot.Unset?
      modifies this
      ensures Step(old(slot), ErrorCall(err)) == Effect(slot, Returned)
    {
      slot := HoldsException(Stored(err));
    }

    /** set_value on a promise; a second assignment throws std::future_error. */
    method SetValue(u: T) returns (st: Status)
      modifies this
      ensures Step(old(slot), ValueCall(u)) == Effect(slot, st)
    {
      if slot.Unset? {
        slot := HoldsValue(u);
        st := Returned;
      } else {
        st := Threw(PromiseAlreadySatisfied);
      }
    }
  }

  /** An std::promise<void>: set_value takes no payload. */
  class VoidPromise {
    var slot: Slot<()>

    constructor ()
      ensures slot == Unset
    {
      slot := Unset;
    }

    method SetDone()
      ensures unchanged(this)
    {
    }

    method SetError(err: ErrorArg)
      requires slot.Unset?
      modifies this
      ensures Step(old(slot), ErrorCall(err)) == Effect(slot, Returned)
    {
      slot := HoldsException(Stored(err));
    }

    method SetValue() returns (st: Status)
      modifies this
      ensures Step(old(slot), ValueCall(())) == Effect(slot, st)
    {
      if slot.Unset? {
        slot := HoldsValue(());
        st := Returned;
      } else {
        st := Threw(PromiseAlreadySatisfied);
      }
    }
  }
}
