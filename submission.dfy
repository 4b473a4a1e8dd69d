/**
 * The submit customization point: the choice among a sender's own
 * submit member, a free submit function, and the bridge that turns an
 * awaitable into a sender; and the bridge itself, which awaits the
 * awaitable in a fire-and-forget coroutine and reports its outcome to the
 * receiver.
 */
module Submission {
  import opened Options
  import opened Signals
  import opened Receivers

  /** How a submit member `s.submit(r)`, or a free `submit(s, r)`, is declared for the pair. */
  datatype SubmitDecl = Missing | ReturnsVoid | ReturnsNonVoid

  /** The compile-time facts about a sender type S and a receiver type R that submit consults. */
  datatype Caps = Caps(
    sender: bool,        // S satisfies the Sender concept that _impl_ requires
    member: SubmitDecl,  // S has a submit member taking R
    free: SubmitDecl,    // a free submit(S, R) is found
    awaitable: bool,     // S is Awaitable
    senderLike: bool)    // S has the sender shape (sender traits with a sender category)

  datatype Strategy = MemberSubmit | FreeSubmit | AwaitableBridge

  /** Whether a strategy can serve, on its own terms. */
  predicate Applicable(s: Strategy, c: Caps, coroutines: bool) {
    match s
    case MemberSubmit => c.member == ReturnsVoid
    case FreeSubmit => c.free == ReturnsVoid
    case AwaitableBridge => coroutines && c.awaitable && !c.senderLike
  }

  /** The priority of a strategy: lower goes first. */
  function Rank(s: Strategy): nat {
    match s
    case MemberSubmit => 0
    case FreeSubmit => 1
    case AwaitableBridge => 2
  }

  /**
   * The strategy _impl_ picks: the first applicable one in priority order,
   * or None when nothing applies. `coroutines` says whether the compiler
   * supports coroutines; without them the bridge does not exist.
   */
  function Choose(c: Caps, coroutines: bool): (r: Option<Strategy>)
    ensures r.Some? ==> Applicable(r.value, c, coroutines)
    ensures r.Some? ==> forall s :: Rank(s) < Rank(r.value) ==> !Applicable(s, c, coroutines)
    ensures r.None? ==> forall s :: !Applicable(s, c, coroutines)
  {
    if c.member == ReturnsVoid then Some(MemberSubmit)
    else if c.free == ReturnsVoid then Some(FreeSubmit)
    else if coroutines && c.awaitable && !c.senderLike then Some(AwaitableBridge)
    else None
  }

  /** submit(s, r) compiles only for a Sender for which some strategy was chosen. */
  predicate WellFormed(c: Caps, coroutines: bool): (w: bool)
    ensures w <==>
      c.sender && (c.member == ReturnsVoid || c.free == ReturnsVoid || (coroutines && c.awaitable && !c.senderLike))
  {
    c.sender && Choose(c, coroutines).Some?
  }

  /** A submit member or free function that returns a value never qualifies. */
  lemma NonVoidSubmitIgnored(c: Caps, coroutines: bool)
    requires c.member == ReturnsNonVoid && c.free != ReturnsVoid
    ensures Choose(c, coroutines) != Some(MemberSubmit)
    ensures Choose(c, coroutines).Some? ==> Choose(c, coroutines) == Some(AwaitableBridge)
  {
  }

  /** The bridge is chosen only for an awaitable that is not sender-shaped, and only with coroutines. */
  lemma BridgeOnlyForAwaitables(c: Caps, coroutines: bool)
    ensures Choose(c, coroutines) == Some(AwaitableBridge) <==>
      c.member != ReturnsVoid && c.free != ReturnsVoid && coroutines && c.awaitable && !c.senderLike
  {
  }

  /** What awaiting the awaitable gives: a void result, a value, or a thrown exception. */
  datatype Awaited = CompletesVoid | CompletesWith(v: Payload) | Raises(e: Exn)

  /**
   * The parts of one bridge run that the bridge does not control:
   * `handoff`, whether copying the awaitable and the receiver into
   * _submit_awaitable_'s by-value parameters throws (this runs in the
   * caller, _impl_, outside every handler); `launch`, whether copying the
   * awaitable into the coroutine's parameter or allocating its frame
   * throws (inside the bridge's outer handler); and how the receiver's
   * value() and done() members react.
   */
  datatype BridgeEnv = BridgeEnv(handoff: Status, launch: Status, onValue: Status, onDone: Status)

  /** The values set_value carries for an awaited result: none for a void result. */
  function ResultArgs(a: Awaited): (vn: seq<Payload>)
    requires !a.Raises?
    ensures a.CompletesVoid? <==> vn == []
    ensures a.CompletesWith? ==> vn == [a.v]
  {
    match a
    case CompletesVoid => []
    case CompletesWith(v) => [v]
  }

  /**
   * What _submit_awaitable_ delivers once its parameters exist, as the
   * header has it: set_value and set_done there are the noexcept
   * customization points, so a throwing value() member is turned into an
   * error and the done signal still follows.
   */
  function BridgeAsWritten(a: Awaited, env: BridgeEnv): (d: seq<Signal>)
    ensures env.launch.Threw? ==> d == [Error(ExceptionPtr(env.launch.exn))]
    ensures env.launch.Returned? && a.Raises? ==> d == [Error(ExceptionPtr(a.e))]
    ensures env.launch.Returned? && !a.Raises? && env.onValue.Returned? && env.onDone.Returned? ==>
      d == [Value(ResultArgs(a)), Done]
  {
    if env.launch.Threw? then [Error(ExceptionPtr(env.launch.exn))]
    else if a.Raises? then [Error(ExceptionPtr(a.e))]
    else Guarded(Value(ResultArgs(a)), env.onValue) + Guarded(Done, env.onDone)
  }

  /** A throwing value() member makes the bridge, as written, send two terminal signals: an error, then done. */
  lemma BridgeAsWrittenSendsTwoTerminals(v: Payload, e: Exn, handoff: Status)
    ensures var d := BridgeAsWritten(CompletesWith(v), BridgeEnv(handoff, Returned, Threw(e), Returned));
      d == [Error(ExceptionPtr(e)), Done] && Terminals(d) == 2 && !Completed(d)
  {
  }

  /**
   * The corrected bridge: a failure to hand the awaitable and the receiver
   * over reaches the receiver as an error, and a throwing value() member is
   * caught by the bridge's own handler. Whatever happens, the receiver gets
   * exactly one terminal signal, and it comes last.
   */
  function Bridge(a: Awaited, env: BridgeEnv): (d: seq<Signal>)
    ensures Completed(d)
    ensures env.handoff.Threw? ==> d == [Error(ExceptionPtr(env.handoff.exn))]
    ensures env.handoff.Returned? && env.launch.Threw? ==> d == [Error(ExceptionPtr(env.launch.exn))]
    ensures env.handoff.Returned? && env.launch.Returned? && a.Raises? ==> d == [Error(ExceptionPtr(a.e))]
    ensures env.handoff.Returned? && env.launch.Returned? && !a.Raises? && env.onValue.Threw? ==>
      d == [Error(ExceptionPtr(env.onValue.exn))]
    ensures env.handoff.Returned? && env.launch.Returned? && !a.Raises? && env.onValue.Returned? ==>
      d == [Value(ResultArgs(a))] + Guarded(Done, env.onDone)
  {
    if env.handoff.Threw? then [Error(ExceptionPtr(env.handoff.exn))]
    else if env.launch.Threw? then [Error(ExceptionPtr(env.launch.exn))]
    else if a.Raises? then [Error(ExceptionPtr(a.e))]
    else if env.onValue.Threw? then [Error(ExceptionPtr(env.onValue.exn))]
    else
      var d := [Value(ResultArgs(a))] + Guarded(Done, env.onDone);
      TerminalsAppend([Value(ResultArgs(a))], Guarded(Done, env.onDone));
      d
  }

  /** Once the hand-off succeeds, both versions agree except when the receiver's value() member throws. */
  lemma BridgeAgreesUnlessValueThrows(a: Awaited, env: BridgeEnv)
    requires env.handoff.Returned?
    requires env.launch.Threw? || a.Raises? || env.onValue.Returned?
    ensures BridgeAsWritten(a, env) == Bridge(a, env)
  {
  }

  /**
   * _submit_awaitable_ as written, after its parameters have been
   * initialized (`env.handoff` belongs to the caller). The receiver object
   * stands for both `to` and its moved copy `rCopy`: they are the same
   * logical receiver.
   */
  method SubmitAwaitableAsWritten(a: Awaited, r: Receiver, env: BridgeEnv)
    modifies r
    ensures r.trace == old(r.trace) + BridgeAsWritten(a, env)
  {
    if env.launch.Threw? {
      // the coroutine never started: the original receiver gets the error
      SetError(r, ExceptionPtr(env.launch.exn));
      return;
    }
    match a {
      case Raises(e) =>
        SetError(r, ExceptionPtr(e));
      case CompletesVoid =>
        SetValue(r, [], env.onValue);
        SetDone(r, env.onDone);
      case CompletesWith(v) =>
        SetValue(r, [v], env.onValue);
        SetDone(r, env.onDone);
    }
  }

  /**
   * The corrected bridge: the hand-off is guarded too, and the receiver's
   * value() and done() members are called inside the coroutine's handler.
   */
  method SubmitAwaitable(a: Awaited, r: Receiver, env: BridgeEnv)
    modifies r
    ensures r.trace == old(r.trace) + Bridge(a, env)
  {
    if env.handoff.Threw? {
      SetError(r, ExceptionPtr(env.handoff.exn));
      return;
    }
    if env.launch.Threw? {
      SetError(r, ExceptionPtr(env.launch.exn));
      return;
    }
    if a.Raises? {
      SetError(r, ExceptionPtr(a.e));
      return;
    }
    var st := r.Accept(Value(ResultArgs(a)), env.onValue);
    if st.Threw? {
      SetError(r, ExceptionPtr(st.exn));
      return;
    }
    st := r.Accept(Done, env.onDone);
    if st.Threw? {
      SetError(r, ExceptionPtr(st.exn));
    }
  }

  /**
   * A sender as submit sees it: its capabilities, the signals its submit
   * member or free submit function delivers to the receiver (code outside
   * this header), and what awaiting it gives.
   */
  datatype Sender = Sender(caps: Caps, viaMember: seq<Signal>, viaFree: seq<Signal>, awaited: Awaited)

  /** What a submit call does: the signals the receiver gets, and whether an exception escapes the call. */
  datatype Outcome = Outcome(delivered: seq<Signal>, escaped: Status)

  /**
   * What submit(s, r) does, as the header has it. On the bridge path a
   * throwing hand-off escapes submit and the receiver gets nothing.
   */
  function SubmittedAsWritten(s: Sender, coroutines: bool, env: BridgeEnv): (o: Outcome)
    requires WellFormed(s.caps, coroutines)
    ensures s.caps.member == ReturnsVoid ==> o == Outcome(s.viaMember, Returned)
    ensures s.caps.member != ReturnsVoid && s.caps.free == ReturnsVoid ==> o == Outcome(s.viaFree, Returned)
    ensures Choose(s.caps, coroutines) == Some(AwaitableBridge) ==>
      (env.handoff.Threw? <==> o.escaped.Threw?) &&
      (env.handoff.Threw? ==> o == Outcome([], env.handoff)) &&
      (env.handoff.Returned? ==> o.delivered == BridgeAsWritten(s.awaited, env))
  {
    match Choose(s.caps, coroutines).value
    case MemberSubmit => Outcome(s.viaMember, Returned)
    case FreeSubmit => Outcome(s.viaFree, Returned)
    case AwaitableBridge =>
      if env.handoff.Threw? then Outcome([], env.handoff)
      else Outcome(BridgeAsWritten(s.awaited, env), Returned)
  }

  /** submit(s, r) as written: runs the chosen strategy and reports an exception that escapes it. */
  method SubmitAsWritten(s: Sender, r: Receiver, coroutines: bool, env: BridgeEnv) returns (escaped: Status)
    requires WellFormed(s.caps, coroutines)
    modifies r
    ensures r.trace == old(r.trace) + SubmittedAsWritten(s, coroutines, env).delivered
    ensures escaped == SubmittedAsWritten(s, coroutines, env).escaped
  {
    var strategy := Choose(s.caps, coroutines).value;
    escaped := Returned;
    match strategy {
      case MemberSubmit =>
        r.trace := r.trace + s.viaMember;
      case FreeSubmit =>
        r.trace := r.trace + s.viaFree;
      case AwaitableBridge =>
        if env.handoff.Threw? {
          // the by-value parameters are initialized in the caller, outside every handler
          escaped := env.handoff;
          return;
        }
        SubmitAwaitableAsWritten(s.awaited, r, env);
    }
  }

  /**
   * Submit as written completes a pending receiver when nothing escapes and
   * the receiver's value() member does not throw on the bridge path; when
   * the hand-off throws, the receiver is left pending.
   */
  lemma SubmitAsWrittenCompletes(s: Sender, coroutines: bool, env: BridgeEnv, t: seq<Signal>)
    requires WellFormed(s.caps, coroutines) && Pending(t)
    requires s.caps.member == ReturnsVoid ==> Completed(s.viaMember)
    requires s.caps.member != ReturnsVoid && s.caps.free == ReturnsVoid ==> Completed(s.viaFree)
    ensures var o := SubmittedAsWritten(s, coroutines, env);
      o.escaped.Threw? ==> o.delivered == [] && Pending(t + o.delivered)
    ensures var o := SubmittedAsWritten(s, coroutines, env);
      o.escaped.Returned? && (Choose(s.caps, coroutines) == Some(AwaitableBridge) ==> env.onValue.Returned?) ==>
      Completed(t + o.delivered)
  {
    var o := SubmittedAsWritten(s, coroutines, env);
    if o.escaped.Threw? {
      assert t + o.delivered == t;
    } else if Choose(s.caps, coroutines) == Some(AwaitableBridge) && env.onValue.Returned? {
      BridgeAgreesUnlessValueThrows(s.awaited, env);
      FinishPending(t, o.delivered);
    } else if Choose(s.caps, coroutines) != Some(AwaitableBridge) {
      FinishPending(t, o.delivered);
    }
  }

  /** An awaitable whose hand-off throws: as written the exception escapes submit and the receiver sees nothing. */
  lemma SubmitAsWrittenLosesHandoffFailure(v: Payload, e: Exn)
    ensures var s := Sender(Caps(true, Missing, Missing, true, false), [], [], CompletesWith(v));
      var env := BridgeEnv(Threw(e), Returned, Returned, Returned);
      WellFormed(s.caps, true) &&
      SubmittedAsWritten(s, true, env) == Outcome([], Threw(e)) &&
      Submitted(s, true, env) == [Error(ExceptionPtr(e))]
  {
  }

  /**
   * The signals the corrected submit(s, r) sends to the receiver. Nothing
   * escapes the corrected bridge; a throwing member or free submit is
   * code outside this header and is not modelled.
   */
  function Submitted(s: Sender, coroutines: bool, env: BridgeEnv): (d: seq<Signal>)
    requires WellFormed(s.caps, coroutines)
    ensures s.caps.member == ReturnsVoid ==> d == s.viaMember
    ensures s.caps.member != ReturnsVoid && s.caps.free == ReturnsVoid ==> d == s.viaFree
    ensures Choose(s.caps, coroutines) == Some(AwaitableBridge) ==> d == Bridge(s.awaited, env)
  {
    match Choose(s.caps, coroutines).value
    case MemberSubmit => s.viaMember
    case FreeSubmit => s.viaFree
    case AwaitableBridge => Bridge(s.awaited, env)
  }

  /** The corrected submit(s, r): runs the chosen strategy against the receiver, with the corrected bridge. */
  method Submit(s: Sender, r: Receiver, coroutines: bool, env: BridgeEnv)
    requires WellFormed(s.caps, coroutines)
    modifies r
    ensures r.trace == old(r.trace) + Submitted(s, coroutines, env)
  {
    var strategy := Choose(s.caps, coroutines).value;
    match strategy {
      case MemberSubmit =>
        r.trace := r.trace + s.viaMember;
      case FreeSubmit =>
        r.trace := r.trace + s.viaFree;
      case AwaitableBridge =>
        SubmitAwaitable(s.awaited, r, env);
    }
  }

  /**
   * The corrected submit completes a pending receiver with exactly one
   * terminal signal and nothing after it, provided the sender's own submit
   * code keeps the protocol.
   */
  lemma SubmitCompletes(s: Sender, coroutines: bool, env: BridgeEnv, t: seq<Signal>)
    requires WellFormed(s.caps, coroutines) && Pending(t)
    requires s.caps.member == ReturnsVoid ==> Completed(s.viaMember)
    requires s.caps.member != ReturnsVoid && s.caps.free == ReturnsVoid ==> Completed(s.viaFree)
    ensures Completed(t + Submitted(s, coroutines, env))
    ensures var u := t + Submitted(s, coroutines, env);
      forall i :: 0 <= i < |u| - 1 ==> !IsTerminal(u[i])
  {
    FinishPending(t, Submitted(s, coroutines, env));
    CompletedEndsOnce(t + Submitted(s, coroutines, env));
  }

  /** A member submit is used even when a free one exists as well, in both versions of submit. */
  lemma MemberBeatsFree(s: Sender, coroutines: bool, env: BridgeEnv)
    requires s.caps.sender && s.caps.member == ReturnsVoid && s.caps.free == ReturnsVoid
    ensures WellFormed(s.caps, coroutines)
    ensures Submitted(s, coroutines, env) == s.viaMember
    ensures SubmittedAsWritten(s, coroutines, env) == Outcome(s.viaMember, Returned)
  {
  }
}
