# pushmi extension points, modelled in Dafny

This project models the customization points of folly's pushmi library
(`folly/experimental/pushmi/extension_points.h`): the rules by which a
receiver is sent its signals (value, error, done, starting), how a sender
is submitted to a receiver, how an awaitable is turned into a sender, and
how an `std::promise` is made into a receiver.

The C++ works by compile-time overload resolution. Here the types'
capabilities are data, exceptions are explicit `Status` values, and a
receiver is an object whose `trace` field records, in order, the signals
it accepted.

- `Signals` (signals.dfy): payloads, exceptions, the `std::exception_ptr`
  versus plain-object error argument, and the four signals. It also holds
  the receiver protocol. A trace is `Pending` while it has no terminal
  signal (error or done). It is `Completed` when it has exactly one
  terminal signal and that signal comes last.
- `Receivers` (receivers.dfy): class `Receiver` with the receiver's own
  members, and the customization-point objects `SetDone`, `SetError`,
  `SetValue` and `SetStarting`. The done, value and starting wrappers
  redirect a throwing member to one error on the same receiver. They have no
  exception result, because they are `noexcept`. `SetError` forwards its
  argument unchanged.
- `Dispatch` (dispatch.dfy): which body a call in namespace `_adl`
  resolves to. The choices are the argument's own member, the member of its
  referent (one dereference, for pointer-like arguments), invoking the
  argument (`make_strand` on a nullary callable), or an `std::promise`
  overload.
- `Promises` (promises.dfy): the `std::promise` adapter as a
  single-assignment slot. The pure `Step`/`Run` functions specify it, and
  the classes `Promise<T>` and `VoidPromise` implement it.
- `Submission` (submission.dfy): the strategy `submit` picks (member, then
  free function, then the awaitable bridge) and the bridge itself. Each
  comes twice. `BridgeAsWritten`, `SubmitAwaitableAsWritten`,
  `SubmittedAsWritten` and `SubmitAsWritten` do what the header does.
  `Bridge`, `SubmitAwaitable`, `Submitted` and `Submit` are the corrected
  versions described under Findings.

Two facts about the header shape the `submit` model:
- The free `submit` path is live. The `HasNonMemberSubmit_` branch of
  `_impl_` (lines 437-441) calls a `submit` found by argument-dependent
  lookup, since the header's own `submit` is deleted (lines 383-384). Only
  the `_adl::submit` and `do_submit_fn` helpers are commented out.
- pushmi's receiver protocol allows one terminal signal per submission. The
  bridge as written can send two, or none while an exception escapes
  `submit` (see Findings).

## Model

| member | source | states |
|---|---|---|
| Receivers.Guarded | folly/experimental/pushmi/extension_points.h:246-309 | a guarded delivery leaves exactly one signal: the signal itself if the member returns, otherwise one error carrying the thrown exception as an exception_ptr |
| Receivers.Receiver.Accept | folly/experimental/pushmi/extension_points.h:40-68 | the receiver's own done/value/starting member records the signal when it returns and records nothing when it throws, and reports how it ended |
| Receivers.Receiver.AcceptError | folly/experimental/pushmi/extension_points.h:47-53 | the receiver's own error member records the error exactly as passed |
| Receivers.SetDone | folly/experimental/pushmi/extension_points.h:246-263 | set_done never throws; the receiver sees done, or one error carrying the exception done() threw |
| Receivers.SetError | folly/experimental/pushmi/extension_points.h:264-272 | set_error forwards the error argument unchanged, with no wrapping and no redirect |
| Receivers.SetValue | folly/experimental/pushmi/extension_points.h:273-290 | set_value never throws; the receiver sees exactly the values, or one error carrying the exception value() threw |
| Receivers.SetStarting | folly/experimental/pushmi/extension_points.h:292-309 | set_starting never throws; the receiver sees the starting signal, or one error carrying the exception starting() threw |
| Receivers.DoneCompletes | folly/experimental/pushmi/extension_points.h:246-263 | set_done on a pending receiver completes it with exactly one terminal signal, whatever done() does |
| Receivers.NonTerminalKeepsPending | folly/experimental/pushmi/extension_points.h:273-309 | set_value and set_starting keep a receiver pending if and only if the member returns; a throw completes it with one error |
| Dispatch.Resolve | folly/experimental/pushmi/extension_points.h:40-240 | the chosen body is a member of the argument itself or of its direct referent (never deeper), an invocation of the argument (make_strand only, on a nullary callable), or a promise overload (only on a promise) |
| Dispatch.CpoWellFormed | folly/experimental/pushmi/extension_points.h:248-297 | a customization-point call is well-formed only when some overload offers the operation, and set_done, set_value and set_starting also need an overload of set_error for the exception_ptr they redirect a throw to |
| Dispatch.CpoThroughPointer | folly/experimental/pushmi/extension_points.h:123-309 | every customization point, including the set_error that set_done, set_value and set_starting need for their redirect, accepts a plain pointer to a class-type referent that is neither a std::promise nor itself pointer-like exactly when it accepts that referent (make_strand on a nullary referent excepted) |
| Dispatch.PointerActsAsReferent | folly/experimental/pushmi/extension_points.h:123-201 | a pointer-like argument with no overload of its own resolves to the same body as its referent whenever the referent resolves to its own member |
| Dispatch.PointerOverloadCondition | folly/experimental/pushmi/extension_points.h:123-201 | the referent's member is used if and only if the argument has no member and no factory overload of its own and the referent has the member |
| Dispatch.OneLevelOnly | folly/experimental/pushmi/extension_points.h:123-201 | a pointer to a pointer resolves to nothing: unwrapping stops after one dereference |
| Dispatch.PointerSeesMembersOnly | folly/experimental/pushmi/extension_points.h:123-240 | a pointer to an std::promise or to a nullary callable is not unwrapped, because those overloads are declared after the pointer overloads |
| Dispatch.MemberBeatsPointer | folly/experimental/pushmi/extension_points.h:40-151 | when the argument has the member itself, its member is called rather than its referent's |
| Dispatch.NullaryIsStrandFactory | folly/experimental/pushmi/extension_points.h:207-212 | make_strand on a nullary callable without a make_strand member invokes the callable |
| Dispatch.MemberAndFactoryAmbiguous | folly/experimental/pushmi/extension_points.h:78-212 | a type with both a make_strand member and a call operator makes make_strand ambiguous, so the call is not well-formed |
| Dispatch.PromiseValueArity | folly/experimental/pushmi/extension_points.h:220-240 | set_value on promise<void> takes no payload and on promise<T> exactly one; set_done is always available on a promise |
| Promises.Stored | folly/experimental/pushmi/extension_points.h:223-230 | an exception_ptr is stored as the very exception it refers to; any other error object is wrapped into an exception first |
| Promises.Step | folly/experimental/pushmi/extension_points.h:218-240 | done leaves the slot and never fails; error fills an unset slot and terminates on a set one; value fills an unset slot, and on a set one leaves it unchanged and throws future_error |
| Promises.AssignedOnce | folly/experimental/pushmi/extension_points.h:218-240 | once the promise is set, no sequence of adapter calls changes it; the program may terminate instead |
| Promises.DoneNeverResolves | folly/experimental/pushmi/extension_points.h:218-221 | any number of set_done calls leave the promise as it was and never fail |
| Promises.FirstAssignmentWins | folly/experimental/pushmi/extension_points.h:220-240 | the first value or error sets the promise, and later calls cannot replace it |
| Promises.Promise.SetDone | folly/experimental/pushmi/extension_points.h:220-221 | set_done changes nothing |
| Promises.Promise.SetError | folly/experimental/pushmi/extension_points.h:223-230 | set_error stores the exception that Stored gives, as Step specifies |
| Promises.Promise.SetValue | folly/experimental/pushmi/extension_points.h:231-236 | set_value stores the value in an unset promise; on a set one it changes nothing and reports future_error, as Step specifies |
| Promises.VoidPromise.SetDone | folly/experimental/pushmi/extension_points.h:220-221 | set_done on promise<void> changes nothing |
| Promises.VoidPromise.SetError | folly/experimental/pushmi/extension_points.h:223-230 | set_error on promise<void> stores the exception that Stored gives |
| Promises.VoidPromise.SetValue | folly/experimental/pushmi/extension_points.h:237-240 | set_value on promise<void> takes no payload and follows Step |
| Submission.WellFormed | folly/experimental/pushmi/extension_points.h:428-462 | submit(s, r) is well-formed exactly when S is a Sender and it has a void submit member, or a void free submit, or coroutines are supported and S is Awaitable and not sender-shaped |
| Submission.Choose | folly/experimental/pushmi/extension_points.h:428-456 | the chosen strategy is applicable and every strategy of higher priority is not; None only when no strategy is applicable |
| Submission.NonVoidSubmitIgnored | folly/experimental/pushmi/extension_points.h:389-407 | a submit member that returns a value is never chosen; only the bridge can then apply |
| Submission.BridgeOnlyForAwaitables | folly/experimental/pushmi/extension_points.h:409-454 | the bridge is chosen if and only if neither submit applies, coroutines are supported, and the sender is Awaitable and not SenderLike |
| Submission.ResultArgs | folly/experimental/pushmi/extension_points.h:506-511 | a void await result is delivered as set_value with no values; any other result with exactly that value |
| Submission.BridgeAsWritten | folly/experimental/pushmi/extension_points.h:484-528 | as written, once the parameters exist: a launch failure gives one error; an await that throws gives one error and no done; a completed await accepted by the receiver gives the value, then done |
| Submission.BridgeAsWrittenSendsTwoTerminals | folly/experimental/pushmi/extension_points.h:506-518 | as written, a receiver whose value() throws gets an error and then done: two terminal signals |
| Submission.Bridge | folly/experimental/pushmi/extension_points.h:484-528 | the corrected bridge always delivers exactly one terminal signal, last. Hand-off, launch and await failures give one error; a throwing value() gives one error and no done; otherwise the value comes first |
| Submission.BridgeAgreesUnlessValueThrows | folly/experimental/pushmi/extension_points.h:484-528 | once the hand-off succeeds, the corrected bridge differs from the code only when the receiver's value() throws |
| Submission.SubmitAwaitableAsWritten | folly/experimental/pushmi/extension_points.h:484-528 | the coroutine as written, run on the receiver object, appends exactly BridgeAsWritten's signals |
| Submission.SubmitAwaitable | folly/experimental/pushmi/extension_points.h:484-528 | the corrected coroutine appends exactly Bridge's signals, a hand-off failure included |
| Submission.SubmittedAsWritten | folly/experimental/pushmi/extension_points.h:428-466 | as written: a void submit member decides what the receiver sees; otherwise a void free submit decides; otherwise the bridge does, and a throw while copying the awaitable or the receiver into the bridge's by-value parameters (line 447) escapes submit with nothing delivered |
| Submission.SubmitAsWritten | folly/experimental/pushmi/extension_points.h:461-466 | submit as written appends exactly the signals SubmittedAsWritten gives and reports the exception that escapes it |
| Submission.SubmitAsWrittenCompletes | folly/experimental/pushmi/extension_points.h:428-528 | as written, when an exception escapes submit the receiver gets nothing and stays pending; when none escapes and value() does not throw on the bridge path, a pending receiver is completed |
| Submission.SubmitAsWrittenLosesHandoffFailure | folly/experimental/pushmi/extension_points.h:447-491 | as written, a throwing hand-off escapes submit and the receiver gets nothing; the corrected submit delivers it as one error |
| Submission.Submitted | folly/experimental/pushmi/extension_points.h:428-466 | corrected: a void submit member decides what the receiver sees; otherwise a void free submit decides; otherwise the corrected bridge does, and nothing escapes the bridge path |
| Submission.Submit | folly/experimental/pushmi/extension_points.h:461-466 | the corrected submit is callable only when well-formed and appends exactly the chosen strategy's signals |
| Submission.SubmitCompletes | folly/experimental/pushmi/extension_points.h:428-528 | the corrected submit completes a pending receiver with exactly one terminal signal and no terminal signal before the last, provided the member or free submit that is chosen keeps the protocol |
| Submission.MemberBeatsFree | folly/experimental/pushmi/extension_points.h:433-441 | when both a void member submit and a void free submit exist, submit is well-formed and, in both versions, the member's effect is what the receiver sees and nothing escapes (a throwing member submit is not modelled) |

## Findings

| source | as written | input that shows it | evidently intended | confidence | as-written member | corrected member |
|---|---|---|---|---|---|---|
| folly/experimental/pushmi/extension_points.h:506-518 | inside the bridge's try block, `set_value` and `set_done` are the `noexcept` customization points. A throwing `value()` is caught by `set_value` itself and turned into `set_error`. The bridge's own handler never sees it, and `set_done` runs afterwards. | an awaitable that completes with a value, and a receiver whose `value()` throws E | the receiver gets one `set_error(E)` and no `set_done`. A receiver takes exactly one terminal signal. | medium, not executed | Submission.BridgeAsWrittenSendsTwoTerminals | Submission.Bridge, Submission.Submitted, Submission.Submit, Submission.SubmitCompletes |
| folly/experimental/pushmi/extension_points.h:447-491 | `_submit_awaitable_` takes the awaitable and the receiver by value. They are copied at the call on line 447, in `_impl_`, outside both handlers of the `noexcept` bridge; `operator()` (line 463) is not `noexcept`. A throwing copy escapes `submit`, and the receiver gets no signal. The comment at lines 487-491 says such a throw should reach the receiver's `set_error`. | an awaitable whose copy constructor throws E, submitted to a receiver with no submit member or free submit | the receiver gets one `set_error(E)`, as the comment at lines 487-491 intends | medium, not executed | Submission.SubmitAsWrittenLosesHandoffFailure | Submission.Bridge, Submission.Submitted, Submission.Submit, Submission.SubmitCompletes |

## Left out

- The template and concept machinery is not modelled. This covers `PUSHMI_TEMPLATE`, `PUSHMI_CONCEPT_DEF`, `FOLLY_DEFINE_CPO` and `noexcept(...)` propagation. Capabilities are booleans and sets in `Dispatch.Shape` and `Submission.Caps`.
- Free `set_done`/`set_value` functions found by argument-dependent lookup in a user's namespace are not modelled. Only member capabilities and this header's overloads are modelled for the signal operations. A free `submit` is modelled: `Submission.Caps.free` is exactly a `submit` found that way, since the header's own `submit` is deleted (lines 383-384).
- The `Sender`, `SenderLike_` and `Awaitable` concepts are defined in other headers, which are not part of this model. Each is an independent capability bit in `Submission.Caps`.
- The scheduler queries `get_executor`, `top`/`now`, `schedule` and `make_strand` (lines 70-117, 311-356) only forward to members that are not visible here. `Dispatch.Resolve` models which body they reach, including the unwrap and strand-factory rules, but not the values they return. The rule that `schedule(sd, tp)` needs `tp` to have the type `top` returns is not modelled.
- The commented-out free `submit` and `do_submit_fn` code is not modelled, because it is disabled.
- The `FOLLY_HAS_EXCEPTIONS == 0` branches are not modelled. They only drop the handlers.
- Receivers.SetError: the receiver's own error member is modelled as a final sink that never throws. A throwing error member would make the `noexcept` wrappers call `std::terminate`, and that path is not modelled.
- Receivers.Receiver.Accept: a member that throws is recorded as not having accepted the signal. Any partial effect before the throw is not modelled.
- Promises.Promise.SetError: requires an unset promise. The adapter is `noexcept`, so a second assignment through it ends the program with `std::terminate`. `Promises.Step` and `Promises.Run` model that outcome as `Terminated`.
- Promises.VoidPromise.SetError: requires an unset promise, for the same reason.
- The `std::promise` internals are not modelled: the shared state, the `no_state` error and the hand-off to the future on another thread. The promise is a single-assignment slot. Applying the `set_value_fn` wrapper to a promise is not modelled as one operation. The promise's own overloads are modelled. The `receiver_traits` specializations that mark a promise as a receiver (lines 371-379) are not: the model has no receiver concept to check them against.
- Submission.SubmitAwaitable: the coroutine runtime is not modelled. That covers `oneway_task`, suspension, the thread that resumes the awaitable, and whether submit returns before the task completes: the body starts at once (`initial_suspend` returns `suspend_never`, line 474) and runs until the await first suspends, so for an awaitable that never suspends every signal is delivered before submit returns. Only the order of the signals is modelled. A throw while moving the receiver into the frame ends in `std::terminate` through `unhandled_exception`, and that path is not modelled either. The caller's receiver, the parameter `to` copied or moved from it at line 447, and `rCopy` moved from `to` are one object, since they are the same logical receiver; the model appends every bridge signal to the caller's receiver.
- Submission.SubmitAsWritten: a member or free `submit` is code outside this header, and an exception it throws is not modelled; only the bridge's hand-off can escape. The bridge's signals go to the caller's receiver, as under Submission.SubmitAwaitable.
- Submission.Submit: a member or free `submit` is code outside this header, and an exception it throws is not modelled. `HasMemberSubmit_`'s `noexcept` requirement is commented out (line 394) and `operator()` (line 463) is not `noexcept`, so such an exception would escape the corrected submit too. Each is represented by the signals it delivers, given as part of the `Sender` value.
- Payloads, error objects and values are `int` rather than arbitrary C++ types. Convertibility of `U` to `T` for `promise<T>` is not modelled.
