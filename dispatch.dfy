/**
 * Which function body a call to one of the header's free functions in
 * namespace _adl resolves to, from what the argument type offers: its own
 * member, the same operation on what it points to (one dereference), an
 * invocation of the argument itself (make_strand only), or one of the
 * std::promise overloads.
 *
 * Overload preference follows C++ partial ordering: the overloads taking
 * `S&` (a member, or a nullary callable for make_strand) beat the
 * pointer overloads taking `S&&`; two `S&` overloads that both apply are
 * ambiguous, and the call is then not well-formed. The requires-clause of a
 * pointer overload only sees the member overloads declared before it, so a
 * pointer to a std::promise or to a nullary callable is not unwrapped.
 */
module Dispatch {
  import opened Options

  /** The operations of the header, set_value with the number of values it carries. */
  datatype Op =
    | SetDone
    | SetError
    | SetValue(arity: nat)
    | SetStarting
    | GetExecutor
    | MakeStrand
    | Top
    | Schedule
    | ScheduleAt

  /** What the compiler knows about an argument type. */
  datatype Shape =
    | Object(members: set<Op>, nullary: bool, pointee: Option<Shape>)
      // `members`: the member functions it has (done(), value(...), executor(), ...);
      // `nullary`: it can be invoked with no arguments; `pointee`: the type of `*s`, if any
    | StdPromise(isVoid: bool)

  /** The body that runs. */
  datatype Call =
    | Member(owner: Shape, op: Op)        // owner.op(...), on the argument or on what it points to
    | Invoke(factory: Shape)              // s(), the nullary function used as a strand factory
    | PromiseAdapter(isVoid: bool, op: Op)

  /** The std::promise overloads: done and error always, value with one argument, or none for promise<void>. */
  predicate PromiseAccepts(op: Op, isVoid: bool) {
    match op
    case SetDone => true
    case SetError => true
    case SetValue(n) => n == (if isVoid then 0 else 1)
    case _ => false
  }

  /** Whether `t` has `op` as a member of its own. */
  predicate HasMember(op: Op, t: Shape) {
    t.Object? && op in t.members
  }

  /**
   * Some overload of `op` exists for `t`: its own member, its referent's
   * member, the strand factory, or a promise overload.
   */
  predicate Offers(op: Op, t: Shape) {
    HasMember(op, t) ||
    (t.Object? && t.pointee.Some? && HasMember(op, t.pointee.value)) ||
    (op == MakeStrand && t.Object? && t.nullary) ||
    (t.StdPromise? && PromiseAccepts(op, t.isVoid))
  }

  /** The overload a call of `op` on an argument of type `t` resolves to; None when it is not well-formed. */
  function Resolve(op: Op, t: Shape): (c: Option<Call>)
    ensures c.Some? && c.value.Member? ==>
      c.value.op == op && HasMember(op, c.value.owner) &&
      (c.value.owner == t || (t.Object? && t.pointee == Some(c.value.owner)))
    ensures c.Some? && c.value.Invoke? ==> op == MakeStrand && c.value.factory == t && t.Object? && t.nullary
    ensures c.Some? && c.value.PromiseAdapter? ==> t == StdPromise(c.value.isVoid) && c.value.op == op
  {
    match t
    case StdPromise(isVoid) =>
      if PromiseAccepts(op, isVoid) then Some(PromiseAdapter(isVoid, op)) else None
    case Object(members, nullary, pointee) =>
      var member := op in members;
      var factory := op == MakeStrand && nullary;
      if member && factory then None
      else if member then Some(Member(t, op))
      else if factory then Some(Invoke(t))
      else if pointee.Some? && HasMember(op, pointee.value) then Some(Member(pointee.value, op))
      else None
  }

  /**
   * set_done, set_value and set_starting need both the operation and
   * set_error with an std::exception_ptr (to redirect a throw); set_error
   * and the scheduler queries need only the operation.
   */
  predicate CpoWellFormed(op: Op, t: Shape): (w: bool)
    ensures w ==> Offers(op, t)
    ensures w && (op.SetDone? || op.SetValue? || op.SetStarting?) ==> Offers(SetError, t)
  {
    Resolve(op, t).Some? &&
    (op.SetDone? || op.SetValue? || op.SetStarting? ==> Resolve(SetError, t).Some?)
  }

  /**
   * The customization points accept a plain pointer exactly when they accept
   * its referent: both the operation and, for the redirecting ones,
   * set_error are reached through the one dereference.
   */
  lemma CpoThroughPointer(op: Op, members: set<Op>, nullary: bool)
    requires op != MakeStrand || !nullary
    ensures var p := Object(members, nullary, None);
      CpoWellFormed(op, Object({}, false, Some(p))) <==> CpoWellFormed(op, p)
  {
  }

  /** A pointer-like argument without an overload of its own acts exactly as its referent does. */
  lemma PointerActsAsReferent(op: Op, t: Shape, p: Shape)
    requires t.Object? && t.pointee == Some(p)
    requires op !in t.members && !(op == MakeStrand && t.nullary)
    requires Resolve(op, p) == Some(Member(p, op))
    ensures Resolve(op, t) == Resolve(op, p)
  {
  }

  /** The referent's member is used whenever the argument offers nothing itself, and only then. */
  lemma PointerOverloadCondition(op: Op, t: Shape)
    requires t.Object? && t.pointee.Some?
    ensures Resolve(op, t) == Some(Member(t.pointee.value, op)) <==>
      !HasMember(op, t) && !(op == MakeStrand && t.nullary) && HasMember(op, t.pointee.value)
  {
  }

  /** Unwrapping stops after one level: a pointer to a pointer reaches nothing behind the second one. */
  lemma OneLevelOnly(op: Op, inner: Shape)
    ensures Resolve(op, Object({}, false, Some(Object({}, false, Some(inner))))) == None
  {
  }

  /**
   * A pointer to a std::promise or to a nullary function is not unwrapped:
   * the overloads that would serve the referent are not visible to the pointer overloads.
   */
  lemma PointerSeesMembersOnly(op: Op, isVoid: bool)
    ensures Resolve(op, Object({}, false, Some(StdPromise(isVoid)))) == None
    ensures Resolve(MakeStrand, Object({}, false, Some(Object({}, true, None)))) == None
  {
  }

  /** A type's own member wins over what it points to. */
  lemma MemberBeatsPointer(op: Op, t: Shape)
    requires HasMember(op, t) && !(op == MakeStrand && t.nullary)
    ensures Resolve(op, t) == Some(Member(t, op))
  {
  }

  /** A nullary callable with no make_strand member is a strand factory: make_strand invokes it. */
  lemma NullaryIsStrandFactory(t: Shape)
    requires t.Object? && t.nullary && MakeStrand !in t.members
    ensures Resolve(MakeStrand, t) == Some(Invoke(t))
  {
  }

  /** A make_strand member and a call operator together make the call ambiguous. */
  lemma MemberAndFactoryAmbiguous(t: Shape)
    requires t.Object? && t.nullary && MakeStrand in t.members
    ensures Resolve(MakeStrand, t) == None
  {
  }

  /** A promise<void> takes set_value with no payload; any other promise exactly one. */
  lemma PromiseValueArity(isVoid: bool, n: nat)
    ensures Resolve(SetValue(n), StdPromise(isVoid)).Some? <==> n == (if isVoid then 0 else 1)
    ensures CpoWellFormed(SetDone, StdPromise(isVoid))
  {
  }
}
