/**
 * Dispatch of decoded scalar fields: each call looks up the field's entry
 * and resolves to exactly one outcome — the fallback for unknown fields, the
 * registered handler, nothing, or a wire-type mismatch.
 */
module Dispatch {
  import opened Wrappers
  import opened Entry
  import opened Registry

  /** What one dispatch call does; handler invocation is left to `Run`. */
  datatype Outcome<T> =
    | Invoke(h: Handler, v: T)
    | InvokeUnknown(f: Handler, num: int, v: T)
    | NoOp
    | Mismatch(num: int, received: string, expected: string)

  /** The error a dispatch call returns: a handler's own, or a mismatch. */
  datatype Error =
    | HandlerError(code: nat)
    | WireTypeMismatch(num: int, received: string, expected: string)

  /** Invoking a possibly nil handler: nil does nothing. */
  function Call<T>(f: Option<Handler>, v: T): (o: Outcome<T>)
    ensures o.NoOp? <==> f.None?
    ensures f.Some? ==> o.Invoke? && o.h == f.value && o.v == v
  {
    if f.None? then NoOp else Invoke(f.value, v)
  }

  /** Invoking a possibly nil fallback with the field number: nil does nothing. */
  function CallUnknown<T>(f: Option<Handler>, num: int, v: T): (o: Outcome<T>)
    ensures o.NoOp? <==> f.None?
    ensures f.Some? ==> o.InvokeUnknown? && o.f == f.value && o.num == num && o.v == v
  {
    if f.None? then NoOp else InvokeUnknown(f.value, num, v)
  }

  /**
   * The dispatch policy as a relation: for an entry `c` met by a dispatch
   * of category `own` whose handler slot is `slot` and whose fallback is
   * `fallback`, `o` is the right outcome.
   */
  ghost predicate Follows<T>(o: Outcome<T>, c: Callback, own: CallbackType,
                             slot: Option<Handler>, fallback: Option<Handler>, num: int, v: T)
  {
    && (o.InvokeUnknown? <==> c.tp == NoneType && fallback.Some?)
    && (o.Invoke? <==> c.tp == own && slot.Some?)
    && (o.Mismatch? <==> c.tp != NoneType && c.tp != own)
    && (o.NoOp? <==> (c.tp == NoneType && fallback.None?) || (c.tp == own && slot.None?))
    && (o.InvokeUnknown? ==> o == InvokeUnknown(fallback.value, num, v))
    && (o.Invoke? ==> o == Invoke(slot.value, v))
    && (o.Mismatch? ==> o == Mismatch(num, Label(own), WireType(c)))
  }

  /** The policy leaves no choice: at most one outcome follows it. */
  lemma FollowsIsDeterministic<T>(o1: Outcome<T>, o2: Outcome<T>, c: Callback, own: CallbackType,
                                  slot: Option<Handler>, fallback: Option<Handler>, num: int, v: T)
    requires Follows(o1, c, own, slot, fallback, num, v)
    requires Follows(o2, c, own, slot, fallback, num, v)
    ensures o1 == o2
  {
  }

  /** The shared body of the three scalar dispatch entry points. */
  function Resolve<T>(c: Callback, own: CallbackType, slot: Option<Handler>,
                      fallback: Option<Handler>, num: int, v: T): (o: Outcome<T>)
    requires own != NoneType
    ensures Follows(o, c, own, slot, fallback, num, v)
  {
    if c.tp == NoneType then CallUnknown(fallback, num, v)
    else if c.tp == own then Call(slot, v)
    else Mismatch(num, Label(own), WireType(c))
  }

  /** A varint field arrived: handled by the `funcUint64` slot of a varint entry. */
  function Varint(cb: Callbacks, num: int, v: uint64): (o: Outcome<uint64>)
    ensures Follows(o, Get(cb, num), VarintType, Get(cb, num).funcUint64, cb.unknown.varint, num, v)
  {
    var c := Get(cb, num);
    Resolve(c, VarintType, c.funcUint64, cb.unknown.varint, num, v)
  }

  /** A fixed64 field arrived: handled by the `funcUint64` slot of a fixed64 entry. */
  function Fixed64(cb: Callbacks, num: int, v: uint64): (o: Outcome<uint64>)
    ensures Follows(o, Get(cb, num), Fixed64Type, Get(cb, num).funcUint64, cb.unknown.fixed64, num, v)
  {
    var c := Get(cb, num);
    Resolve(c, Fixed64Type, c.funcUint64, cb.unknown.fixed64, num, v)
  }

  /** A fixed32 field arrived: handled by the `funcUint32` slot of a fixed32 entry. */
  function Fixed32(cb: Callbacks, num: int, v: uint32): (o: Outcome<uint32>)
    ensures Follows(o, Get(cb, num), Fixed32Type, Get(cb, num).funcUint32, cb.unknown.fixed32, num, v)
  {
    var c := Get(cb, num);
    Resolve(c, Fixed32Type, c.funcUint32, cb.unknown.fixed32, num, v)
  }

  /**
   * The error a dispatch call returns, given what each handler and each
   * fallback returns when invoked: a mismatch becomes an error value,
   * and whatever an invoked handler returns is returned as is.
   */
  function Run<T>(o: Outcome<T>, handler: (Handler, T) -> Option<Error>,
                  unknown: (Handler, int, T) -> Option<Error>): (e: Option<Error>)
    ensures e.Some? ==> o.Mismatch? || o.Invoke? || o.InvokeUnknown?
    ensures o.NoOp? ==> e.None?
    ensures o.Invoke? ==> e == handler(o.h, o.v)
    ensures o.InvokeUnknown? ==> e == unknown(o.f, o.num, o.v)
    ensures o.Mismatch? ==> e == Some(WireTypeMismatch(o.num, o.received, o.expected))
  {
    match o
    case Invoke(h, v) => handler(h, v)
    case InvokeUnknown(f, num, v) => unknown(f, num, v)
    case NoOp => None
    case Mismatch(num, received, expected) => Some(WireTypeMismatch(num, received, expected))
  }

  /** A matching varint entry's handler error is returned unchanged. */
  lemma VarintPassesHandlerError(cb: Callbacks, num: int, v: uint64, h: Handler,
                                 handler: (Handler, uint64) -> Option<Error>,
                                 unknown: (Handler, int, uint64) -> Option<Error>)
    requires Get(cb, num).tp == VarintType && Get(cb, num).funcUint64 == Some(h)
    ensures Run(Varint(cb, num, v), handler, unknown) == handler(h, v)
  {
  }

  /** A matching fixed64 entry's handler error is returned unchanged. */
  lemma Fixed64PassesHandlerError(cb: Callbacks, num: int, v: uint64, h: Handler,
                                  handler: (Handler, uint64) -> Option<Error>,
                                  unknown: (Handler, int, uint64) -> Option<Error>)
    requires Get(cb, num).tp == Fixed64Type && Get(cb, num).funcUint64 == Some(h)
    ensures Run(Fixed64(cb, num, v), handler, unknown) == handler(h, v)
  {
  }

  /** A matching fixed32 entry's handler error is returned unchanged. */
  lemma Fixed32PassesHandlerError(cb: Callbacks, num: int, v: uint32, h: Handler,
                                  handler: (Handler, uint32) -> Option<Error>,
                                  unknown: (Handler, int, uint32) -> Option<Error>)
    requires Get(cb, num).tp == Fixed32Type && Get(cb, num).funcUint32 == Some(h)
    ensures Run(Fixed32(cb, num, v), handler, unknown) == handler(h, v)
  {
  }

  /**
   * A mismatch error always names two different wire types, and never
   * "none": an empty entry is routed to the fallback instead.
   */
  lemma MismatchLabelsDiffer(cb: Callbacks, num: int, v: uint64, w: uint32)
    ensures Varint(cb, num, v).Mismatch? ==> Varint(cb, num, v).expected != "varint"
    ensures Fixed64(cb, num, v).Mismatch? ==> Fixed64(cb, num, v).expected != "fixed64"
    ensures Fixed32(cb, num, w).Mismatch? ==> Fixed32(cb, num, w).expected != "fixed32"
    ensures Varint(cb, num, v).Mismatch? ==> Varint(cb, num, v).expected != "none"
    ensures Fixed64(cb, num, v).Mismatch? ==> Fixed64(cb, num, v).expected != "none"
    ensures Fixed32(cb, num, w).Mismatch? ==> Fixed32(cb, num, w).expected != "none"
  {
  }

  /** Dispatch right after `setVarint` reaches the new handler, or does nothing if it is nil. */
  lemma VarintAfterSetVarint(cb: Callbacks, num: int, f: Option<Handler>, spare: nat, v: uint64)
    requires num >= 1
    ensures Varint(SetVarint(cb, num, f, spare), num, v) == Call(f, v)
  {
  }

  /** Dispatch right after `setFixed64` reaches the new handler, or does nothing if it is nil. */
  lemma Fixed64AfterSetFixed64(cb: Callbacks, num: int, f: Option<Handler>, spare: nat, v: uint64)
    requires num >= 1
    ensures Fixed64(SetFixed64(cb, num, f, spare), num, v) == Call(f, v)
  {
  }

  /** Dispatch right after `setFixed32` reaches the new handler, or does nothing if it is nil. */
  lemma Fixed32AfterSetFixed32(cb: Callbacks, num: int, f: Option<Handler>, spare: nat, v: uint32)
    requires num >= 1
    ensures Fixed32(SetFixed32(cb, num, f, spare), num, v) == Call(f, v)
  {
  }

  /** A length-delimited registration turns every scalar dispatch into a mismatch. */
  lemma ScalarAfterLengthDelimited(cb: Callbacks, num: int, c: Callback, spare: nat, v: uint64, w: uint32)
    requires num >= 1 && (c.tp == BytesType || c.tp == MessageType)
    ensures Varint(Set(cb, num, c, spare), num, v) == Mismatch(num, "varint", "length-delimited")
    ensures Fixed64(Set(cb, num, c, spare), num, v) == Mismatch(num, "fixed64", "length-delimited")
    ensures Fixed32(Set(cb, num, c, spare), num, w) == Mismatch(num, "fixed32", "length-delimited")
  {
  }

  /** Registering another field never changes how this one is dispatched. */
  lemma DispatchIgnoresOtherFields(cb: Callbacks, m: int, c: Callback, spare: nat, num: int, v: uint64, w: uint32)
    requires m >= 1 && m != num
    ensures Varint(Set(cb, m, c, spare), num, v) == Varint(cb, num, v)
    ensures Fixed64(Set(cb, m, c, spare), num, v) == Fixed64(cb, num, v)
    ensures Fixed32(Set(cb, m, c, spare), num, w) == Fixed32(cb, num, w)
  {
  }

  /** An unregistered field goes to the category's fallback, whose error is returned unchanged. */
  lemma UnknownFieldUsesFallback(cb: Callbacks, num: int, v: uint64, w: uint32,
                                 handler64: (Handler, uint64) -> Option<Error>,
                                 handler32: (Handler, uint32) -> Option<Error>,
                                 unknown64: (Handler, int, uint64) -> Option<Error>,
                                 unknown32: (Handler, int, uint32) -> Option<Error>)
    requires Get(cb, num).tp == NoneType
    ensures Run(Varint(cb, num, v), handler64, unknown64) ==
      (match cb.unknown.varint case Some(f) => unknown64(f, num, v) case None => None)
    ensures Run(Fixed64(cb, num, v), handler64, unknown64) ==
      (match cb.unknown.fixed64 case Some(f) => unknown64(f, num, v) case None => None)
    ensures Run(Fixed32(cb, num, w), handler32, unknown32) ==
      (match cb.unknown.fixed32 case Some(f) => unknown32(f, num, w) case None => None)
  {
  }

  /**
   * Dispatch on a registry built from scratch by a setup phase is decided
   * by the last registration of that field alone; a field never registered
   * goes to the fallback.
   */
  lemma {:induction false} VarintAfterSetup(unknown: Fallbacks, regs: seq<Registration>, num: int, v: uint64)
    requires Registrable(regs)
    ensures var c := match LastWrite(regs, num) case Some(e) => e case None => Empty;
      Follows(Varint(Build(Initial(unknown), regs), num, v), c, VarintType, c.funcUint64, unknown.varint, num, v)
  {
    BuildLastWriteWins(Initial(unknown), regs, num);
  }
}
