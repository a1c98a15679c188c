/** Concrete registrations and dispatches walking through the registry's rules. */
module Scenarios {
  import opened Wrappers
  import opened Entry
  import opened Registry
  import opened Dispatch

  const NoFallbacks := Fallbacks(None, None, None, None)

  /** A varint handler on field 1 receives the decoded 42. */
  lemma VarintReachesHandler()
    ensures Varint(SetVarint(Initial(NoFallbacks), 1, Some(Handler(7)), 0), 1, 42) == Invoke(Handler(7), 42)
  {
  }

  /** Field 200 registered for bytes rejects a fixed32 value. */
  lemma SparseBytesRejectsFixed32()
    ensures Fixed32(SetBytes(Initial(NoFallbacks), 200, Some(Handler(1)), 0), 200, 7)
         == Mismatch(200, "fixed32", "length-delimited")
  {
  }

  /** Field 3 registered for varint rejects a fixed32 value, naming both types. */
  lemma DenseVarintRejectsFixed32()
    ensures Fixed32(SetVarint(Initial(NoFallbacks), 3, Some(Handler(1)), 0), 3, 9)
         == Mismatch(3, "fixed32", "varint")
  {
  }

  /** Re-registering field 5 replaces the first entry. */
  lemma SecondRegistrationWins()
    ensures Get(SetFixed64(SetVarint(Initial(NoFallbacks), 5, Some(Handler(1)), 0), 5, Some(Handler(2)), 0), 5)
         == Fixed64Entry(Some(Handler(2)))
  {
  }

  /** A registered type with a nil handler is a silent no-op, not an error. */
  lemma NilHandlerIsNoOp()
    ensures Varint(SetVarint(Initial(NoFallbacks), 4, None, 0), 4, 1) == NoOp
  {
  }

  /** Fields 128 and 129 land in different tiers and are both found again. */
  lemma BoundaryFieldsRoundTrip()
    ensures var cb := SetVarint(SetFixed32(Initial(NoFallbacks), 128, None, 0), 129, None, 0);
      && |cb.lst| == 128 && cb.lst[127] == Fixed32Entry(None)
      && cb.mp == map[129 := VarintEntry(None)]
      && Get(cb, 128) == Fixed32Entry(None) && Get(cb, 129) == VarintEntry(None)
  {
  }

  /** An unregistered field goes to the fallback with its number; field 0 included. */
  lemma UnknownFieldReachesFallback()
    ensures Fixed64(Initial(Fallbacks(None, Some(Handler(9)), None, None)), 0, 5) == InvokeUnknown(Handler(9), 0, 5)
    ensures Varint(Initial(Fallbacks(None, Some(Handler(9)), None, None)), 300, 5) == NoOp
  {
  }
}
