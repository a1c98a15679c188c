# rawpb field-dispatch registry, modelled in Dafny

This project models the field-dispatch registry of the `rawpb` streaming
protobuf-style decoder (`callback.go`). The decoder's outer loop reads one
field at a time and hands its field number and decoded value to the
registry. The registry looks up the callback registered for that number and
either invokes it, invokes a per-category "unknown field" fallback, does
nothing, or reports a wire-type mismatch.

Layout:

- `wrappers.dfy` — `Option`, which stands for a nil-able Go function or pointer.
- `entry.dfy` (module `Entry`) — the `callbackType` tag (`CallbackType`), its
  diagnostic labels (`Label`, `WireType`), the `callback` record with all four
  handler slots, the empty record, and one constructor per category. Handlers
  and nested decoders are opaque identities (`Handler`, `MessageRef`).
  `uint64` and `uint32` are bounded newtypes.
- `registry.dfy` (module `Registry`) — the `callbacks` record (`Callbacks`): a
  dense list for fields 1..128, a sparse map for fields 129 and up, and the
  four fallbacks. It models `set`, the five `setX` conveniences and `get`, plus
  a storage invariant (`Valid`). `Build` and `LastWrite` give a reference
  semantics for a whole setup phase of registrations.
- `dispatch.dfy` (module `Dispatch`) — `call`, `callUnknown` and the three
  scalar dispatch entry points. Each returns an `Outcome`: `Invoke(h, v)`,
  `InvokeUnknown(f, num, v)`, `NoOp` or `Mismatch(num, received, expected)`.
  `Follows` states the dispatch policy as a relation. `Run` turns an outcome
  into the returned error, given what each handler returns.
- `scenarios.dfy` (module `Scenarios`) — concrete registrations and dispatches.

Modelling choices:

- `set` panics for numbers below 1. Here that is the precondition `num >= 1`.
- `set` grows the list with `slices.Grow` and then reslices it to its capacity,
  so the new length is only known to be at least `num`. `Set` takes
  `spare: nat` for the over-allocation the growth happened to make. The new
  length is `num + spare`, and every newly exposed slot is empty. A nil list
  (length 0) is made exactly `num` long, as `make` does.
- Because of that reslicing, the list may grow past 128 entries. `Valid`
  records that slots past index 127 are never written and stay empty.
- Field numbers are Go `int`. They are modelled as unbounded `int`, because
  the only arithmetic is `num - 1` for `1 <= num <= 128`, which cannot overflow.
- A nil map and an empty map give the same lookups, so both are `map[]`.

## Model

| member | source | states |
|---|---|---|
| `Entry.Label` | callback.go:21-28 | the label is "length-delimited" exactly for the bytes and message tags, and "none", "varint", "fixed64", "fixed32" exactly for the empty, varint, fixed64 and fixed32 tags |
| `Entry.LabelCollapse` | callback.go:21-28 | two tags share a label if and only if they are equal or both length-delimited |
| `Entry.WireType` | callback.go:111-113 | an entry's wire type is "length-delimited" exactly for bytes and message entries, and "varint", "fixed64", "fixed32" or "none" exactly for entries with that tag |
| `Entry.VarintEntry` | callback.go:76-81 | the varint entry is non-empty, tagged varint, carries the handler in the uint64 slot, and fills no other slot |
| `Entry.Fixed64Entry` | callback.go:83-88 | the fixed64 entry is non-empty, tagged fixed64, carries the handler in the uint64 slot, and fills no other slot |
| `Entry.Fixed32Entry` | callback.go:90-95 | the fixed32 entry is non-empty, tagged fixed32, carries the handler in the uint32 slot, and fills no other slot |
| `Entry.BytesEntry` | callback.go:104-109 | the bytes entry is non-empty, tagged bytes, carries the handler in the bytes slot, and fills no other slot |
| `Entry.MessageEntry` | callback.go:97-102 | the message entry is non-empty, tagged message, carries the nested decoder reference, and fills no other slot |
| `Entry.NoneTypeIsEmpty` | callback.go:30-50 | a well-formed entry is tagged none if and only if it is the zero record |
| `Registry.Initial` | callback.go:38-48 | a fresh registry satisfies the storage invariant and every lookup in it yields the empty record |
| `Registry.Get` | callback.go:115-129 | lookup is total; numbers below 1, dense numbers past the list and sparse numbers missing from the map give the empty record; a dense number within the list gives its slot and a sparse number in the map gives its entry; a non-empty result comes from the tier that owns the number; a valid registry yields only well-formed entries |
| `Registry.Set` | callback.go:52-74 | after `set(num, c)`, `get(num)` is `c` and every other lookup is unchanged; the fallbacks are untouched; a sparse set changes only the map; a dense set leaves the map alone, makes the list at least `num` long with the exact length the growth rule gives, keeps old slots and leaves new slots empty; the storage invariant is preserved |
| `Registry.SetVarint` | callback.go:76-81 | after registration the field's entry is a well-formed varint entry with the given handler, no other field changes, and the fallbacks are untouched |
| `Registry.SetFixed64` | callback.go:83-88 | after registration the field's entry is a well-formed fixed64 entry with the given handler, no other field changes, and the fallbacks are untouched |
| `Registry.SetFixed32` | callback.go:90-95 | after registration the field's entry is a well-formed fixed32 entry with the given handler, no other field changes, and the fallbacks are untouched |
| `Registry.SetMessage` | callback.go:97-102 | after registration the field's entry is a well-formed message entry with the given reference, no other field changes, and the fallbacks are untouched |
| `Registry.SetBytes` | callback.go:104-109 | after registration the field's entry is a well-formed bytes entry with the given handler, no other field changes, and the fallbacks are untouched |
| `Registry.DenseSparseBoundary` | callback.go:56-73 | field 128 is stored in list slot 127, the list then has at least 128 slots, and the map is left alone; field 129 is stored in the map under 129 and the list is left alone |
| `Registry.LastWriteWins` | callback.go:52-74 | registering a field twice is indistinguishable, by any lookup, from registering only the second entry |
| `Registry.SetCommutes` | callback.go:52-74 | registrations of two different fields give the same lookups in either order |
| `Registry.Build` | callback.go:52-74 | a sequence of registrations leaves the fallbacks untouched and preserves the storage invariant when every entry is well formed |
| `Registry.BuildLastWriteWins` | callback.go:52-129 | after any sequence of registrations, each lookup returns the last entry registered for that number, or the earlier content if the number was never registered |
| `Dispatch.Call` | callback.go:131-136 | a nil handler gives no effect; a set handler is invoked exactly once with the value |
| `Dispatch.CallUnknown` | callback.go:138-143 | a nil fallback gives no effect; a set fallback is invoked exactly once with the field number and the value |
| `Dispatch.FollowsIsDeterministic` | callback.go:145-176 | the dispatch policy admits exactly one outcome for a given entry and call |
| `Dispatch.Resolve` | callback.go:145-176 | the shared dispatch step follows the policy: empty entry goes to the fallback, matching tag goes to the handler, any other tag gives a mismatch naming the field, the received type and the expected type |
| `Dispatch.Varint` | callback.go:145-154 | a varint dispatch follows the policy on the field's stored entry, using the uint64 slot and the varint fallback |
| `Dispatch.Fixed64` | callback.go:156-165 | a fixed64 dispatch follows the policy on the field's stored entry, using the uint64 slot and the fixed64 fallback |
| `Dispatch.Fixed32` | callback.go:167-176 | a fixed32 dispatch follows the policy on the field's stored entry, using the uint32 slot and the fixed32 fallback |
| `Dispatch.Run` | callback.go:131-176 | an invoked handler's or fallback's result is returned unchanged; a no-op returns nil; a mismatch returns the mismatch error with its three parts; no other outcome returns an error |
| `Dispatch.VarintPassesHandlerError` | callback.go:145-154 | with a matching varint handler, the varint dispatch returns exactly what that handler returns |
| `Dispatch.Fixed64PassesHandlerError` | callback.go:156-165 | with a matching fixed64 handler, the fixed64 dispatch returns exactly what that handler returns |
| `Dispatch.Fixed32PassesHandlerError` | callback.go:167-176 | with a matching fixed32 handler, the fixed32 dispatch returns exactly what that handler returns |
| `Dispatch.UnknownFieldUsesFallback` | callback.go:145-176 | for a field with no entry, each dispatch returns what the category's fallback returns for (number, value), or nil when there is no fallback |
| `Dispatch.MismatchLabelsDiffer` | callback.go:145-176 | a mismatch never reports the received type or "none" as the expected type |
| `Dispatch.VarintAfterSetVarint` | callback.go:145-154 | right after `setVarint`, a varint dispatch of that field invokes the new handler, or does nothing if it is nil |
| `Dispatch.Fixed64AfterSetFixed64` | callback.go:156-165 | right after `setFixed64`, a fixed64 dispatch of that field invokes the new handler, or does nothing if it is nil |
| `Dispatch.Fixed32AfterSetFixed32` | callback.go:167-176 | right after `setFixed32`, a fixed32 dispatch of that field invokes the new handler, or does nothing if it is nil |
| `Dispatch.ScalarAfterLengthDelimited` | callback.go:145-176 | a field registered as bytes or message turns each scalar dispatch into a mismatch expecting "length-delimited" |
| `Dispatch.DispatchIgnoresOtherFields` | callback.go:145-176 | registering a different field never changes how a field is dispatched |
| `Dispatch.VarintAfterSetup` | callback.go:52-154 | on a registry built from scratch, a varint dispatch follows the policy on the last entry registered for the field, and on the empty record if none was |
| `Scenarios.VarintReachesHandler` | callback.go:145-154 | a varint handler on field 1 is invoked with 42 |
| `Scenarios.SparseBytesRejectsFixed32` | callback.go:167-176 | field 200 registered as bytes rejects fixed32 with "fixed32" received and "length-delimited" expected |
| `Scenarios.DenseVarintRejectsFixed32` | callback.go:167-176 | field 3 registered as varint rejects fixed32 with "fixed32" received and "varint" expected |
| `Scenarios.SecondRegistrationWins` | callback.go:52-74 | registering field 5 as varint and then as fixed64 leaves the fixed64 entry |
| `Scenarios.NilHandlerIsNoOp` | callback.go:131-136 | a varint registration with a nil handler makes a varint dispatch a no-op |
| `Scenarios.BoundaryFieldsRoundTrip` | callback.go:56-126 | field 128 goes to the list (exactly 128 long on a fresh registry) and field 129 to the map, and both are found again |
| `Scenarios.UnknownFieldReachesFallback` | callback.go:138-165 | field 0 reaches the fixed64 fallback with its number; an unregistered field with no varint fallback is a no-op |

## Left out

- Handler closures and what they do. Handlers are opaque identities, and `Run` takes what each one returns as a parameter.
- The nested decoder behind message entries. It is an opaque `MessageRef`; its decoder is not part of this model.
- Dispatch of length-delimited (bytes and message) fields. `callback.go` has no entry point for length-delimited fields, so none is modelled, and the `bytes` fallback slot is stored but never consulted.
- Text rendering of errors. The panic message of `set` is not modelled because the panic is a precondition. The mismatch error is the triple (field number, received label, expected label), not the string `fmt.Errorf` would build.
- Slice capacity. `set` reslices the grown list to its full capacity, so growth may expose more slots than `num`; only the resulting length and contents are modelled, through `spare`.
- Entry.Label: a tag outside the six constants would give Go's empty string. Tags form a closed datatype here, so that case cannot arise.
- Concurrency. The registry has no locking and no concurrent behaviour.
