/**
 * The callback entry model of the rawpb field-dispatch registry: the
 * callback type tag, its wire-type label, the callback record and the
 * constructors that the registry's `setX` conveniences use.
 */
module Entry {
  import opened Wrappers

  /** Go's `uint64`, the value type of varint and fixed64 fields. */
  newtype uint64 = x: int | 0 <= x < 0x1_0000_0000_0000_0000

  /** Go's `uint32`, the value type of fixed32 fields. */
  newtype uint32 = x: int | 0 <= x < 0x1_0000_0000

  /** A handler closure, known only by its identity. */
  datatype Handler = Handler(id: nat)

  /** A nested decoder a message entry delegates to; opaque here. */
  datatype MessageRef = MessageRef(id: nat)

  /** The callback type tag; `NoneType` marks an empty slot. */
  datatype CallbackType =
    | NoneType
    | VarintType
    | Fixed64Type
    | Fixed32Type
    | BytesType
    | MessageType

  /** The diagnostic label of each tag; bytes and message share one wire type. */
  function Label(tp: CallbackType): (s: string)
    ensures s == "length-delimited" <==> tp == BytesType || tp == MessageType
    ensures tp == NoneType <==> s == "none"
    ensures tp == VarintType <==> s == "varint"
    ensures tp == Fixed64Type <==> s == "fixed64"
    ensures tp == Fixed32Type <==> s == "fixed32"
  {
    match tp
    case NoneType => "none"
    case VarintType => "varint"
    case Fixed64Type => "fixed64"
    case Fixed32Type => "fixed32"
    case BytesType => "length-delimited"
    case MessageType => "length-delimited"
  }

  /** Two tags share a label exactly when they are equal or both length-delimited. */
  lemma LabelCollapse(a: CallbackType, b: CallbackType)
    ensures Label(a) == Label(b) <==>
      a == b || ((a == BytesType || a == MessageType) && (b == BytesType || b == MessageType))
  {
  }

  /**
   * One registry entry. Like the Go record it has a slot for every handler
   * shape; the constructors below fill at most the one matching `tp`.
   */
  datatype Callback = Callback(
    tp: CallbackType,
    funcUint64: Option<Handler>,
    funcUint32: Option<Handler>,
    funcBytes: Option<Handler>,
    message: Option<MessageRef>)

  /** The zero record: no callback registered. */
  const Empty := Callback(NoneType, None, None, None, None)

  /** The entry's wire-type label, as reported in mismatch errors. */
  function WireType(c: Callback): (s: string)
    ensures s == "length-delimited" <==> c.tp == BytesType || c.tp == MessageType
    ensures c.tp == VarintType <==> s == "varint"
    ensures c.tp == Fixed64Type <==> s == "fixed64"
    ensures c.tp == Fixed32Type <==> s == "fixed32"
    ensures c.tp == NoneType <==> s == "none"
  {
    Label(c.tp)
  }

  /** Only the handler slot that matches the tag may be populated. */
  predicate WellFormed(c: Callback) {
    && (c.funcUint64.Some? ==> c.tp == VarintType || c.tp == Fixed64Type)
    && (c.funcUint32.Some? ==> c.tp == Fixed32Type)
    && (c.funcBytes.Some? ==> c.tp == BytesType)
    && (c.message.Some? ==> c.tp == MessageType)
  }

  function VarintEntry(f: Option<Handler>): (c: Callback)
    ensures WellFormed(c) && c != Empty
    ensures c.tp == VarintType && c.funcUint64 == f
  {
    Callback(VarintType, f, None, None, None)
  }

  function Fixed64Entry(f: Option<Handler>): (c: Callback)
    ensures WellFormed(c) && c != Empty
    ensures c.tp == Fixed64Type && c.funcUint64 == f
  {
    Callback(Fixed64Type, f, None, None, None)
  }

  function Fixed32Entry(f: Option<Handler>): (c: Callback)
    ensures WellFormed(c) && c != Empty
    ensures c.tp == Fixed32Type && c.funcUint32 == f
  {
    Callback(Fixed32Type, None, f, None, None)
  }

  function BytesEntry(f: Option<Handler>): (c: Callback)
    ensures WellFormed(c) && c != Empty
    ensures c.tp == BytesType && c.funcBytes == f
  {
    Callback(BytesType, None, None, f, None)
  }

  function MessageEntry(m: Option<MessageRef>): (c: Callback)
    ensures WellFormed(c) && c != Empty
    ensures c.tp == MessageType && c.message == m
  {
    Callback(MessageType, None, None, None, m)
  }

  /** The empty record is the only well-formed record tagged `NoneType`. */
  lemma NoneTypeIsEmpty(c: Callback)
    requires WellFormed(c)
    ensures c.tp == NoneType <==> c == Empty
  {
  }
}
