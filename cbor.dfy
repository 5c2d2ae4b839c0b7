/**
 * The CBOR data model as the ledger decoders see it: an already-parsed item
 * tree. Byte-level CBOR is not modelled. A Go struct marked "struct as
 * array" decodes from an array with exactly one element per field, each
 * element of the field's type; the helpers below are those field decoders.
 */
module Cbor {
  import opened Wrappers
  import opened Ints

  datatype Item =
    | UInt(u: uint64)
    | NegInt(n: uint64)          // the integer -1 - n
    | ByteString(bytes: Bytes)
    | TextString(text: string)
    | Array(elems: seq<Item>)
    | Map(entries: seq<Entry>)
    | Tag(tag: uint64, content: Item)
    | Bool(b: bool)
    | Null

  datatype Entry = Entry(key: Item, value: Item)

  /** Errors of the CBOR layer: no leading id, or an item of the wrong shape. */
  datatype CborError = NotAList | EmptyList | IdNotUnsigned | SchemaMismatch

  /** The leading integer of a list: the discriminant of every tagged variant. */
  function DecodeIdFromList(data: Item): (r: Result<uint64, CborError>)
    ensures r.Success? <==> data.Array? && |data.elems| > 0 && data.elems[0].UInt?
    ensures r.Success? ==> r.value == data.elems[0].u
  {
    if !data.Array? then Failure(NotAList)
    else if |data.elems| == 0 then Failure(EmptyList)
    else if !data.elems[0].UInt? then Failure(IdNotUnsigned)
    else Success(data.elems[0].u)
  }

  /** The elements of an array that must hold exactly `n` fields. */
  function Fields(data: Item, n: nat): (r: Result<seq<Item>, CborError>)
    ensures r.Success? <==> data.Array? && |data.elems| == n
    ensures r.Success? ==> r.value == data.elems
  {
    if data.Array? && |data.elems| == n then Success(data.elems) else Failure(SchemaMismatch)
  }

  function AsUInt(i: Item): Result<uint64, CborError>
  {
    if i.UInt? then Success(i.u) else Failure(SchemaMismatch)
  }

  /** A `uint32` field: an unsigned item that fits in 32 bits. */
  function AsUInt32(i: Item): Result<uint32, CborError>
  {
    if i.UInt? && i.u < 0x1_0000_0000 then Success(i.u as int as uint32) else Failure(SchemaMismatch)
  }

  function AsBytes(i: Item): Result<Bytes, CborError>
  {
    if i.ByteString? then Success(i.bytes) else Failure(SchemaMismatch)
  }

  function AsText(i: Item): Result<string, CborError>
  {
    if i.TextString? then Success(i.text) else Failure(SchemaMismatch)
  }

  /** A pointer field: CBOR null decodes to nil, anything else through `f`. */
  function AsNullable<T>(i: Item, f: Item -> Result<T, CborError>): Result<Option<T>, CborError>
  {
    if i.Null? then Success(None)
    else match f(i)
      case Success(v) => Success(Some(v))
      case Failure(e) => Failure(e)
  }

  /** Encodes a pointer field: nil is CBOR null. */
  function FromNullable<T>(o: Option<T>, f: T -> Item): Item
  {
    match o
    case None => Null
    case Some(v) => f(v)
  }
}
