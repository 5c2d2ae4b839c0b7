/**
 * Block and block-header decoding by era. The era-specific decoders are
 * opaque partial functions supplied by the caller; this module decides
 * which of them a block-type tag selects. The block-type constants are
 * declared in the per-era ledger files (not part of this model) with the
 * values 0 (Byron epoch-boundary) to 7 (Conway) used below.
 */
module Blocks {
  import opened Wrappers
  import opened Ints

  datatype BlockType = ByronEbb | ByronMain | Shelley | Allegra | Mary | Alonzo | Babbage | Conway

  const BlockTypeByronEbb: nat := 0
  const BlockTypeByronMain: nat := 1
  const BlockTypeShelley: nat := 2
  const BlockTypeAllegra: nat := 3
  const BlockTypeMary: nat := 4
  const BlockTypeAlonzo: nat := 5
  const BlockTypeBabbage: nat := 6
  const BlockTypeConway: nat := 7

  /** The wire tag of each block type. */
  function TagOf(bt: BlockType): nat
  {
    match bt
    case ByronEbb => BlockTypeByronEbb
    case ByronMain => BlockTypeByronMain
    case Shelley => BlockTypeShelley
    case Allegra => BlockTypeAllegra
    case Mary => BlockTypeMary
    case Alonzo => BlockTypeAlonzo
    case Babbage => BlockTypeBabbage
    case Conway => BlockTypeConway
  }

  /** The block type a tag names, if any: the inverse of TagOf. */
  function BlockTypeOf(tag: nat): (r: Option<BlockType>)
    ensures r.Some? ==> TagOf(r.value) == tag
    ensures forall bt :: TagOf(bt) == tag ==> r == Some(bt)
  {
    if tag == BlockTypeByronEbb then Some(ByronEbb)
    else if tag == BlockTypeByronMain then Some(ByronMain)
    else if tag == BlockTypeShelley then Some(Shelley)
    else if tag == BlockTypeAllegra then Some(Allegra)
    else if tag == BlockTypeMary then Some(Mary)
    else if tag == BlockTypeAlonzo then Some(Alonzo)
    else if tag == BlockTypeBabbage then Some(Babbage)
    else if tag == BlockTypeConway then Some(Conway)
    else None
  }

  /** The four header decoders; several eras share one. */
  datatype HeaderFormat = ByronEbbHeader | ByronMainHeader | ShelleyHeader | BabbageHeader

  /** The era decoders the two dispatchers route to; B is a block, H a header, E their error. */
  datatype EraDecoders<B, H, E> = EraDecoders(
    byronEbbBlock: Bytes -> Result<B, E>,
    byronMainBlock: Bytes -> Result<B, E>,
    shelleyBlock: Bytes -> Result<B, E>,
    allegraBlock: Bytes -> Result<B, E>,
    maryBlock: Bytes -> Result<B, E>,
    alonzoBlock: Bytes -> Result<B, E>,
    babbageBlock: Bytes -> Result<B, E>,
    conwayBlock: Bytes -> Result<B, E>,
    byronEbbHeader: Bytes -> Result<H, E>,
    byronMainHeader: Bytes -> Result<H, E>,
    shelleyHeader: Bytes -> Result<H, E>,
    babbageHeader: Bytes -> Result<H, E>)
  {
    /** The static table: block type to its own block decoder. */
    function BlockDecoder(bt: BlockType): Bytes -> Result<B, E>
    {
      match bt
      case ByronEbb => byronEbbBlock
      case ByronMain => byronMainBlock
      case Shelley => shelleyBlock
      case Allegra => allegraBlock
      case Mary => maryBlock
      case Alonzo => alonzoBlock
      case Babbage => babbageBlock
      case Conway => conwayBlock
    }

    function HeaderDecoder(f: HeaderFormat): Bytes -> Result<H, E>
    {
      match f
      case ByronEbbHeader => byronEbbHeader
      case ByronMainHeader => byronMainHeader
      case ShelleyHeader => shelleyHeader
      case BabbageHeader => babbageHeader
    }
  }

  /** The header format each era is parsed with. */
  function HeaderFormatOf(bt: BlockType): HeaderFormat
  {
    match bt
    case ByronEbb => ByronEbbHeader
    case ByronMain => ByronMainHeader
    case Shelley | Allegra | Mary | Alonzo => ShelleyHeader
    case Babbage | Conway => BabbageHeader
  }

  /** The dispatchers' own errors are kept apart from those of the era decoders. */
  datatype DispatchError<E> =
    | UnknownNodeToClientBlockType(blockType: nat)
    | UnknownNodeToNodeBlockType(blockType: nat)
    | EraError(cause: E)

  function LiftEra<T, E>(r: Result<T, E>): Result<T, DispatchError<E>>
  {
    match r
    case Success(v) => Success(v)
    case Failure(e) => Failure(EraError(e))
  }

  /** NewBlockFromCbor: each known tag goes to its era's block decoder, anything else is an error. */
  function NewBlockFromCbor<B, H, E>(blockType: nat, data: Bytes, d: EraDecoders<B, H, E>): (r: Result<B, DispatchError<E>>)
    ensures BlockTypeOf(blockType).None? <==> r == Failure(UnknownNodeToClientBlockType(blockType))
    ensures BlockTypeOf(blockType).Some? ==> r == LiftEra(d.BlockDecoder(BlockTypeOf(blockType).value)(data))
  {
    if blockType == BlockTypeByronEbb then LiftEra(d.byronEbbBlock(data))
    else if blockType == BlockTypeByronMain then LiftEra(d.byronMainBlock(data))
    else if blockType == BlockTypeShelley then LiftEra(d.shelleyBlock(data))
    else if blockType == BlockTypeAllegra then LiftEra(d.allegraBlock(data))
    else if blockType == BlockTypeMary then LiftEra(d.maryBlock(data))
    else if blockType == BlockTypeAlonzo then LiftEra(d.alonzoBlock(data))
    else if blockType == BlockTypeBabbage then LiftEra(d.babbageBlock(data))
    else if blockType == BlockTypeConway then LiftEra(d.conwayBlock(data))
    else Failure(UnknownNodeToClientBlockType(blockType))
  }

  /** NewBlockHeaderFromCbor: the eras of one header format share its decoder. */
  function NewBlockHeaderFromCbor<B, H, E>(blockType: nat, data: Bytes, d: EraDecoders<B, H, E>): (r: Result<H, DispatchError<E>>)
    ensures BlockTypeOf(blockType).None? <==> r == Failure(UnknownNodeToNodeBlockType(blockType))
    ensures BlockTypeOf(blockType).Some? ==>
              r == LiftEra(d.HeaderDecoder(HeaderFormatOf(BlockTypeOf(blockType).value))(data))
  {
    if blockType == BlockTypeByronEbb then LiftEra(d.byronEbbHeader(data))
    else if blockType == BlockTypeByronMain then LiftEra(d.byronMainHeader(data))
    else if blockType == BlockTypeShelley || blockType == BlockTypeAllegra
         || blockType == BlockTypeMary || blockType == BlockTypeAlonzo then LiftEra(d.shelleyHeader(data))
    else if blockType == BlockTypeBabbage || blockType == BlockTypeConway then LiftEra(d.babbageHeader(data))
    else Failure(UnknownNodeToNodeBlockType(blockType))
  }

  /** Decoders that answer only with their own name: they reveal which one a dispatcher called. */
  function Probe(): EraDecoders<BlockType, HeaderFormat, ()>
  {
    EraDecoders(
      _ => Success(ByronEbb), _ => Success(ByronMain), _ => Success(Shelley), _ => Success(Allegra),
      _ => Success(Mary), _ => Success(Alonzo), _ => Success(Babbage), _ => Success(Conway),
      _ => Success(ByronEbbHeader), _ => Success(ByronMainHeader),
      _ => Success(ShelleyHeader), _ => Success(BabbageHeader))
  }

  /** Each of the eight tags reaches its own block decoder and no other. */
  lemma BlockDispatchIsInjective(tag: nat, data: Bytes)
    ensures NewBlockFromCbor(tag, data, Probe()) ==
            match BlockTypeOf(tag)
            case Some(bt) => Success(bt)
            case None => Failure(UnknownNodeToClientBlockType(tag))
  {
  }

  /** The header dispatcher reaches the header decoder of the tag's format. */
  lemma HeaderDispatchFormats(tag: nat, data: Bytes)
    ensures NewBlockHeaderFromCbor(tag, data, Probe()) ==
            match BlockTypeOf(tag)
            case Some(bt) => Success(HeaderFormatOf(bt))
            case None => Failure(UnknownNodeToNodeBlockType(tag))
  {
  }

  /** Both dispatchers accept the same tags, and fail with their own error on all others. */
  lemma DispatchersAgreeOnTags<B, H, E>(tag: nat, data: Bytes, d: EraDecoders<B, H, E>)
    ensures NewBlockFromCbor(tag, data, d) == Failure(UnknownNodeToClientBlockType(tag))
            <==> NewBlockHeaderFromCbor(tag, data, d) == Failure(UnknownNodeToNodeBlockType(tag))
  {
  }

  // ---------------------------------------------------------------------
  // generateBlockHeaderHash
  // ---------------------------------------------------------------------

  /** What a streaming hasher has absorbed after the given writes. */
  function Absorbed(writes: seq<Bytes>): (r: Bytes)
    decreases |writes|
  {
    if |writes| == 0 then [] else writes[0] + Absorbed(writes[1..])
  }

  /** The writes generateBlockHeaderHash makes: the prefix when there is one, then the data. */
  function HeaderHashWrites(data: Bytes, prefix: Option<Bytes>): seq<Bytes>
  {
    match prefix
    case None => [data]
    case Some(p) => [p, data]
  }

  /** The hash input is `prefix ++ data` with a prefix, and just `data` without. */
  lemma HeaderHashInput(data: Bytes, prefix: Option<Bytes>)
    ensures prefix.None? ==> Absorbed(HeaderHashWrites(data, prefix)) == data
    ensures prefix.Some? ==> Absorbed(HeaderHashWrites(data, prefix)) == prefix.value + data
  {
    assert Absorbed([data]) == data + Absorbed([]);
    if prefix.Some? {
      var p := prefix.value;
      assert [p, data][1..] == [data];
      assert Absorbed([p, data]) == p + Absorbed([data]);
    }
  }

  /** The header hash: the hash (Blake2b-256, supplied) of what was written. */
  function GenerateBlockHeaderHash(data: Bytes, prefix: Option<Bytes>, blake2b256: Bytes -> Bytes): (h: Bytes)
    ensures h == blake2b256(if prefix.Some? then prefix.value + data else data)
  {
    HeaderHashInput(data, prefix);
    blake2b256(Absorbed(HeaderHashWrites(data, prefix)))
  }
}
