/**
 * Ledger certificates (the Shelley-era certificate union), pool relays and
 * move-instantaneous-rewards (MIR) payloads: their tagged-variant decoding,
 * their encoding, and their conversion to the utxorpc records.
 *
 * A certificate travels as `[certType, field, ...]`; the leading integer
 * selects one of seven closed shapes. Unknown tags are a distinguishable
 * error and never default to a shape.
 */
module Certs {
  import opened Wrappers
  import opened Ints
  import opened Cbor

  const StakeRegistrationTag: uint64 := 0
  const StakeDeregistrationTag: uint64 := 1
  const StakeDelegationTag: uint64 := 2
  const PoolRegistrationTag: uint64 := 3
  const PoolRetirementTag: uint64 := 4
  const GenesisKeyDelegationTag: uint64 := 5
  const MoveInstantaneousRewardsTag: uint64 := 6

  const AddrKeyHashCredential: uint64 := 0
  const ScriptHashCredential: uint64 := 1

  const SingleHostAddressRelay: uint64 := 0
  const SingleHostNameRelay: uint64 := 1
  const MultiHostNameRelay: uint64 := 2

  /** The CBOR tag of a rational number (the pool margin). */
  const RationalTag: uint64 := 30

  datatype CertError =
    | Cbor(cause: CborError)                  // error from the CBOR layer, passed through
    | UnknownCertificateType(certType: uint64)
    | InvalidRelayType(relayType: uint64)
    | NoKnownMirShape                         // neither the map nor the coin shape decoded

  function Lift<T>(r: Result<T, CborError>): (l: Result<T, CertError>)
    ensures l.Success? <==> r.Success?
    ensures l.Success? ==> l.value == r.value
    ensures l.Failure? ==> l.error == Cbor(r.error)
  {
    match r
    case Success(v) => Success(v)
    case Failure(e) => Failure(Cbor(e))
  }

  // ---------------------------------------------------------------------
  // Entities
  // ---------------------------------------------------------------------

  datatype StakeCredential = StakeCredential(credType: uint64, hash: Bytes)

  datatype PoolMetadata = PoolMetadata(url: string, hash: Bytes)

  datatype Rational = Rational(num: uint64, denom: uint64)

  /** A pool relay; each pointer field of the Go struct is an Option. */
  datatype PoolRelay = PoolRelay(
    relayType: uint64,
    port: Option<uint32>,
    ipv4: Option<Bytes>,
    ipv6: Option<Bytes>,
    hostname: Option<string>)

  /** The zero value a relay is decoded into when it is an element of a list. */
  const ZeroRelay := PoolRelay(0, None, None, None, None)

  /** One entry of the MIR rewards map, in wire order; the key is a pointer, None for CBOR null. */
  datatype RewardEntry = RewardEntry(credential: Option<StakeCredential>, amount: uint64)

  /** The MIR payload; `rewards` is None for a nil Go map. */
  datatype MirReward = MirReward(source: uint64, rewards: Option<seq<RewardEntry>>, otherPot: uint64)

  const ZeroMirReward := MirReward(0, None, 0)

  datatype Certificate =
    | StakeRegistration(certType: uint64, credential: StakeCredential)
    | StakeDeregistration(certType: uint64, credential: StakeCredential)
    | StakeDelegation(certType: uint64, delegator: Option<StakeCredential>, poolKeyHash: Bytes)
    | PoolRegistration(
        certType: uint64,
        operator: Bytes,
        vrfKeyHash: Bytes,
        pledge: uint64,
        cost: uint64,
        margin: Rational,
        rewardAccount: Bytes,
        poolOwners: seq<Bytes>,
        relays: seq<PoolRelay>,
        poolMetadata: Option<PoolMetadata>)
    | PoolRetirement(certType: uint64, poolKeyHash: Bytes, epoch: uint64)
    | GenesisKeyDelegation(certType: uint64, genesisHash: Bytes, genesisDelegateHash: Bytes, vrfKeyHash: Bytes)
    | MoveInstantaneousRewards(certType: uint64, reward: MirReward)

  /** The tag each certificate kind is registered under. */
  function KindTag(c: Certificate): uint64
  {
    match c
    case StakeRegistration(_, _) => StakeRegistrationTag
    case StakeDeregistration(_, _) => StakeDeregistrationTag
    case StakeDelegation(_, _, _) => StakeDelegationTag
    case PoolRegistration(_, _, _, _, _, _, _, _, _, _) => PoolRegistrationTag
    case PoolRetirement(_, _, _) => PoolRetirementTag
    case GenesisKeyDelegation(_, _, _, _) => GenesisKeyDelegationTag
    case MoveInstantaneousRewards(_, _) => MoveInstantaneousRewardsTag
  }

  // ---------------------------------------------------------------------
  // Field decoders
  // ---------------------------------------------------------------------

  function DecodeStakeCredential(i: Item): Result<StakeCredential, CborError>
  {
    var f :- Fields(i, 2);
    var t :- AsUInt(f[0]);
    var h :- AsBytes(f[1]);
    Success(StakeCredential(t, h))
  }

  function DecodePoolMetadata(i: Item): Result<PoolMetadata, CborError>
  {
    var f :- Fields(i, 2);
    var url :- AsText(f[0]);
    var h :- AsBytes(f[1]);
    Success(PoolMetadata(url, h))
  }

  function DecodeRational(i: Item): Result<Rational, CborError>
  {
    if !(i.Tag? && i.tag == RationalTag) then Failure(SchemaMismatch)
    else
      var f :- Fields(i.content, 2);
      var n :- AsUInt(f[0]);
      var d :- AsUInt(f[1]);
      Success(Rational(n, d))
  }

  function AsList(i: Item): Result<seq<Item>, CborError>
  {
    if i.Array? then Success(i.elems) else Failure(SchemaMismatch)
  }

  function DecodeByteStrings(elems: seq<Item>): Result<seq<Bytes>, CborError>
    decreases |elems|
  {
    if |elems| == 0 then Success([])
    else
      var h :- AsBytes(elems[0]);
      var t :- DecodeByteStrings(elems[1..]);
      Success([h] + t)
  }

  function DecodeRewardEntries(entries: seq<Entry>): Result<seq<RewardEntry>, CborError>
    decreases |entries|
  {
    if |entries| == 0 then Success([])
    else
      var cred :- AsNullable(entries[0].key, DecodeStakeCredential);
      var amount :- AsUInt(entries[0].value);
      var t :- DecodeRewardEntries(entries[1..]);
      Success([RewardEntry(cred, amount)] + t)
  }

  function AsRewards(i: Item): Result<seq<RewardEntry>, CborError>
  {
    if i.Map? then DecodeRewardEntries(i.entries) else Failure(SchemaMismatch)
  }

  // ---------------------------------------------------------------------
  // PoolRelay.UnmarshalCBOR
  // ---------------------------------------------------------------------

  /** The result of decoding into an existing receiver: the receiver afterwards and the error returned. */
  datatype Updated<T> = Updated(value: T, err: Option<CertError>)

  datatype SingleHostAddress = SingleHostAddress(port: Option<uint32>, ipv4: Option<Bytes>, ipv6: Option<Bytes>)
  datatype SingleHostName = SingleHostName(port: Option<uint32>, hostname: Option<string>)
  datatype MultiHostName = MultiHostName(hostname: Option<string>)

  function DecodeSingleHostAddress(data: Item): Result<SingleHostAddress, CborError>
  {
    var f :- Fields(data, 4);
    var ty :- AsUInt(f[0]);
    var port :- AsNullable(f[1], AsUInt32);
    var v4 :- AsNullable(f[2], AsBytes);
    var v6 :- AsNullable(f[3], AsBytes);
    Success(SingleHostAddress(port, v4, v6))
  }

  function DecodeSingleHostName(data: Item): Result<SingleHostName, CborError>
  {
    var f :- Fields(data, 3);
    var ty :- AsUInt(f[0]);
    var port :- AsNullable(f[1], AsUInt32);
    var host :- AsNullable(f[2], AsText);
    Success(SingleHostName(port, host))
  }

  function DecodeMultiHostName(data: Item): Result<MultiHostName, CborError>
  {
    var f :- Fields(data, 2);
    var ty :- AsUInt(f[0]);
    var host :- AsNullable(f[1], AsText);
    Success(MultiHostName(host))
  }

  /**
   * Decodes `data` into the receiver `p`. The leading id is stored in
   * `relayType` before the shape is checked, so an unknown relay type or a
   * shape that fails to decode still leaves the new type behind.
   */
  function UnmarshalRelay(p: PoolRelay, data: Item): (u: Updated<PoolRelay>)
    // no leading id: the receiver is untouched
    ensures DecodeIdFromList(data).Failure? ==> u == Updated(p, Some(Cbor(DecodeIdFromList(data).error)))
    // otherwise the type is stored whatever happens next
    ensures DecodeIdFromList(data).Success? ==> u.value.relayType == DecodeIdFromList(data).value
    // a failed decode changes nothing but the type
    ensures u.err.Some? ==> u.value.(relayType := p.relayType) == p
    // an unknown type is an error naming it
    ensures DecodeIdFromList(data).Success? && DecodeIdFromList(data).value > MultiHostNameRelay ==>
              u.err == Some(InvalidRelayType(DecodeIdFromList(data).value))
    // each shape writes only its own fields
    ensures DecodeIdFromList(data) == Success(SingleHostAddressRelay) ==> u.value.hostname == p.hostname
    ensures DecodeIdFromList(data) == Success(SingleHostNameRelay) ==> u.value.ipv4 == p.ipv4 && u.value.ipv6 == p.ipv6
    ensures DecodeIdFromList(data) == Success(MultiHostNameRelay) ==>
              u.value.port == p.port && u.value.ipv4 == p.ipv4 && u.value.ipv6 == p.ipv6
    // and on success writes the values the shape decoded
    ensures DecodeIdFromList(data) == Success(SingleHostAddressRelay) && u.err.None? ==>
              DecodeSingleHostAddress(data) == Success(SingleHostAddress(u.value.port, u.value.ipv4, u.value.ipv6))
    ensures DecodeIdFromList(data) == Success(SingleHostNameRelay) && u.err.None? ==>
              DecodeSingleHostName(data) == Success(SingleHostName(u.value.port, u.value.hostname))
    ensures DecodeIdFromList(data) == Success(MultiHostNameRelay) && u.err.None? ==>
              DecodeMultiHostName(data) == Success(MultiHostName(u.value.hostname))
    // a known type succeeds exactly when its shape decodes, and otherwise fails with the shape's own error
    ensures DecodeIdFromList(data) == Success(SingleHostAddressRelay) ==>
              (u.err.None? <==> DecodeSingleHostAddress(data).Success?) &&
              (u.err.Some? ==> u.err == Some(Cbor(DecodeSingleHostAddress(data).error)))
    ensures DecodeIdFromList(data) == Success(SingleHostNameRelay) ==>
              (u.err.None? <==> DecodeSingleHostName(data).Success?) &&
              (u.err.Some? ==> u.err == Some(Cbor(DecodeSingleHostName(data).error)))
    ensures DecodeIdFromList(data) == Success(MultiHostNameRelay) ==>
              (u.err.None? <==> DecodeMultiHostName(data).Success?) &&
              (u.err.Some? ==> u.err == Some(Cbor(DecodeMultiHostName(data).error)))
  {
    match DecodeIdFromList(data)
    case Failure(e) => Updated(p, Some(Cbor(e)))
    case Success(t) =>
      var typed := p.(relayType := t);
      if t == SingleHostAddressRelay then
        match DecodeSingleHostAddress(data)
        case Failure(e) => Updated(typed, Some(Cbor(e)))
        case Success(s) => Updated(typed.(port := s.port, ipv4 := s.ipv4, ipv6 := s.ipv6), None)
      else if t == SingleHostNameRelay then
        match DecodeSingleHostName(data)
        case Failure(e) => Updated(typed, Some(Cbor(e)))
        case Success(s) => Updated(typed.(port := s.port, hostname := s.hostname), None)
      else if t == MultiHostNameRelay then
        match DecodeMultiHostName(data)
        case Failure(e) => Updated(typed, Some(Cbor(e)))
        case Success(s) => Updated(typed.(hostname := s.hostname), None)
      else
        Updated(typed, Some(InvalidRelayType(t)))
  }

  /** A relay decoded as a list element, into a fresh zero receiver. */
  function DecodeRelay(data: Item): Result<PoolRelay, CertError>
  {
    var u := UnmarshalRelay(ZeroRelay, data);
    if u.err.Some? then Failure(u.err.value) else Success(u.value)
  }

  function DecodeRelays(elems: seq<Item>): Result<seq<PoolRelay>, CertError>
    decreases |elems|
  {
    if |elems| == 0 then Success([])
    else
      var h :- DecodeRelay(elems[0]);
      var t :- DecodeRelays(elems[1..]);
      Success([h] + t)
  }

  // ---------------------------------------------------------------------
  // MoveInstantaneousRewardsCertificateReward.UnmarshalCBOR
  // ---------------------------------------------------------------------

  datatype MirMapShape = MirMapShape(source: uint64, rewards: Option<seq<RewardEntry>>)
  datatype MirCoinShape = MirCoinShape(source: uint64, coin: uint64)

  function DecodeMirMapShape(data: Item): Result<MirMapShape, CborError>
  {
    var f :- Fields(data, 2);
    var s :- AsUInt(f[0]);
    var rw :- AsNullable(f[1], AsRewards);
    Success(MirMapShape(s, rw))
  }

  /**
   * The `Source` left in the map-shape scratch record by the map attempt.
   * The CBOR library fills the fields of an array-shaped struct in order and
   * keeps the ones that fit when a later one does not; an array of the wrong
   * length leaves the record untouched.
   */
  function MirMapScratchSource(data: Item): uint64
  {
    if data.Array? && |data.elems| == 2 && data.elems[0].UInt? then data.elems[0].u else 0
  }

  function DecodeMirCoinShape(data: Item): Result<MirCoinShape, CborError>
  {
    var f :- Fields(data, 2);
    var s :- AsUInt(f[0]);
    var c :- AsUInt(f[1]);
    Success(MirCoinShape(s, c))
  }

  /**
   * Decodes `data` into the receiver `r`: first as `[source, {credential => coin}]`,
   * then as `[source, coin]`. The coin path takes `Source` from the map attempt's
   * scratch record, not from the coin record.
   */
  function UnmarshalMirReward(r: MirReward, data: Item): (u: Updated<MirReward>)
    // the map shape wins whenever it decodes, and leaves OtherPot alone
    ensures DecodeMirMapShape(data).Success? ==>
              u.err.None? && u.value.rewards == DecodeMirMapShape(data).value.rewards &&
              u.value.source == DecodeMirMapShape(data).value.source && u.value.otherPot == r.otherPot
    // otherwise the coin shape sets OtherPot, with Source from the map attempt, and leaves Rewards alone
    ensures DecodeMirMapShape(data).Failure? && DecodeMirCoinShape(data).Success? ==>
              u.err.None? && u.value.otherPot == DecodeMirCoinShape(data).value.coin &&
              u.value.source == MirMapScratchSource(data) && u.value.rewards == r.rewards
    // an error exactly when both shapes fail, and then the receiver is untouched
    ensures u.err.Some? <==> DecodeMirMapShape(data).Failure? && DecodeMirCoinShape(data).Failure?
    ensures u.err.Some? ==> u == Updated(r, Some(NoKnownMirShape))
  {
    match DecodeMirMapShape(data)
    case Success(m) => Updated(r.(rewards := m.rewards, source := m.source), None)
    case Failure(_) =>
      match DecodeMirCoinShape(data)
      case Success(c) => Updated(r.(otherPot := c.coin, source := MirMapScratchSource(data)), None)
      case Failure(_) => Updated(r, Some(NoKnownMirShape))
  }

  function DecodeMirReward(data: Item): Result<MirReward, CertError>
  {
    var u := UnmarshalMirReward(ZeroMirReward, data);
    if u.err.Some? then Failure(u.err.value) else Success(u.value)
  }

  // ---------------------------------------------------------------------
  // Certificate bodies and CertificateWrapper.UnmarshalCBOR
  // ---------------------------------------------------------------------

  function DecodeStakeRegistration(data: Item): Result<Certificate, CertError>
  {
    var f :- Lift(Fields(data, 2));
    var t :- Lift(AsUInt(f[0]));
    var cred :- Lift(DecodeStakeCredential(f[1]));
    Success(StakeRegistration(t, cred))
  }

  function DecodeStakeDeregistration(data: Item): Result<Certificate, CertError>
  {
    var f :- Lift(Fields(data, 2));
    var t :- Lift(AsUInt(f[0]));
    var cred :- Lift(DecodeStakeCredential(f[1]));
    Success(StakeDeregistration(t, cred))
  }

  function DecodeStakeDelegation(data: Item): Result<Certificate, CertError>
  {
    var f :- Lift(Fields(data, 3));
    var t :- Lift(AsUInt(f[0]));
    var cred :- Lift(AsNullable(f[1], DecodeStakeCredential));
    var pool :- Lift(AsBytes(f[2]));
    Success(StakeDelegation(t, cred, pool))
  }

  function DecodePoolRegistration(data: Item): Result<Certificate, CertError>
  {
    var f :- Lift(Fields(data, 10));
    var t :- Lift(AsUInt(f[0]));
    var operator :- Lift(AsBytes(f[1]));
    var vrf :- Lift(AsBytes(f[2]));
    var pledge :- Lift(AsUInt(f[3]));
    var cost :- Lift(AsUInt(f[4]));
    var margin :- Lift(DecodeRational(f[5]));
    var account :- Lift(AsBytes(f[6]));
    var ownerItems :- Lift(AsList(f[7]));
    var owners :- Lift(DecodeByteStrings(ownerItems));
    var relayItems :- Lift(AsList(f[8]));
    var relays :- DecodeRelays(relayItems);
    var metadata :- Lift(AsNullable(f[9], DecodePoolMetadata));
    Success(PoolRegistration(t, operator, vrf, pledge, cost, margin, account, owners, relays, metadata))
  }

  function DecodePoolRetirement(data: Item): Result<Certificate, CertError>
  {
    var f :- Lift(Fields(data, 3));
    var t :- Lift(AsUInt(f[0]));
    var pool :- Lift(AsBytes(f[1]));
    var epoch :- Lift(AsUInt(f[2]));
    Success(PoolRetirement(t, pool, epoch))
  }

  function DecodeGenesisKeyDelegation(data: Item): Result<Certificate, CertError>
  {
    var f :- Lift(Fields(data, 4));
    var t :- Lift(AsUInt(f[0]));
    var genesis :- Lift(AsBytes(f[1]));
    var delegate :- Lift(AsBytes(f[2]));
    var vrf :- Lift(AsBytes(f[3]));
    Success(GenesisKeyDelegation(t, genesis, delegate, vrf))
  }

  function DecodeMoveInstantaneousRewards(data: Item): Result<Certificate, CertError>
  {
    var f :- Lift(Fields(data, 2));
    var t :- Lift(AsUInt(f[0]));
    var reward :- DecodeMirReward(f[1]);
    Success(MoveInstantaneousRewards(t, reward))
  }

  /** The body decoder registered for a known tag. */
  function DecodeBody(t: uint64, data: Item): Result<Certificate, CertError>
    requires t <= MoveInstantaneousRewardsTag
  {
    if t == StakeRegistrationTag then DecodeStakeRegistration(data)
    else if t == StakeDeregistrationTag then DecodeStakeDeregistration(data)
    else if t == StakeDelegationTag then DecodeStakeDelegation(data)
    else if t == PoolRegistrationTag then DecodePoolRegistration(data)
    else if t == PoolRetirementTag then DecodePoolRetirement(data)
    else if t == GenesisKeyDelegationTag then DecodeGenesisKeyDelegation(data)
    else DecodeMoveInstantaneousRewards(data)
  }

  /** What CertificateWrapper.UnmarshalCBOR decodes `data` to, or the error it returns. */
  function DecodeCertificate(data: Item): (r: Result<Certificate, CertError>)
    // no leading id: that error is returned
    ensures DecodeIdFromList(data).Failure? ==> r == Failure(Cbor(DecodeIdFromList(data).error))
    // a tag outside 0..6 is rejected by name and never defaults to a kind
    ensures DecodeIdFromList(data).Success? && DecodeIdFromList(data).value > MoveInstantaneousRewardsTag ==>
              r == Failure(UnknownCertificateType(DecodeIdFromList(data).value))
    // a success is of the kind the leading tag selects, and records that tag
    ensures r.Success? ==>
              DecodeIdFromList(data) == Success(r.value.certType) && KindTag(r.value) == r.value.certType
    // each tag 0..6 yields exactly its own body decoder's result, success or error
    ensures DecodeIdFromList(data) == Success(StakeRegistrationTag) ==> r == DecodeStakeRegistration(data)
    ensures DecodeIdFromList(data) == Success(StakeDeregistrationTag) ==> r == DecodeStakeDeregistration(data)
    ensures DecodeIdFromList(data) == Success(StakeDelegationTag) ==> r == DecodeStakeDelegation(data)
    ensures DecodeIdFromList(data) == Success(PoolRegistrationTag) ==> r == DecodePoolRegistration(data)
    ensures DecodeIdFromList(data) == Success(PoolRetirementTag) ==> r == DecodePoolRetirement(data)
    ensures DecodeIdFromList(data) == Success(GenesisKeyDelegationTag) ==> r == DecodeGenesisKeyDelegation(data)
    ensures DecodeIdFromList(data) == Success(MoveInstantaneousRewardsTag) ==> r == DecodeMoveInstantaneousRewards(data)
  {
    var t :- Lift(DecodeIdFromList(data));
    if t <= MoveInstantaneousRewardsTag then DecodeBody(t, data)
    else Failure(UnknownCertificateType(t))
  }

  // ---------------------------------------------------------------------
  // Encoding
  // ---------------------------------------------------------------------

  function EncodeStakeCredential(c: StakeCredential): Item
  {
    Array([UInt(c.credType), ByteString(c.hash)])
  }

  function EncodePoolMetadata(m: PoolMetadata): Item
  {
    Array([TextString(m.url), ByteString(m.hash)])
  }

  function EncodeRational(r: Rational): Item
  {
    Tag(RationalTag, Array([UInt(r.num), UInt(r.denom)]))
  }

  function EncodePort(p: uint32): Item
  {
    UInt(p as int as uint64)
  }

  function EncodeByteStrings(bs: seq<Bytes>): (r: seq<Item>)
    ensures |r| == |bs|
  {
    if |bs| == 0 then [] else [ByteString(bs[0])] + EncodeByteStrings(bs[1..])
  }

  function EncodeRewardEntries(es: seq<RewardEntry>): (r: seq<Entry>)
    ensures |r| == |es|
  {
    if |es| == 0 then []
    else [Entry(FromNullable(es[0].credential, EncodeStakeCredential), UInt(es[0].amount))] + EncodeRewardEntries(es[1..])
  }

  /** A relay as the array shape its type selects. */
  function EncodeRelay(r: PoolRelay): Item
  {
    if r.relayType == SingleHostAddressRelay then
      Array([UInt(r.relayType), FromNullable(r.port, EncodePort),
             FromNullable(r.ipv4, b => ByteString(b)), FromNullable(r.ipv6, b => ByteString(b))])
    else if r.relayType == SingleHostNameRelay then
      Array([UInt(r.relayType), FromNullable(r.port, EncodePort), FromNullable(r.hostname, s => TextString(s))])
    else
      Array([UInt(r.relayType), FromNullable(r.hostname, s => TextString(s))])
  }

  function EncodeRelays(rs: seq<PoolRelay>): (r: seq<Item>)
    ensures |r| == |rs|
  {
    if |rs| == 0 then [] else [EncodeRelay(rs[0])] + EncodeRelays(rs[1..])
  }

  /** A MIR payload as the map shape when it carries a rewards map, else as the coin shape. */
  function EncodeMirReward(w: MirReward): Item
  {
    match w.rewards
    case Some(es) => Array([UInt(w.source), Map(EncodeRewardEntries(es))])
    case None => Array([UInt(w.source), UInt(w.otherPot)])
  }

  /** The certificate encoder with relays and MIR payloads in their wire shapes. */
  function EncodeCertificate(c: Certificate): Item
  {
    match c
    case StakeRegistration(t, cred) => Array([UInt(t), EncodeStakeCredential(cred)])
    case StakeDeregistration(t, cred) => Array([UInt(t), EncodeStakeCredential(cred)])
    case StakeDelegation(t, cred, pool) =>
      Array([UInt(t), FromNullable(cred, EncodeStakeCredential), ByteString(pool)])
    case PoolRegistration(t, operator, vrf, pledge, cost, margin, account, owners, relays, metadata) =>
      Array([UInt(t), ByteString(operator), ByteString(vrf), UInt(pledge), UInt(cost),
             EncodeRational(margin), ByteString(account), Array(EncodeByteStrings(owners)),
             Array(EncodeRelays(relays)), FromNullable(metadata, EncodePoolMetadata)])
    case PoolRetirement(t, pool, epoch) => Array([UInt(t), ByteString(pool), UInt(epoch)])
    case GenesisKeyDelegation(t, genesis, delegate, vrf) =>
      Array([UInt(t), ByteString(genesis), ByteString(delegate), ByteString(vrf)])
    case MoveInstantaneousRewards(t, reward) => Array([UInt(t), EncodeMirReward(reward)])
  }

  /**
   * A relay as MarshalCBOR writes it: PoolRelay has neither an array marker
   * nor an encoder of its own, so the CBOR library writes it as a map from
   * field names to values.
   */
  function EncodeRelayAsWritten(r: PoolRelay): Item
  {
    Map([Entry(TextString("Type"), UInt(r.relayType)),
         Entry(TextString("Port"), FromNullable(r.port, EncodePort)),
         Entry(TextString("Ipv4"), FromNullable(r.ipv4, b => ByteString(b))),
         Entry(TextString("Ipv6"), FromNullable(r.ipv6, b => ByteString(b))),
         Entry(TextString("Hostname"), FromNullable(r.hostname, s => TextString(s)))])
  }

  function EncodeRelaysAsWritten(rs: seq<PoolRelay>): (r: seq<Item>)
    ensures |r| == |rs|
  {
    if |rs| == 0 then [] else [EncodeRelayAsWritten(rs[0])] + EncodeRelaysAsWritten(rs[1..])
  }

  /** A MIR payload as MarshalCBOR writes it: a map from field names, for the same reason. */
  function EncodeMirRewardAsWritten(w: MirReward): Item
  {
    Map([Entry(TextString("Source"), UInt(w.source)),
         Entry(TextString("Rewards"), FromNullable(w.rewards, es => Map(EncodeRewardEntries(es)))),
         Entry(TextString("OtherPot"), UInt(w.otherPot))])
  }

  /**
   * CertificateWrapper.MarshalCBOR of a certificate, as the Go code writes it:
   * the same arrays as the decoder reads, except for relays and MIR payloads.
   */
  function EncodeCertificateAsWritten(c: Certificate): (r: Item)
    ensures DecodeIdFromList(r) == Success(c.certType)
    ensures !c.MoveInstantaneousRewards? && !(c.PoolRegistration? && |c.relays| > 0) ==> r == EncodeCertificate(c)
  {
    match c
    case PoolRegistration(t, operator, vrf, pledge, cost, margin, account, owners, relays, metadata) =>
      Array([UInt(t), ByteString(operator), ByteString(vrf), UInt(pledge), UInt(cost),
             EncodeRational(margin), ByteString(account), Array(EncodeByteStrings(owners)),
             Array(EncodeRelaysAsWritten(relays)), FromNullable(metadata, EncodePoolMetadata)])
    case MoveInstantaneousRewards(t, reward) => Array([UInt(t), EncodeMirRewardAsWritten(reward)])
    case _ => EncodeCertificate(c)
  }

  // ---------------------------------------------------------------------
  // CertificateWrapper
  // ---------------------------------------------------------------------

  /** Holds one certificate of any kind together with the tag it was decoded under. */
  class CertificateWrapper {
    var certType: uint64
    var certificate: Option<Certificate>

    constructor ()
      ensures certType == 0 && certificate == None
    {
      certType := 0;
      certificate := None;
    }

    /**
     * Reads the leading tag, picks the body decoder for it and decodes; the
     * two fields are written only once the body has decoded.
     */
    method UnmarshalCbor(data: Item) returns (err: Option<CertError>)
      modifies this
      ensures err.None? <==> DecodeCertificate(data).Success?
      ensures err.None? ==>
                certificate == Some(DecodeCertificate(data).value) &&
                certType == DecodeIdFromList(data).value
      ensures err.Some? ==>
                err.value == DecodeCertificate(data).error &&
                certType == old(certType) && certificate == old(certificate)
    {
      var id := DecodeIdFromList(data);
      if id.Failure? {
        return Some(Cbor(id.error));
      }
      var t := id.value;
      var body: Result<Certificate, CertError>;
      if t == StakeRegistrationTag {
        body := DecodeStakeRegistration(data);
      } else if t == StakeDeregistrationTag {
        body := DecodeStakeDeregistration(data);
      } else if t == StakeDelegationTag {
        body := DecodeStakeDelegation(data);
      } else if t == PoolRegistrationTag {
        body := DecodePoolRegistration(data);
      } else if t == PoolRetirementTag {
        body := DecodePoolRetirement(data);
      } else if t == GenesisKeyDelegationTag {
        body := DecodeGenesisKeyDelegation(data);
      } else if t == MoveInstantaneousRewardsTag {
        body := DecodeMoveInstantaneousRewards(data);
      } else {
        return Some(UnknownCertificateType(t));
      }
      if body.Failure? {
        return Some(body.error);
      }
      certType := t;
      certificate := Some(body.value);
      err := None;
    }

    /** MarshalCBOR: the held certificate as the Go code encodes it, or CBOR null when there is none. */
    function MarshalCbor(): (r: Item)
      reads this
      ensures certificate.None? ==> r == Null
      ensures certificate.Some? ==> DecodeIdFromList(r) == Success(certificate.value.certType)
    {
      match certificate
      case None => Null
      case Some(c) => EncodeCertificateAsWritten(c)
    }
  }

  // ---------------------------------------------------------------------
  // Conversion to the utxorpc records
  // ---------------------------------------------------------------------

  datatype UtxoStakeCredential = CredentialUnset | AddrKeyHash(addrKeyHash: Bytes) | ScriptHash(scriptHash: Bytes)

  /** utxorpc Relay; an absent field is the protobuf zero value. */
  datatype UtxoRelay = UtxoRelay(ipV4: Bytes, ipV6: Bytes, port: uint32)

  datatype UtxoPoolMetadata = UtxoPoolMetadata(url: string, hash: Bytes)

  /** A MIR target; an absent credential is a nil protobuf field. */
  datatype MirTarget = MirTarget(stakeCredential: Option<UtxoStakeCredential>, deltaCoin: int64)

  datatype UtxoCertificate =
    | UtxoStakeRegistration(credential: UtxoStakeCredential)
    | UtxoStakeDeregistration(credential: UtxoStakeCredential)
    | UtxoStakeDelegation(delegator: Option<UtxoStakeCredential>, poolKeyhash: Bytes)
    | UtxoPoolRegistration(
        operator: Bytes,
        vrfKeyhash: Bytes,
        pledge: uint64,
        cost: uint64,
        rewardAccount: Bytes,
        poolOwners: seq<Bytes>,
        relays: seq<UtxoRelay>,
        poolMetadata: Option<UtxoPoolMetadata>)
    | UtxoPoolRetirement(poolKeyhash: Bytes, epoch: uint64)
    | UtxoGenesisKeyDelegation(genesisHash: Bytes, genesisDelegateHash: Bytes, vrfKeyhash: Bytes)
    | UtxoMirCert(from: int32, to: seq<MirTarget>, otherPot: uint64)

  /** StakeCredential.Utxorpc: the credential type picks the variant, the hash is carried as is. */
  function StakeCredentialUtxorpc(c: StakeCredential): (r: UtxoStakeCredential)
    ensures r.AddrKeyHash? <==> c.credType == AddrKeyHashCredential
    ensures r.ScriptHash? <==> c.credType == ScriptHashCredential
    ensures r.AddrKeyHash? ==> r.addrKeyHash == c.hash
    ensures r.ScriptHash? ==> r.scriptHash == c.hash
  {
    if c.credType == AddrKeyHashCredential then AddrKeyHash(c.hash)
    else if c.credType == ScriptHashCredential then ScriptHash(c.hash)
    else CredentialUnset
  }

  /** A *StakeCredential converted, with nil left absent. */
  function CredentialUtxorpc(c: Option<StakeCredential>): (r: Option<UtxoStakeCredential>)
    ensures r.Some? <==> c.Some?
    ensures c.Some? ==> r.value == StakeCredentialUtxorpc(c.value)
  {
    match c
    case None => None
    case Some(sc) => Some(StakeCredentialUtxorpc(sc))
  }

  /** PoolRelay.Utxorpc: the present address fields and port; the hostname is not carried. */
  function RelayUtxorpc(r: PoolRelay): (u: UtxoRelay)
    ensures u.port == (if r.port.Some? then r.port.value else 0)
    ensures u.ipV4 == (if r.ipv4.Some? then r.ipv4.value else [])
    ensures u.ipV6 == (if r.ipv6.Some? then r.ipv6.value else [])
  {
    var port: uint32 := if r.port.Some? then r.port.value else 0;
    var v4 := if r.ipv4.Some? then r.ipv4.value else [];
    var v6 := if r.ipv6.Some? then r.ipv6.value else [];
    UtxoRelay(v4, v6, port)
  }

  /** PoolMetadata.Utxorpc: the URL and the hash, carried unchanged. */
  function PoolMetadataUtxorpc(m: PoolMetadata): (u: UtxoPoolMetadata)
    ensures u.url == m.url && u.hash == m.hash
  {
    UtxoPoolMetadata(m.url, m.hash)
  }

  /** The relays converted one by one, in order. */
  function RelaysUtxorpc(rs: seq<PoolRelay>): (us: seq<UtxoRelay>)
    ensures |us| == |rs|
    ensures forall i :: 0 <= i < |rs| ==> us[i] == RelayUtxorpc(rs[i])
  {
    seq(|rs|, i requires 0 <= i < |rs| => RelayUtxorpc(rs[i]))
  }

  /** The pool registration record, with a null metadata pointer kept absent. */
  function PoolRegistrationToUtxorpc(c: Certificate): UtxoCertificate
    requires c.PoolRegistration?
  {
    UtxoPoolRegistration(
      c.operator, c.vrfKeyHash, c.pledge, c.cost, c.rewardAccount, c.poolOwners,
      RelaysUtxorpc(c.relays),
      match c.poolMetadata case None => None case Some(m) => Some(PoolMetadataUtxorpc(m)))
  }

  /**
   * PoolRegistrationCertificate.Utxorpc: fills the owner and relay slices
   * index by index, then builds the record.
   */
  method BuildPoolRegistration(c: Certificate) returns (r: UtxoCertificate)
    requires c.PoolRegistration?
    ensures r == PoolRegistrationToUtxorpc(c)
    ensures |r.poolOwners| == |c.poolOwners| && |r.relays| == |c.relays|
    ensures forall i :: 0 <= i < |c.poolOwners| ==> r.poolOwners[i] == c.poolOwners[i]
    ensures forall i :: 0 <= i < |c.relays| ==> r.relays[i] == RelayUtxorpc(c.relays[i])
    // wherever the Go code does not dereference a nil metadata pointer, it builds the same record
    ensures c.poolMetadata.Some? ==> CertificateUtxorpcAsWritten(c) == Some(r)
  {
    var owners := new Bytes[|c.poolOwners|];
    var i := 0;
    while i < |c.poolOwners|
      invariant 0 <= i <= |c.poolOwners|
      invariant forall k :: 0 <= k < i ==> owners[k] == c.poolOwners[k]
    {
      owners[i] := c.poolOwners[i];
      i := i + 1;
    }
    var ownerList := owners[..];
    assert ownerList == c.poolOwners;
    var relays := new UtxoRelay[|c.relays|](_ => UtxoRelay([], [], 0));
    var j := 0;
    while j < |c.relays|
      invariant 0 <= j <= |c.relays|
      invariant forall k :: 0 <= k < j ==> relays[k] == RelayUtxorpc(c.relays[k])
    {
      relays[j] := RelayUtxorpc(c.relays[j]);
      j := j + 1;
    }
    var metadata := match c.poolMetadata case None => None case Some(m) => Some(PoolMetadataUtxorpc(m));
    assert relays[..] == RelaysUtxorpc(c.relays);
    r := UtxoPoolRegistration(
      c.operator, c.vrfKeyHash, c.pledge, c.cost, c.rewardAccount, ownerList, relays[..], metadata);
  }

  /** One MIR target per rewards entry, in the order of the entries. */
  function MirTargets(es: seq<RewardEntry>): (ts: seq<MirTarget>)
    ensures |ts| == |es|
    ensures forall i :: 0 <= i < |es| ==>
              ts[i] == MirTarget(CredentialUtxorpc(es[i].credential), ToInt64(es[i].amount))
  {
    seq(|es|, i requires 0 <= i < |es| => MirTarget(CredentialUtxorpc(es[i].credential), ToInt64(es[i].amount)))
  }

  function MirToUtxorpc(w: MirReward): UtxoCertificate
  {
    UtxoMirCert(ToInt32(w.source), match w.rewards case None => [] case Some(es) => MirTargets(es), w.otherPot)
  }

  /**
   * MoveInstantaneousRewardsCertificate.Utxorpc: appends one target per
   * rewards entry, then builds the record.
   */
  method BuildMirCert(w: MirReward) returns (r: UtxoCertificate)
    ensures r == MirToUtxorpc(w)
    ensures r.from as int % 0x1_0000_0000 == w.source as int % 0x1_0000_0000 && r.otherPot == w.otherPot
    ensures |r.to| == (if w.rewards.Some? then |w.rewards.value| else 0)
    // wherever the Go code does not dereference a nil rewards key, it builds the same record
    ensures !DereferencesNil(MoveInstantaneousRewards(MoveInstantaneousRewardsTag, w)) ==>
              CertificateUtxorpcAsWritten(MoveInstantaneousRewards(MoveInstantaneousRewardsTag, w)) == Some(r)
  {
    var es := if w.rewards.Some? then w.rewards.value else [];
    var targets: seq<MirTarget> := [];
    var i := 0;
    while i < |es|
      invariant 0 <= i <= |es|
      invariant targets == MirTargets(es[..i])
    {
      targets := targets + [MirTarget(CredentialUtxorpc(es[i].credential), ToInt64(es[i].amount))];
      i := i + 1;
    }
    assert es[..i] == es;
    r := UtxoMirCert(ToInt32(w.source), targets, w.otherPot);
  }

  /** The certificate kind a utxorpc record stands for, by the ledger tag of that kind. */
  function UtxoKindTag(u: UtxoCertificate): uint64
  {
    match u
    case UtxoStakeRegistration(_) => StakeRegistrationTag
    case UtxoStakeDeregistration(_) => StakeDeregistrationTag
    case UtxoStakeDelegation(_, _) => StakeDelegationTag
    case UtxoPoolRegistration(_, _, _, _, _, _, _, _) => PoolRegistrationTag
    case UtxoPoolRetirement(_, _) => PoolRetirementTag
    case UtxoGenesisKeyDelegation(_, _, _) => GenesisKeyDelegationTag
    case UtxoMirCert(_, _, _) => MoveInstantaneousRewardsTag
  }

  /**
   * Certificate.Utxorpc with every nil pointer handled by leaving that field
   * absent: the record of the certificate's own kind, with its fields carried over.
   */
  function CertificateUtxorpc(c: Certificate): (r: UtxoCertificate)
    ensures UtxoKindTag(r) == KindTag(c)
    ensures c.StakeRegistration? ==> r.credential == StakeCredentialUtxorpc(c.credential)
    ensures c.StakeDeregistration? ==> r.credential == StakeCredentialUtxorpc(c.credential)
    ensures c.StakeDelegation? ==> r.delegator == CredentialUtxorpc(c.delegator) && r.poolKeyhash == c.poolKeyHash
    ensures c.PoolRegistration? ==>
              && r.operator == c.operator && r.vrfKeyhash == c.vrfKeyHash
              && r.pledge == c.pledge && r.cost == c.cost && r.rewardAccount == c.rewardAccount
              && r.poolOwners == c.poolOwners && r.relays == RelaysUtxorpc(c.relays)
              && (r.poolMetadata.Some? <==> c.poolMetadata.Some?)
              && (c.poolMetadata.Some? ==> r.poolMetadata.value == PoolMetadataUtxorpc(c.poolMetadata.value))
    ensures c.PoolRetirement? ==> r.poolKeyhash == c.poolKeyHash && r.epoch == c.epoch
    ensures c.GenesisKeyDelegation? ==>
              r.genesisHash == c.genesisHash && r.genesisDelegateHash == c.genesisDelegateHash && r.vrfKeyhash == c.vrfKeyHash
    ensures c.MoveInstantaneousRewards? ==>
              && r.from == ToInt32(c.reward.source) && r.otherPot == c.reward.otherPot
              && r.to == (if c.reward.rewards.Some? then MirTargets(c.reward.rewards.value) else [])
  {
    match c
    case StakeRegistration(_, cred) => UtxoStakeRegistration(StakeCredentialUtxorpc(cred))
    case StakeDeregistration(_, cred) => UtxoStakeDeregistration(StakeCredentialUtxorpc(cred))
    case StakeDelegation(_, cred, pool) => UtxoStakeDelegation(CredentialUtxorpc(cred), pool)
    case PoolRegistration(_, _, _, _, _, _, _, _, _, _) => PoolRegistrationToUtxorpc(c)
    case PoolRetirement(_, pool, epoch) => UtxoPoolRetirement(pool, epoch)
    case GenesisKeyDelegation(_, genesis, delegate, vrf) => UtxoGenesisKeyDelegation(genesis, delegate, vrf)
    case MoveInstantaneousRewards(_, w) => MirToUtxorpc(w)
  }

  /** Whether some key of a rewards map is a nil *StakeCredential. */
  predicate HasNilKey(es: seq<RewardEntry>)
  {
    exists i :: 0 <= i < |es| && es[i].credential.None?
  }

  /** The certificates on which the Go code's Utxorpc follows a nil pointer. */
  predicate DereferencesNil(c: Certificate)
  {
    || (c.StakeDelegation? && c.delegator.None?)
    || (c.PoolRegistration? && c.poolMetadata.None?)
    || (c.MoveInstantaneousRewards? && c.reward.rewards.Some? && HasNilKey(c.reward.rewards.value))
  }

  /**
   * Certificate.Utxorpc as the Go code writes it; None stands for the panic
   * of calling Utxorpc through a nil *StakeCredential (the delegator, or a
   * rewards-map key) or a nil *PoolMetadata.
   */
  function CertificateUtxorpcAsWritten(c: Certificate): (r: Option<UtxoCertificate>)
    ensures r.None? <==> DereferencesNil(c)
    ensures r.Some? ==> r.value == CertificateUtxorpc(c)
  {
    match c
    case StakeDelegation(_, cred, pool) =>
      if cred.None? then None
      else Some(UtxoStakeDelegation(Some(StakeCredentialUtxorpc(cred.value)), pool))
    case PoolRegistration(_, _, _, _, _, _, _, _, _, metadata) =>
      if metadata.None? then None else Some(PoolRegistrationToUtxorpc(c))
    case MoveInstantaneousRewards(_, w) =>
      if w.rewards.Some? && exists i :: 0 <= i < |w.rewards.value| && w.rewards.value[i].credential.None? then None
      else Some(MirToUtxorpc(w))
    case _ => Some(CertificateUtxorpc(c))
  }
}
