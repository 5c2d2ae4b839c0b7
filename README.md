# gouroboros core, modelled in Dafny

This project models four pieces of the gouroboros Ouroboros-network library and proves properties of that model:

- **Ledger certificate decoding** (`ledger/certs.go`). A certificate is a CBOR array whose leading unsigned integer picks one of seven closed shapes. Stake registration, deregistration and delegation, pool registration and retirement, genesis key delegation and move-instantaneous-rewards (MIR) are the seven. `CertificateWrapper` commits its `Type` and `Certificate` fields only after the chosen body decodes. Inside a pool registration, each relay selects one of three relay shapes by its own leading tag. A MIR payload is tried first as a rewards map and then as a single coin. The `Utxorpc()` conversions map the decoded records to utxorpc records.
- **Block-era dispatch** (`ledger/block.go`). Eight block-type tags select an era's block decoder. The same tags select one of four header decoders. The input to the header hash is the prefix, when there is one, followed by the data.
- **The local-state-query server** (`protocol/localstatequery/server.go`). The negotiated version sets three feature flags. A received request is handed to one of five optional user callbacks.
- **The keep-alive client** (`protocol/keepalive/client.go`). The client takes a private copy of the state map and overrides one timeout in it. `Start` works once only. The client re-arms a single timer after each KeepAlive. A response handler accepts exactly one message type.

CBOR is modelled as an abstract `Cbor.Item` tree (`cbor.dfy`), not as bytes. `DecodeIdFromList` is "the first element of an array, which must be unsigned". A struct encoded as an array decodes only from an array with exactly its number of fields, filled in order; the first field of the wrong kind is the error.

`CertificateWrapper`, the LSQ `Server` and the keep-alive `Client` are classes, because the Go code updates their fields in place. The relay and MIR receivers are nested values inside a certificate, so their in-place `UnmarshalCBOR` is modelled as a function from the old receiver to the new receiver plus an error (`Certs.Updated`). `PoolRegistrationCertificate.Utxorpc` and the MIR `Utxorpc` fill slices in loops, and those are methods with loop invariants.

Collaborators the model cannot see are parameters:
- the era block and header decoders (`Blocks.EraDecoders`);
- the Blake2b-256 hash;
- the result of the engine's `SendMessage`;
- the user callbacks;
- the default keep-alive configuration;
- the template state maps.

Where the protocol's documented behaviour (version-gated queries, a fresh cookie per KeepAlive, a checked response cookie) and the code disagree, the model follows the code:
- The LSQ feature flags are set but never consulted by the message handler. No message type is rejected for the negotiated version.
- Every keep-alive KeepAlive carries the same `config.Cookie`. No new cookie is chosen per send.
- The response cookie is not compared with the one sent.

## Model

| member | source | states |
|---|---|---|
| Cbor.DecodeIdFromList | ledger/certs.go:41-45 | the leading id exists exactly when the item is a non-empty array whose first element is unsigned, and it is that element |
| Certs.UnmarshalRelay | ledger/certs.go:210-257 | the id is stored before the shape is checked; a tag above 2 is InvalidRelayType; a tag 0..2 succeeds exactly when its shape decodes and otherwise fails with that shape's own error; on error only the type changes; tag 0 writes only port/ipv4/ipv6, tag 1 only port/hostname, tag 2 only hostname, each with the values its shape decoded |
| Certs.UnmarshalMirReward | ledger/certs.go:392-416 | the map shape wins and leaves OtherPot alone; otherwise the coin shape sets OtherPot, takes Source from the map attempt's scratch record and leaves Rewards alone; an error exactly when both shapes fail, with the receiver untouched |
| Certs.DecodeCertificate | ledger/certs.go:40-72 | a missing id is a CBOR error; a tag above 6 is UnknownCertificateType; each tag 0..6 gives exactly its own body decoder's result, so a decodable body is accepted and a failing body's own error is returned; a decoded certificate carries the tag it was read under and is of the kind that tag names |
| Certs.CertificateWrapper.UnmarshalCbor | ledger/certs.go:40-72 | succeeds exactly when the certificate decodes; on success both fields hold the decoded tag and certificate; on any failure both fields are unchanged and the decode error is returned |
| Certs.CertificateWrapper.constructor | ledger/certs.go:35-38 | a fresh wrapper has type 0 and no certificate |
| Certs.CertificateWrapper.MarshalCbor | ledger/certs.go:74-76 | no certificate encodes as null; a held certificate's encoding leads with that certificate's type (that it decodes back exactly when no relay and no MIR payload is written is stated by MarshalCborRoundTrip, RelayEncodingDoesNotRoundTrip and MirEncodingDoesNotRoundTrip) |
| Certs.EncodeCertificateAsWritten | ledger/certs.go:74-76 | the default encoding leads with the certificate's type and agrees with the decoder's array shape on every certificate without relays or MIR payload |
| CertProperties.MarshalCborRoundTrip | ledger/certs.go:74-76 | a wrapper's encoding decodes back to the held certificate whenever no relay and no MIR payload is written |
| Certs.StakeCredentialUtxorpc | ledger/certs.go:96-109 | credential type 0 gives AddrKeyHash and 1 gives ScriptHash, each carrying the hash unchanged; any other type leaves the credential unset (both directions) |
| Certs.RelayUtxorpc | ledger/certs.go:259-274 | port, ipv4 and ipv6 are copied when present and are zero values otherwise |
| Certs.RelaysUtxorpc | ledger/certs.go:302-305 | one converted relay per relay, same length and order |
| Certs.BuildPoolRegistration | ledger/certs.go:297-324 | the loops produce the reference record; owners keep their length, order and contents; relays keep their length and order, converted one by one; whenever the metadata pointer is not nil the record is the one the Go code builds |
| Certs.MirTargets | ledger/certs.go:432-441 | one target per reward entry, in order, with the converted credential and the amount reinterpreted as int64 |
| Certs.BuildMirCert | ledger/certs.go:431-451 | the append loop produces the reference record; From is Source reinterpreted as int32, OtherPot is copied, one target per entry; whenever no rewards key is nil the record is the one the Go code builds |
| Certs.CertificateUtxorpcAsWritten | ledger/certs.go:167-451 | the Go code's conversion fails (nil dereference) exactly on a null delegation credential, null pool metadata or a null rewards-map key, and otherwise equals the corrected conversion |
| Certs.CertificateUtxorpc | ledger/certs.go:124-451 | the record is of the certificate's own kind, with its fields carried over: a stake (de)registration its converted credential, a delegation its credential (absent when nil) and pool key hash, a pool registration its keys, amounts, owners, converted relays and metadata, a retirement its pool key hash and epoch, a genesis delegation its three hashes, a MIR certificate From, OtherPot and one target per rewards entry |
| Certs.PoolMetadataUtxorpc | ledger/certs.go:189-194 | the URL and the hash are carried unchanged |
| Certs.CredentialUtxorpc | ledger/certs.go:437 | a present credential is converted; a nil one is left absent, as the corrected conversion does |
| Ints.ToInt64 | ledger/certs.go:438 | the 64-bit reinterpretation agrees with its input modulo 2^64 and is the identity below 2^63 |
| Ints.ToInt32 | ledger/certs.go:445 | the 32-bit conversion agrees with its input modulo 2^32 |
| CertProperties.ByteStringsRoundTrip | ledger/certs.go:286 | decoding the encoded owner list gives the list back |
| CertProperties.RewardEntriesRoundTrip | ledger/certs.go:388 | decoding the encoded rewards map gives the entries back |
| CertProperties.RelayRoundTrip | ledger/certs.go:210-257 | a relay the decoder can produce decodes back from its encoding |
| CertProperties.RelaysRoundTrip | ledger/certs.go:287 | a list of such relays decodes back from its encoding |
| CertProperties.MirRewardRoundTrip | ledger/certs.go:392-416 | a MIR payload the decoder can produce decodes back from its encoding, through either shape |
| CertProperties.CertificateRoundTrip | ledger/certs.go:40-76 | every well-formed certificate decodes back from its encoding |
| CertProperties.BodyRoundTrip | ledger/certs.go:47-64 | the body decoder selected by a certificate's tag inverts its encoding |
| CertProperties.PoolRegistrationRoundTrip | ledger/certs.go:276-295 | a pool registration decodes back from its encoding |
| CertProperties.DecodedRelaysWellFormed | ledger/certs.go:210-257 | every decoded relay has a known type and only its shape's fields set |
| CertProperties.DecodedCertificateWellFormed | ledger/certs.go:40-72 | every decoded certificate is well formed, so it is in the encoder's domain |
| CertProperties.DecodeEncodeDecode | ledger/certs.go:40-76 | re-encoding a decoded certificate and decoding again gives the same certificate |
| CertProperties.RelayErrorsAreRelayErrors | ledger/certs.go:210-257 | a relay list fails only with a CBOR or an InvalidRelayType error |
| CertProperties.UnknownCertificateTypeExactly | ledger/certs.go:62-63 | UnknownCertificateType(t) is returned if and only if the leading tag is t and t is above 6; no body error can be mistaken for it |
| CertProperties.MirCoinSourceIsCoinSource | ledger/certs.go:405-413 | when the coin shape is taken, the Source copied from the map attempt equals the coin record's own Source |
| CertProperties.RelayUtxorpcIgnoresHostname | ledger/certs.go:259-274 | the converted relay does not depend on the hostname or the relay type |
| CertProperties.StakeDelegationFixture | ledger/certs.go:153-176 | a concrete stake delegation decodes to the credential and pool key hash it was built from |
| CertProperties.NullPoolMetadataPanics | ledger/certs.go:297-324 | a registration with null metadata decodes, the Go code's conversion then fails, and the corrected one leaves the metadata absent |
| CertProperties.NullRewardKeyPanics | ledger/certs.go:431-441 | a MIR certificate whose rewards map has a null key decodes, the Go code's conversion then fails, and the corrected one leaves that target's credential absent |
| CertProperties.RelayEncodingDoesNotRoundTrip | ledger/certs.go:202-208 | a pool registration with a relay, encoded as the Go code writes it, does not decode |
| CertProperties.MirEncodingDoesNotRoundTrip | ledger/certs.go:386-390 | a MIR certificate encoded as the Go code writes it fails to decode with "no known shape" |
| Blocks.BlockTypeOf | ledger/block.go:39-59 | the eight tags 0..7 are exactly the known block types, and the tag of a type maps back to it |
| Blocks.NewBlockFromCbor | ledger/block.go:39-59 | an unknown tag, and only that, gives the node-to-client error; a known tag's result is its own era block decoder's result |
| Blocks.NewBlockHeaderFromCbor | ledger/block.go:62-75 | an unknown tag, and only that, gives the node-to-node error; a known tag reaches the header decoder of its format |
| Blocks.BlockDispatchIsInjective | ledger/block.go:40-57 | each tag reaches its own block decoder and no other |
| Blocks.HeaderDispatchFormats | ledger/block.go:63-73 | Shelley, Allegra, Mary and Alonzo share the Shelley header decoder; Babbage and Conway share the Babbage one; each Byron type has its own |
| Blocks.DispatchersAgreeOnTags | ledger/block.go:39-75 | both dispatchers reject exactly the same tags |
| Blocks.HeaderHashInput | ledger/block.go:81-84 | the hasher absorbs prefix ++ data with a prefix, and data alone without one |
| Blocks.GenerateBlockHeaderHash | ledger/block.go:77-86 | the header hash is the hash of prefix ++ data, or of data when there is no prefix |
| LocalStateQuery.FeaturesMonotone | protocol/localstatequery/server.go:36-42 | each feature enabled at a version stays enabled at every later version |
| LocalStateQuery.FeaturesBelowTen | protocol/localstatequery/server.go:36-42 | below version 10 every feature is off |
| LocalStateQuery.RewardInfoNeedsChainPoint | protocol/localstatequery/server.go:36-42 | GetRewardInfoPoolsBlock is never enabled without GetChainPoint and GetChainBlockNo |
| LocalStateQuery.Server.constructor | protocol/localstatequery/server.go:19-45 | the protocol has the server role, starts in Idle and uses the given state map; the flags are version ≥ 10, ≥ 10 and ≥ 11 |
| LocalStateQuery.Server.MessageHandler | protocol/localstatequery/server.go:47-123 | a non-request type is "unexpected" and calls nothing; a request with its callback unset is MissingCallback and calls nothing; otherwise the one callback the reference table names is called with the table's argument and its answer is returned |
| LocalStateQuery.AcquireVariantsCollapse | protocol/localstatequery/server.go:70-83 | Acquire(p) and AcquireNoPoint both reach AcquireFunc, with p and with no point |
| LocalStateQuery.ReAcquireVariantsCollapse | protocol/localstatequery/server.go:102-115 | ReAcquire(p) and ReAcquireNoPoint both reach ReAcquireFunc, with p and with no point |
| KeepAlive.ResolveConfig | protocol/keepalive/client.go:33-36 | a missing configuration is replaced by the defaults; a given one is used as is |
| KeepAlive.CopyWithServerTimeout | protocol/keepalive/client.go:41-45 | the copy has the template's keys; every entry but StateServer is unchanged; StateServer, when present, keeps its agency and transitions and gets the timeout |
| KeepAlive.Client.constructor | protocol/keepalive/client.go:32-68 | the configuration is resolved; the protocol has the client role, starts in StateClient and uses the overridden copy of the state map; nothing is started and no timer is held |
| KeepAlive.Client.StartTimer | protocol/keepalive/client.go:87-94 | a held timer is stopped before a fresh one is armed for the configured period, so exactly one timer is armed afterwards |
| KeepAlive.Client.SendKeepAlive | protocol/keepalive/client.go:78-85 | a KeepAlive with the configured cookie is sent, a send error is reported, and the timer is re-armed in both cases |
| KeepAlive.Client.Start | protocol/keepalive/client.go:71-76 | the first call starts the protocol and sends one KeepAlive; a later call changes nothing |
| KeepAlive.Client.MessageHandler | protocol/keepalive/client.go:96-118 | any type but KeepAliveResponse is "unexpected"; the response cookie reaches the callback unchanged and the callback's answer is returned; with no callback the response is accepted |
| KeepAlive.AtMostOneArmedTimer | protocol/keepalive/client.go:87-94 | a valid client never holds two live timers |

## Left out

- Byte-level CBOR encoding and decoding, `DecodeStoreCbor` and the raw bytes it keeps: CBOR is an abstract item tree, and the round trips are stated over items.
- Fixed hash and key lengths (Blake2b-224/256 arrays): hashes and keys are byte sequences of any length.
- CBOR null in a non-pointer field (an integer, a byte or text string, a slice, an embedded struct): the CBOR library leaves such a field at its zero value, while the model rejects the item with a schema mismatch; only the pointer fields (relay port and addresses, hostname, pool metadata, delegation credential, MIR rewards map and its keys) are nullable in the model.
- Certs.UnmarshalMirReward: a rewards map with several null keys is kept as one entry per key; in Go every null key is the same nil pointer, so the map keeps a single nil-keyed entry (or the decode fails, under duplicate-key checking), and which applies is the CBOR library's policy, which is not part of this model. Distinct non-null keys are distinct pointers in Go too, so only the null key is affected.
- BuildPoolRegistration: on a nil metadata pointer the Go code panics (ledger/certs.go:320); the method builds the corrected record with the metadata absent, and its contract ties it to the Go code only when the pointer is set.
- BuildMirCert: on a nil rewards-map key the Go code panics (ledger/certs.go:437); the method builds the corrected record with that target's credential absent, and its contract ties it to the Go code only when no key is nil.
- Certs.BuildPoolRegistration: the Go code narrows the margin's big rational to a 32-bit numerator (`int32` of its `Int64`) and a 32-bit denominator (`uint32` of its `Uint64`), after the big-number library has reduced the fraction; the model keeps the margin as the two unsigned 64-bit integers of the CBOR tag-30 pair, not reduced (so [2, 4] stays 2/4) and with a negative numerator rejected, and the utxorpc record it builds carries no margin.
- Certs.CertificateUtxorpc: for the same reason its pool-registration record carries no margin.
- `Certs.RelayUtxorpc`: `net.IP` addresses are carried as the decoded bytes.
- `Certs.BuildMirCert`: Go visits a map in random order; the model visits the rewards in decoded order, so the order of the targets is not a promise of the Go code.
- Hex encoding of the header hash and the Blake2b-256 algorithm: the hash is a function parameter and the result stays bytes.
- The era-specific block and header decoders: they are parameters of the dispatchers.
- `protocol.New`, `SendMessage`, `SendError` and the generic engine: the engine's send result is a parameter, and sends, reported errors and timer actions are recorded as events.
- Goroutines, the DoneChan cleanup that stops the timer on shutdown, `time.AfterFunc` firing and real time: a timer is an id that is armed or stopped, and a firing is a call to `SendKeepAlive`.
- `sync.Once` memory semantics: the once-only gate is a boolean field.
- A nil LSQ configuration: the server dereferences it on every request message (the unexpected-type branch does not read it), and the model always has a configuration.
- The keep-alive handler's `config != nil` test: the constructor always installs a configuration, so that test always passes.
- Protocol names and ids, muxer, error channel and mode options: they only pass through to the engine.
- Certificate variants and the relay or MIR receiver updated in place: the relay and MIR decoders are functions from the old receiver to the new one, so aliasing of a receiver is not modelled.
- The MIR scratch `Source` on the coin path depends on how the CBOR library fills a partly decodable array; the model fills the fields in order and keeps those that fit.

## Findings

| source | as written | input that shows it | evidently intended | confidence | as-written member | corrected member |
|---|---|---|---|---|---|---|
| ledger/certs.go:167-176, 297-324, 431-441 | `Utxorpc` calls through the delegation credential, the pool metadata and the rewards-map key pointers without a nil check, although all three decode from CBOR null | a pool registration whose last field is null (`NullPoolMetadataPanics`), or a MIR rewards map with a null key (`NullRewardKeyPanics`) | leave the utxorpc field absent when the pointer is nil | not executed | Certs.CertificateUtxorpcAsWritten | Certs.CertificateUtxorpc |
| ledger/certs.go:74-76, 202-208, 386-390 | `MarshalCBOR` re-encodes the certificate with the library's default struct encoding, and `PoolRelay` and the MIR reward have neither an array marker nor their own encoder, so they are written as field-name maps that their own decoders reject | any pool registration with a relay, or any MIR certificate (`RelayEncodingDoesNotRoundTrip`, `MirEncodingDoesNotRoundTrip`) | encode each relay and MIR payload in the array shape its decoder reads, so that decoding an encoded certificate gives it back | not executed | Certs.EncodeCertificateAsWritten | Certs.EncodeCertificate |
