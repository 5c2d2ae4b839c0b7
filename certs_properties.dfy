/**
 * Properties of the certificate model: the encoder is inverted by the
 * decoder, decoded certificates are in the encoder's canonical form, the
 * unknown-tag error comes from the tag alone, and the two defects of the Go code
 * shown by concrete inputs.
 */
module CertProperties {
  import opened Wrappers
  import opened Ints
  import opened Cbor
  import opened Certs

  /** A relay the decoder can produce: a known type, and only that shape's fields set. */
  predicate WellFormedRelay(r: PoolRelay)
  {
    && r.relayType <= MultiHostNameRelay
    && (r.relayType == SingleHostAddressRelay ==> r.hostname.None?)
    && (r.relayType == SingleHostNameRelay ==> r.ipv4.None? && r.ipv6.None?)
    && (r.relayType == MultiHostNameRelay ==> r.port.None? && r.ipv4.None? && r.ipv6.None?)
  }

  predicate WellFormedRelays(rs: seq<PoolRelay>)
  {
    forall i :: 0 <= i < |rs| ==> WellFormedRelay(rs[i])
  }

  /** A MIR payload the decoder can produce: a rewards map comes with a zero OtherPot. */
  predicate WellFormedMirReward(w: MirReward)
  {
    w.rewards.Some? ==> w.otherPot == 0
  }

  /** A certificate the decoder can produce. */
  predicate WellFormed(c: Certificate)
  {
    && c.certType == KindTag(c)
    && (c.PoolRegistration? ==> WellFormedRelays(c.relays))
    && (c.MoveInstantaneousRewards? ==> WellFormedMirReward(c.reward))
  }

  // ---------------------------------------------------------------------
  // Round trips of the field encoders
  // ---------------------------------------------------------------------

  lemma {:induction false} ByteStringsRoundTrip(bs: seq<Bytes>)
    ensures DecodeByteStrings(EncodeByteStrings(bs)) == Success(bs)
  {
    if |bs| > 0 {
      ByteStringsRoundTrip(bs[1..]);
      var enc := EncodeByteStrings(bs);
      assert enc[0] == ByteString(bs[0]) && enc[1..] == EncodeByteStrings(bs[1..]);
      assert [bs[0]] + bs[1..] == bs;
    }
  }

  lemma {:induction false} RewardEntriesRoundTrip(es: seq<RewardEntry>)
    ensures DecodeRewardEntries(EncodeRewardEntries(es)) == Success(es)
  {
    if |es| > 0 {
      RewardEntriesRoundTrip(es[1..]);
      var enc := EncodeRewardEntries(es);
      assert enc[0] == Entry(FromNullable(es[0].credential, EncodeStakeCredential), UInt(es[0].amount));
      assert enc[1..] == EncodeRewardEntries(es[1..]);
      assert [es[0]] + es[1..] == es;
    }
  }

  lemma RelayRoundTrip(r: PoolRelay)
    requires WellFormedRelay(r)
    ensures DecodeRelay(EncodeRelay(r)) == Success(r)
  {
  }

  lemma {:induction false} RelaysRoundTrip(rs: seq<PoolRelay>)
    requires WellFormedRelays(rs)
    ensures DecodeRelays(EncodeRelays(rs)) == Success(rs)
  {
    if |rs| > 0 {
      RelayRoundTrip(rs[0]);
      RelaysRoundTrip(rs[1..]);
      var enc := EncodeRelays(rs);
      assert enc[0] == EncodeRelay(rs[0]) && enc[1..] == EncodeRelays(rs[1..]);
      assert [rs[0]] + rs[1..] == rs;
    }
  }

  lemma MirRewardRoundTrip(w: MirReward)
    requires WellFormedMirReward(w)
    ensures DecodeMirReward(EncodeMirReward(w)) == Success(w)
  {
    if w.rewards.Some? {
      RewardEntriesRoundTrip(w.rewards.value);
    }
  }

  /** decode(encode(c)) == c for every certificate the decoder can produce. */
  lemma CertificateRoundTrip(c: Certificate)
    requires WellFormed(c)
    ensures DecodeCertificate(EncodeCertificate(c)) == Success(c)
  {
    var data := EncodeCertificate(c);
    assert DecodeIdFromList(data) == Success(KindTag(c));
    assert DecodeCertificate(data) == DecodeBody(KindTag(c), data);
    BodyRoundTrip(c);
  }

  lemma BodyRoundTrip(c: Certificate)
    requires WellFormed(c)
    ensures DecodeBody(KindTag(c), EncodeCertificate(c)) == Success(c)
  {
    match c
    case PoolRegistration(_, _, _, _, _, _, _, _, _, _) => PoolRegistrationRoundTrip(c);
    case MoveInstantaneousRewards(_, w) => MirRewardRoundTrip(w);
    case _ =>
  }

  lemma PoolRegistrationRoundTrip(c: Certificate)
    requires c.PoolRegistration? && WellFormed(c)
    ensures DecodePoolRegistration(EncodeCertificate(c)) == Success(c)
  {
    ByteStringsRoundTrip(c.poolOwners);
    RelaysRoundTrip(c.relays);
  }

  // ---------------------------------------------------------------------
  // What the decoder produces
  // ---------------------------------------------------------------------

  lemma {:induction false} DecodedRelaysWellFormed(elems: seq<Item>)
    requires DecodeRelays(elems).Success?
    ensures WellFormedRelays(DecodeRelays(elems).value)
  {
    if |elems| > 0 {
      DecodedRelaysWellFormed(elems[1..]);
    }
  }

  /** Every certificate the decoder returns is one the encoder reproduces. */
  lemma DecodedCertificateWellFormed(data: Item)
    requires DecodeCertificate(data).Success?
    ensures WellFormed(DecodeCertificate(data).value)
  {
    var c := DecodeCertificate(data).value;
    if c.PoolRegistration? {
      var f := data.elems;
      DecodedRelaysWellFormed(f[8].elems);
    }
  }

  /** Re-encoding a decoded certificate and decoding again gives the same certificate. */
  lemma DecodeEncodeDecode(data: Item)
    requires DecodeCertificate(data).Success?
    ensures DecodeCertificate(EncodeCertificate(DecodeCertificate(data).value)) == DecodeCertificate(data)
  {
    DecodedCertificateWellFormed(data);
    CertificateRoundTrip(DecodeCertificate(data).value);
  }

  // ---------------------------------------------------------------------
  // The unknown-tag error is distinguishable
  // ---------------------------------------------------------------------

  lemma {:induction false} RelayErrorsAreRelayErrors(elems: seq<Item>)
    requires DecodeRelays(elems).Failure?
    ensures DecodeRelays(elems).error.Cbor? || DecodeRelays(elems).error.InvalidRelayType?
  {
    if |elems| > 0 && DecodeRelay(elems[0]).Success? {
      RelayErrorsAreRelayErrors(elems[1..]);
    }
  }

  /** UnknownCertificateType(t) is returned exactly when the leading tag is t and t is outside 0..6. */
  lemma UnknownCertificateTypeExactly(data: Item, t: uint64)
    ensures DecodeCertificate(data) == Failure(UnknownCertificateType(t)) <==>
            DecodeIdFromList(data) == Success(t) && t > MoveInstantaneousRewardsTag
  {
    if DecodeIdFromList(data).Success? && DecodeIdFromList(data).value == PoolRegistrationTag {
      var f := data.elems;
      if |f| == 10 && f[8].Array? && DecodeRelays(f[8].elems).Failure? {
        RelayErrorsAreRelayErrors(f[8].elems);
      }
    }
  }

  /** When the coin shape is taken, the Source copied from the map attempt is the coin record's own Source. */
  lemma MirCoinSourceIsCoinSource(data: Item)
    requires DecodeMirMapShape(data).Failure? && DecodeMirCoinShape(data).Success?
    ensures MirMapScratchSource(data) == DecodeMirCoinShape(data).value.source
  {
  }

  /** Converting a relay ignores its hostname and its type. */
  lemma RelayUtxorpcIgnoresHostname(r: PoolRelay, host: Option<string>, t: uint64)
    ensures RelayUtxorpc(r.(hostname := host, relayType := t)) == RelayUtxorpc(r)
  {
  }

  // ---------------------------------------------------------------------
  // Concrete inputs
  // ---------------------------------------------------------------------

  /** A stake delegation decodes to the credential and pool key hash it was built from. */
  lemma StakeDelegationFixture()
    ensures DecodeCertificate(Array([UInt(2), Array([UInt(0), ByteString([1, 2, 3])]), ByteString([7, 8])]))
            == Success(StakeDelegation(2, Some(StakeCredential(0, [1, 2, 3])), [7, 8]))
  {
  }

  /** A registration without metadata decodes, and the Go code's Utxorpc then follows a nil pointer. */
  lemma NullPoolMetadataPanics()
    ensures var data := Array([UInt(3), ByteString([1]), ByteString([2]), UInt(500), UInt(340),
                               Tag(30, Array([UInt(1), UInt(100)])), ByteString([3]),
                               Array([ByteString([4])]), Array([]), Null]);
            && DecodeCertificate(data).Success?
            && CertificateUtxorpcAsWritten(DecodeCertificate(data).value) == None
            && CertificateUtxorpc(DecodeCertificate(data).value).poolMetadata == None
  {
  }

  /** A MIR rewards map with a null key decodes, and the Go code's Utxorpc then follows a nil pointer. */
  lemma NullRewardKeyPanics()
    ensures var data := Array([UInt(6), Array([UInt(0), Map([Entry(Null, UInt(5))])])]);
            && DecodeCertificate(data).Success?
            && CertificateUtxorpcAsWritten(DecodeCertificate(data).value) == None
            && CertificateUtxorpc(DecodeCertificate(data).value).to == [MirTarget(None, 5)]
  {
  }

  /**
   * The wrapper's MarshalCBOR is decoded back to the held certificate
   * whenever no relay and no MIR payload is written.
   */
  lemma MarshalCborRoundTrip(w: CertificateWrapper)
    requires w.certificate.Some? && WellFormed(w.certificate.value)
    requires !w.certificate.value.MoveInstantaneousRewards?
    requires w.certificate.value.PoolRegistration? ==> |w.certificate.value.relays| == 0
    ensures DecodeCertificate(w.MarshalCbor()) == Success(w.certificate.value)
  {
    CertificateRoundTrip(w.certificate.value);
  }

  /** MarshalCBOR's output, as the Go code writes it, for a registration with a relay does not decode. */
  lemma {:induction false} RelayEncodingDoesNotRoundTrip(c: Certificate)
    requires c.PoolRegistration? && |c.relays| > 0
    ensures DecodeCertificate(EncodeCertificateAsWritten(c)).Failure?
  {
    assert DecodeRelay(EncodeRelayAsWritten(c.relays[0])).Failure?;
    assert DecodeRelays(EncodeRelaysAsWritten(c.relays)).Failure?;
  }

  /** MarshalCBOR's output, as the Go code writes it, for a MIR certificate never decodes. */
  lemma MirEncodingDoesNotRoundTrip(c: Certificate)
    requires c.MoveInstantaneousRewards? && c.certType == MoveInstantaneousRewardsTag
    ensures DecodeCertificate(EncodeCertificateAsWritten(c)) == Failure(NoKnownMirShape)
  {
    var payload := EncodeMirRewardAsWritten(c.reward);
    assert DecodeMirMapShape(payload).Failure? && DecodeMirCoinShape(payload).Failure?;
    assert DecodeMirReward(payload) == Failure(NoKnownMirShape);
    assert DecodeCertificate(EncodeCertificateAsWritten(c))
        == DecodeMoveInstantaneousRewards(Array([UInt(c.certType), payload]));
  }
}
