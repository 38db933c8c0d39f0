/**
 The signed hybrid handshake (src/endpoint/mod.rs, src/protection/mod.rs): identities,
 prekey bundles, first packets and session accepts, and what checking each of them means.
 */
module Handshake {
  import opened Errors
  import opened Integers
  import opened Octets
  import opened Symbolic

  const MAX_PREKEY_SPAN_SECONDS := 604_800

  datatype IdentityPublic = IdentityPublic(
    stateDigest: Digest, ed25519KeyId: nat, ed25519Public: nat, mlDsa65KeyId: nat, mlDsa65Public: nat)

  /** An identity resolved through the caller's trust facts for one protection profile. */
  datatype TrustedIdentity = TrustedIdentity(identity: IdentityPublic, protectionProfile: Digest)

  /** Custody handles to the two signing keys, by the public keys they answer to. */
  datatype SigningHandles = SigningHandles(ed25519Public: nat, mlDsa65Public: nat)

  datatype AcceptFields = AcceptFields(
    transcript: Digest,
    context: Digest,
    initiatorAuthority: Digest,
    responderIdentityState: Digest,
    responderAuthority: Digest,
    pairSequence: nat)

  datatype Mac = MacUnder(key: Secret, fields: AcceptFields) | OtherMac(id: nat)

  datatype SessionAccept = SessionAccept(fields: AcceptFields, mac: Mac)

  function Rejection(): Error {
    Invalid(HandshakeRejected)
  }

  // ---- Shapes ----

  predicate PrekeyShape(bundle: BundleFields) {
    && 0 < bundle.pairSequence <= MAX_SAFE_INTEGER
    && bundle.validFrom < bundle.validUntil <= MAX_SAFE_INTEGER
    && bundle.validUntil - bundle.validFrom <= MAX_PREKEY_SPAN_SECONDS
  }

  predicate FirstPacketShape(packet: FirstPacket) {
    && PrekeyShape(packet.prekey.fields)
    && packet.offer.line == packet.prekey.fields.line
    && packet.offer.responderIdentityState == packet.prekey.fields.responderIdentityState
  }

  // ---- Signatures ----

  function Sign(signing: SigningHandles, statement: Statement): SignaturePair {
    SignedBy(signing.ed25519Public, signing.mlDsa65Public, statement)
  }

  predicate Verifies(identity: IdentityPublic, statement: Statement, signatures: SignaturePair) {
    signatures == SignedBy(identity.ed25519Public, identity.mlDsa65Public, statement)
  }

  predicate SignsAs(identity: IdentityPublic, signing: SigningHandles) {
    signing == SigningHandles(identity.ed25519Public, identity.mlDsa65Public)
  }

  predicate VerifiesBundle(identity: IdentityPublic, bundle: PrekeyBundle) {
    && PrekeyShape(bundle.fields)
    && bundle.fields.responderIdentityState == identity.stateDigest
    && bundle.fields.ed25519KeyId == identity.ed25519KeyId && bundle.fields.mlDsa65KeyId == identity.mlDsa65KeyId
    && Verifies(identity, BundleStatement(bundle.fields), bundle.signatures)
  }

  function IdsOf(identity: IdentityPublic): InitiatorIds {
    InitiatorIds(identity.stateDigest, identity.ed25519KeyId, identity.mlDsa65KeyId)
  }

  predicate VerifiesInitiator(identity: IdentityPublic, packet: FirstPacket) {
    && FirstPacketShape(packet)
    && packet.offer.initiator == IdsOf(identity)
    && Verifies(identity, InitiatorStatement(CoreOf(packet.offer, packet.prekey.fields)), packet.signatures)
  }

  // ---- Transcripts and secrets ----

  function PrekeyTranscriptOf(offer: Offer, bundle: BundleFields): Digest {
    PrekeyTranscript(offer.line, offer.initiator, bundle)
  }

  function CoreOf(offer: Offer, bundle: BundleFields): Digest {
    HandshakeCore(PrekeyTranscriptOf(offer, bundle), offer)
  }

  function HybridOf(x25519: Shared, mlKem: KemSecret, offer: Offer, bundle: BundleFields): HybridInputs {
    HybridInputs(x25519, mlKem, PrekeyTranscriptOf(offer, bundle), CoreOf(offer, bundle))
  }

  function ContextOf(line: LineIds, packet: FirstPacket): Digest {
    SessionContext(line, Transcript(packet), packet.offer, packet.prekey.fields.pairSequence)
  }

  function Ascii(text: string): Bytes {
    seq(|text|, i requires 0 <= i < |text| => (text[i] as int % 256) as byte)
  }

  function ConfirmationText(): Bytes {
    Ascii("LICOARC-V1/HANDSHAKE/CLIENT-CONFIRM\0")
  }

  function Confirmation(hybrid: HybridInputs): Body {
    Sealed(
      HybridKey(ClientConfirmKey, hybrid), HybridKey(ClientConfirmNonce, hybrid), CoreAad(hybrid.core), ConfirmationText())
  }

  /** Opening the confirmation under the derived key, nonce and core yields the expected text. */
  predicate Confirms(hybrid: HybridInputs, body: Body) {
    && body.Sealed?
    && body.key == HybridKey(ClientConfirmKey, hybrid) && body.nonce == HybridKey(ClientConfirmNonce, hybrid)
    && body.aad == CoreAad(hybrid.core)
    && body.plaintext == ConfirmationText()
  }

  // ---- Session accepts ----

  function MakeAccept(hybrid: HybridInputs, fields: AcceptFields): SessionAccept {
    SessionAccept(fields, MacUnder(HybridKey(SessionAcceptKey, hybrid), fields))
  }

  predicate VerifiesAccept(hybrid: HybridInputs, accept: SessionAccept) {
    accept.mac == MacUnder(HybridKey(SessionAcceptKey, hybrid), accept.fields)
  }
}
