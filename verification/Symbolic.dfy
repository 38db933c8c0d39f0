/**
 The cryptographic algebra. Every key derivation, digest, signature and sealed box is a
 constructor over its inputs, so distinct inputs give distinct outputs and nothing opens
 under a wrong key, nonce or associated data. Private keys are named by custody tokens.
 */
module Symbolic {
  import opened Integers
  import opened Octets

  type Token = nat

  datatype Direction = InitiatorToResponder | ResponderToInitiator {
    function Opposite(): Direction {
      if InitiatorToResponder? then ResponderToInitiator else InitiatorToResponder
    }
  }

  /** A Montgomery point: the public half of a named private key, or one that contributes nothing. */
  datatype PublicKey = PublicOf(token: Token) | LowOrder

  /** An X25519 shared secret; the pair is kept in order, so agreement is symmetric. */
  datatype Shared = Shared(low: Token, high: Token)

  function Agree(x: Token, y: Token): Shared {
    if x <= y then Shared(x, y) else Shared(y, x)
  }

  /** An ML-KEM-768 ciphertext under `decapsulator`, made from one use of encapsulation entropy. */
  datatype Ciphertext = Ciphertext(decapsulator: Token, entropy: Token)

  /** What decapsulation yields: the encapsulated secret, or the implicit rejection of a foreign ciphertext. */
  datatype KemSecret = Encapsulated(ciphertext: Ciphertext) | Rejected(decapsulator: Token, ciphertext: Ciphertext)

  function Decapsulate(decapsulator: Token, ciphertext: Ciphertext): KemSecret {
    if ciphertext.decapsulator == decapsulator then Encapsulated(ciphertext) else Rejected(decapsulator, ciphertext)
  }

  datatype Domain =
    | HybridRoot | ClientConfirmKey | ClientConfirmNonce | SessionAcceptKey
    | InitialRoot
    | ChainI2R | ChainR2I | RootI2R | RootR2I
    | MessageKey | NextChain | Nonce

  datatype Info = OfContext(context: Digest) | OfCounter(counter: nat)

  datatype HybridInputs = HybridInputs(x25519: Shared, mlKem: KemSecret, prekeyTranscript: Digest, core: Digest)

  datatype Secret =
    | HybridKey(domain: Domain, inputs: HybridInputs)
    | Expanded(key: Secret, domain: Domain, info: Info)
    | Extracted(salt: Secret, shared: Shared, domain: Domain, info: Info)

  datatype Digest =
    | Named(id: nat)
    | PrekeyTranscript(line: LineIds, initiator: InitiatorIds, bundle: BundleFields)
    | HandshakeCore(prekeyTranscript: Digest, offer: Offer)
    | Transcript(packet: FirstPacket)
    | SessionContext(line: LineIds, transcript: Digest, offer: Offer, pairSequence: nat)

  datatype LineIds = LineIds(protocolLine: Digest, protectionProfile: Digest)

  datatype InitiatorIds = InitiatorIds(identityState: Digest, ed25519KeyId: nat, mlDsa65KeyId: nat)

  /** The signed fields of a prekey bundle. */
  datatype BundleFields = BundleFields(
    line: LineIds,
    responderIdentityState: Digest,
    ed25519KeyId: nat,
    mlDsa65KeyId: nat,
    pairSequence: nat,
    x25519Public: PublicKey,
    mlKemPublic: Token,
    validFrom: nat,
    validUntil: nat)

  datatype PrekeyBundle = PrekeyBundle(fields: BundleFields, signatures: SignaturePair)

  /** The fields of a first packet that the handshake core commits to. */
  datatype Offer = Offer(
    line: LineIds,
    initiator: InitiatorIds,
    initiatorAuthority: Digest,
    responderIdentityState: Digest,
    responderAuthority: Digest,
    x25519Public: PublicKey,
    mlKemCiphertext: Ciphertext)

  datatype FirstPacket = FirstPacket(
    offer: Offer,
    prekey: PrekeyBundle,
    signatures: SignaturePair,
    confirmation: Body)

  datatype Statement = BundleStatement(fields: BundleFields) | InitiatorStatement(core: Digest)

  /** Ed25519 and ML-DSA-65 signatures over one statement, by the holders of two public keys. */
  datatype SignaturePair =
    | SignedBy(ed25519Public: nat, mlDsa65Public: nat, statement: Statement)
    | Forged

  datatype Header = Header(dh: PublicKey, pn: u32, n: u32)

  datatype AssociatedData = RecordAad(context: Digest, header: Header) | CoreAad(core: Digest)

  datatype Body =
    | Sealed(key: Secret, nonce: Secret, aad: AssociatedData, plaintext: Bytes)
    | Noise(octets: Bytes)

  datatype Packet = Packet(header: Header, body: Body)

  const AEAD_TAG_BYTES := 16

  function BodyLength(body: Body): nat {
    match body
    case Sealed(_, _, _, plaintext) => |plaintext| + AEAD_TAG_BYTES
    case Noise(octets) => |octets|
  }
}
