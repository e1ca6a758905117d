/** The messages both requests exchange, and the state they share (hdl/mod.rs, hdl/info.rs, channel.rs). */
module Messages {
  import opened Wrappers

  type byte = x: int | 0 <= x < 256
  type Bytes = seq<byte>

  // The largest frame or byte payload either side reads.
  const SANE_FRAME_LENGTH := 5 * 1024 * 1024

  // Progress is announced once this many bytes have gone by.
  const NOTIFY_STEP := 256 * 1024

  // One more than the largest unsigned 64-bit number.
  const U64: nat := 0x1_0000_0000_0000_0000

  // The size of the sender's read buffer.
  const READ_BUFFER := 512 * 1024

  // --- UKEY2 handshake ---------------------------------------------------------------------

  datatype Cipher = ReservedCipher | P256Sha512 | Curve25519Sha512

  datatype CipherCommitment = CipherCommitment(cipher: Cipher, commitment: Bytes)

  datatype EcKey = EcKey(x: Bytes, y: Bytes)

  datatype PublicKeyMsg = PublicKeyMsg(ec: Option<EcKey>)

  datatype ClientInit = ClientInit(
    version: int, random: Bytes, commitments: seq<CipherCommitment>, nextProtocol: string)

  // A missing or undecodable public key reads as None; both are errors.
  datatype ServerInit = ServerInit(
    version: int, random: Bytes, cipher: Cipher, publicKey: Option<PublicKeyMsg>)

  datatype ClientFinished = ClientFinished(publicKey: Option<PublicKeyMsg>)

  datatype AlertType = BadMessageType | BadMessageData | BadVersionAlert | BadRandomAlert
                     | BadCipherAlert | BadNextProtocolAlert

  // The body is None when message_data does not decode as its type says.
  datatype Ukey2Message =
    | ClientInitMsg(clientInit: Option<ClientInit>)
    | ServerInitMsg(serverInit: Option<ServerInit>)
    | ClientFinishMsg(finished: Option<ClientFinished>)
    | AlertMsg(alert: AlertType)

  const NEXT_PROTOCOL := "AES_256_CBC-HMAC_SHA256"

  // --- Offline frames ----------------------------------------------------------------------

  datatype PayloadType = UnknownPayloadType | BytesPayload | FilePayload | StreamPayload

  datatype PayloadHeader = PayloadHeader(id: int, ptype: PayloadType, totalSize: int)

  // An absent body reads as the empty body, as prost's accessor does.
  datatype PayloadChunk = PayloadChunk(offset: int, flags: int, body: Bytes)
  {
    predicate IsLast() {
      flags % 2 == 1
    }
  }

  datatype PayloadTransfer = PayloadTransfer(header: Option<PayloadHeader>, chunk: Option<PayloadChunk>)

  datatype V1Frame =
    | ConnectionRequest(endpointInfo: Option<Option<Bytes>>)
    | ConnectionResponse(accepted: Option<bool>)
    | Payload(transfer: Option<PayloadTransfer>)
    | KeepAlive(ack: bool)
    | Disconnection
    | OtherV1

  datatype OfflineFrame = OfflineFrame(v1: Option<V1Frame>)

  datatype DeviceToDevice = DeviceToDevice(sequence: int, message: Bytes)
  datatype HeaderAndBody = HeaderAndBody(iv: Bytes, body: Bytes)
  datatype SecureMessage = SecureMessage(headerAndBody: Bytes, signature: Bytes)

  // --- Sharing frames ----------------------------------------------------------------------

  datatype ShareType = PairedKeyEncryptionType | PairedKeyResultType | IntroductionType
                     | ResponseType | CancelType | OtherType

  datatype ConsentStatus = UnknownStatus | Accept | Reject | NotEnoughSpace
                         | UnsupportedAttachmentType | TimedOut

  datatype FileMetadata = FileMetadata(payloadId: int, name: string, size: int)

  datatype TextType = UnknownText | PlainText | UrlText | AddressText | PhoneText

  datatype TextMetadata = TextMetadata(ttype: TextType, payloadId: int)

  datatype Introduction = Introduction(
    files: seq<FileMetadata>, texts: seq<TextMetadata>, wifis: seq<int>)

  datatype ShareV1 = ShareV1(
    stype: ShareType,
    hasPairedKeyEncryption: bool,
    hasPairedKeyResult: bool,
    introduction: Option<Introduction>,
    response: Option<ConsentStatus>)

  datatype ShareFrame = ShareFrame(v1: Option<ShareV1>)

  function PairedKeyEncryptionFrame(): ShareFrame {
    ShareFrame(Some(ShareV1(PairedKeyEncryptionType, true, false, None, None)))
  }

  function PairedKeyResultFrame(): ShareFrame {
    ShareFrame(Some(ShareV1(PairedKeyResultType, false, true, None, None)))
  }

  function IntroductionFrame(files: seq<FileMetadata>): ShareFrame {
    ShareFrame(Some(ShareV1(IntroductionType, false, false, Some(Introduction(files, [], [])), None)))
  }

  function ResponseFrame(status: ConsentStatus): ShareFrame {
    ShareFrame(Some(ShareV1(ResponseType, false, false, None, Some(status))))
  }

  // --- Session state -----------------------------------------------------------------------

  datatype State =
    | Initial
    | ReceivedConnectionRequest
    | SentUkeyServerInit
    | SentUkeyClientInit
    | SentUkeyClientFinish
    | SentPairedKeyEncryption
    | ReceivedUkeyClientFinish
    | SentConnectionResponse
    | SentPairedKeyResult
    | SentIntroduction
    | ReceivedPairedKeyResult
    | WaitingForUserConsent
    | ReceivingFiles
    | SendingFiles
    | Disconnected
    | Rejected
    | Cancelled
    | Finished

  datatype DeviceType = Unknown | Phone | Tablet | Laptop

  datatype RemoteDeviceInfo = RemoteDeviceInfo(name: Bytes, deviceType: DeviceType)

  datatype TransferMetadata = TransferMetadata(
    pin: Option<string>, files: seq<string>, totalBytes: int, ackBytes: int, text: Option<Bytes>)

  // A file handle: what the file holds and where the next read or write happens.
  datatype OpenFile = OpenFile(data: Bytes, cursor: nat)

  datatype FileInfo = FileInfo(path: string, transferred: int, total: int, handle: Option<OpenFile>)

  datatype ChannelAction = AcceptTransfer | RejectTransfer | CancelTransfer

  // What the library tells the front end about one session.
  datatype ChannelMessage = ChannelMessage(id: string, state: State, meta: Option<TransferMetadata>)
}
