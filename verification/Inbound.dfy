/** The receiver as functions on its value: what each method of `InboundRequest` (hdl/inbound.rs) does. */
module Inbound {
  import opened Wrappers
  import opened Messages
  import opened Libraries
  import opened SecureChannel
  import opened Peers
  import Destination
  import EndpointInfo
  import PinCode
  import PointCodec

  function Start(env: Env, io: Option<nat>, names: set<string>): Peer {
    Fresh(env, io, names, None)
  }

  /** The handshake touches neither the files nor the front end. */
  ghost predicate Untouched(p: Peer, q: Peer) {
    && q.env == p.env && q.disk == p.disk && q.st.files == p.st.files && q.told == p.told
    && q.st.meta == p.st.meta && q.st.text == p.st.text && q.st.lastNotified == p.st.lastNotified
  }

  // --- Handshake -------------------------------------------------------------------------------

  datatype Request = Device(info: RemoteDeviceInfo) | Malformed(reason: Reason)

  function ProcessConnectionRequest(lib: Library, frame: OfflineFrame): Request {
    match frame.v1
    case None => Malformed(MissingField)
    case Some(ConnectionRequest(None)) => Malformed(MissingField)
    case Some(ConnectionRequest(Some(None))) => Malformed(BadEndpointInfo)
    case Some(ConnectionRequest(Some(Some(info)))) =>
      var device := EndpointInfo.ParseEndpointInfo(info, lib.utf8);
      if device.None? then Malformed(BadEndpointInfo) else Device(device.value)
    case Some(_) => Malformed(UnexpectedType)
  }

  function OnConnectionRequest(p: Peer, wire: Bytes): (s: Step)
    ensures Untouched(p, s.p)
  {
    match p.env.lib.decOffline(wire)
    case None => Fail(p, Undecodable)
    case Some(frame) =>
      match ProcessConnectionRequest(p.env.lib, frame)
      case Malformed(reason) => Fail(p, reason)
      case Device(info) =>
        Step(Update(p, p.st.(state := ReceivedConnectionRequest, remote := Some(info)), false), Ok)
  }

  /** The first commitment for the one supported cipher. */
  function Preferred(commitments: seq<CipherCommitment>): Option<CipherCommitment> {
    if |commitments| == 0 then None
    else if commitments[0].cipher == P256Sha512 then Some(commitments[0])
    else Preferred(commitments[1..])
  }

  function ServerInitMessage(env: Env): Ukey2Message {
    var point := env.lib.publicKey(env.tape.privateKey);
    ServerInitMsg(Some(ServerInit(
      1, env.tape.random, P256Sha512, Some(PublicKeyMsg(Some(PointCodec.Published(point)))))))
  }

  function AnswerClientInit(p: Peer): Step {
    var init := p.env.lib.encUkey(ServerInitMessage(p.env));
    var hs := p.st.hs.(privateKey := Some(p.env.tape.privateKey), serverInit := Some(init));
    SendFrame(Update(p, p.st.(hs := hs), false), init)
  }

  function ProcessClientInit(p: Peer, m: Ukey2Message): (s: Step)
    ensures Untouched(p, s.p)
  {
    match m
    case ClientInitMsg(None) => Alert(p, BadMessageData, Undecodable)
    case ClientInitMsg(Some(init)) =>
      if init.version != 1 then Alert(p, BadVersionAlert, BadVersion)
      else if |init.random| != 32 then Alert(p, BadRandomAlert, BadRandom)
      else
        var found := Preferred(init.commitments);
        if found.None? then Alert(p, BadCipherAlert, BadCipher)
        else
          var q := Update(p, p.st.(hs := p.st.hs.(commitment := found)), false);
          if init.nextProtocol != NEXT_PROTOCOL then Alert(q, BadNextProtocolAlert, BadNextProtocol)
          else AnswerClientInit(q)
    case _ => Alert(p, BadMessageType, UnexpectedType)
  }

  function OnClientInit(p: Peer, wire: Bytes): (s: Step)
    ensures Untouched(p, s.p)
  {
    match p.env.lib.decUkey(wire)
    case None => Fail(p, Undecodable)
    case Some(m) =>
      var s := ProcessClientInit(p, m);
      if s.r.Err? then s
      else
        var st := s.p.st;
        Step(s.p.(st := st.(state := SentUkeyServerInit, hs := st.hs.(clientInit := Some(wire)))), Ok)
  }

  function ServerKeys(s: KeySchedule): SessionKeys {
    SessionKeys(s.serverKey, s.clientKey, s.serverMac, s.clientMac)
  }

  function Finalize(p: Peer, key: PublicKeyMsg): Step {
    match Derive(p, key)
    case Underived(f) => Step(p, Err(f))
    case Derived(s) =>
      var q := p.(keys := Some(ServerKeys(s)));
      Step(Update(q, q.st.(pin := Some(PinCode.Pin(s.auth))), false), Ok)
  }

  function ProcessClientFinish(p: Peer, m: Ukey2Message, wire: Bytes): (s: Step)
    ensures Untouched(p, s.p)
  {
    match m
    case ClientFinishMsg(finished) =>
      if p.st.hs.commitment.None? then Step(p, Err(Panic(NoHandshakeData)))
      else if p.st.hs.commitment.value.commitment != p.env.lib.sha512(wire) then Fail(p, BadCommitment)
      else if finished.None? || finished.value.publicKey.None? then Fail(p, Undecodable)
      else Finalize(p, finished.value.publicKey.value)
    case _ => Alert(p, BadMessageType, UnexpectedType)
  }

  function OnClientFinish(p: Peer, wire: Bytes): (s: Step)
    ensures Untouched(p, s.p)
  {
    match p.env.lib.decUkey(wire)
    case None => Fail(p, Undecodable)
    case Some(m) =>
      var s := ProcessClientFinish(p, m, wire);
      if s.r.Err? then s else Step(Enter(s.p, ReceivedUkeyClientFinish, false), Ok)
  }

  const ACCEPT_CONNECTION := OfflineFrame(Some(ConnectionResponse(Some(true))))

  function ProcessConnectionResponse(p: Peer, frame: OfflineFrame): Step {
    match frame.v1
    case None => Fail(p, MissingField)
    case Some(ConnectionResponse(_)) =>
      var s := SendOffline(p, ACCEPT_CONNECTION);
      if s.r.Err? then s else SendEncrypted(s.p, PairedKeyEncryptionFrame())
    case Some(_) => Fail(p, UnexpectedType)
  }

  function OnConnectionResponse(p: Peer, wire: Bytes): (s: Step)
    ensures Untouched(p, s.p)
  {
    match p.env.lib.decOffline(wire)
    case None => Fail(p, Undecodable)
    case Some(frame) =>
      var s := ProcessConnectionResponse(p, frame);
      if s.r.Err? then s else Step(Enter(s.p, SentConnectionResponse, false), Ok)
  }

  // --- Introduction ----------------------------------------------------------------------------

  // The announced files as the loop collects them; the total wraps around at 64 bits.
  datatype Intake = Intake(files: map<int, FileInfo>, names: seq<string>, total: int)

  /** A signed 64-bit size read as unsigned. */
  function AsU64(size: int): int {
    if size < 0 then size + U64 else size
  }

  /** Addition of unsigned 64-bit numbers in a build without overflow checks. */
  function WrapAdd(a: int, b: int): int {
    if a + b >= U64 then a + b - U64 else a + b
  }

  function TakeIn(i: Intake, existing: set<string>, f: FileMetadata): Intake {
    Intake(
      i.files[f.payloadId := FileInfo(Destination.Path(existing, f.name), 0, f.size, None)],
      i.names + [f.name],
      WrapAdd(i.total, AsU64(f.size)))
  }

  /** The first k announced files. */
  function Taken(files: map<int, FileInfo>, existing: set<string>, list: seq<FileMetadata>, k: nat): Intake
    requires k <= |list|
  {
    if k == 0 then Intake(files, [], 0) else TakeIn(Taken(files, existing, list, k - 1), existing, list[k - 1])
  }

  function AskForFiles(p: Peer, list: seq<FileMetadata>): (s: Step)
    ensures s.p.disk == p.disk && s.p.env == p.env
  {
    var i := Taken(p.st.files, p.disk.names, list, |list|);
    var meta := TransferMetadata(p.st.pin, i.names, i.total, 0, None);
    Step(Update(p, p.st.(files := i.files, meta := Some(meta)), true), Ok)
  }

  function AskForText(p: Peer, payloadId: int): (s: Step)
    ensures s.p.disk == p.disk && s.p.env == p.env
  {
    var meta := TransferMetadata(p.st.pin, [], 0, 0, None);
    Step(Update(p, p.st.(text := Some(payloadId), meta := Some(meta)), true), Ok)
  }

  function RejectTransfer(p: Peer, reason: ConsentStatus): Step {
    SendEncrypted(p, ResponseFrame(reason))
  }

  function ProcessIntroduction(p: Peer, v1: ShareV1): (s: Step)
    ensures s.p.disk == p.disk && s.p.env == p.env
  {
    match v1.introduction
    case None => Fail(p, MissingField)
    case Some(intro) =>
      var q := Enter(p, WaitingForUserConsent, false);
      if |intro.files| > 0 && |intro.texts| == 0 then AskForFiles(q, intro.files)
      else if |intro.texts| == 1 then
        if intro.texts[0].ttype == UnknownText then RejectTransfer(q, UnsupportedAttachmentType)
        else AskForText(q, intro.texts[0].payloadId)
      else if |intro.wifis| == 1 then AskForText(q, intro.wifis[0])
      else RejectTransfer(q, UnsupportedAttachmentType)
  }

  // --- Consent ---------------------------------------------------------------------------------

  /** `File::create` for one announced file: it exists and is empty from now on. */
  function Create(p: Peer, id: int): Peer
    requires id in p.st.files
  {
    var f := p.st.files[id];
    p.(st := p.st.(files := p.st.files[id := f.(handle := Some(OpenFile([], 0)))]),
       disk := p.disk.Created(id, f.path))
  }

  function CreateAll(p: Peer, ids: seq<int>): Step
    decreases |ids|
  {
    if |ids| == 0 then Step(p, Ok)
    else if ids[0] !in p.st.files then Step(p, Err(Panic(NoOpenFile)))
    else if Broken(p) then Step(p, Err(Io))
    else CreateAll(Create(Spend(p), ids[0]), ids[1..])
  }

  function AcceptTransfer(p: Peer): Step {
    var s := CreateAll(p, p.env.tape.order(p.st.files.Keys));
    if s.r.Err? then s
    else
      var t := SendEncrypted(s.p, ResponseFrame(Accept));
      if t.r.Err? then t else Step(Enter(t.p, ReceivingFiles, true), Ok)
  }

  // --- Receiving -------------------------------------------------------------------------------

  /** The file after more bytes were appended through its handle. */
  function Written(f: FileInfo, body: Bytes): FileInfo
    requires f.handle.Some?
  {
    var h := f.handle.value;
    f.(transferred := f.transferred + |body|, handle := Some(OpenFile(h.data + body, h.cursor + |body|)))
  }

  /** The bytes appended through the open handle of a file. */
  function Appended(p: Peer, id: int, body: Bytes): Peer
    requires id in p.st.files && p.st.files[id].handle.Some?
  {
    var f := p.st.files[id];
    var h := f.handle.value;
    Spend(p).(disk := p.disk.Grown(id, f.path, h.data + body, h.cursor, body))
  }

  function WriteChunk(p: Peer, id: int, body: Bytes): Step
    requires id in p.st.files
  {
    var f := p.st.files[id];
    if f.handle.None? then Step(p, Err(Panic(NoOpenFile)))
    else if Broken(p) then Step(p, Err(Io))
    else Step(Progress(Appended(p, id, body), p.st.files[id := Written(f, body)], |body|), Ok)
  }

  function CloseFile(p: Peer, id: int): (s: Step)
    ensures s.p.disk == p.disk && s.p.env == p.env
  {
    var q := p.(st := p.st.(files := p.st.files - {id}));
    if q.st.files == map[] then End(q, Finished) else Step(q, Ok)
  }

  function OnFileChunk(p: Peer, header: PayloadHeader, chunk: PayloadChunk): Step {
    var id := header.id;
    if id !in p.st.files then Fail(p, UnknownPayload)
    else
      var f := p.st.files[id];
      if chunk.offset != f.transferred then Fail(p, BadOffset)
      else if f.transferred + |chunk.body| > f.total then Fail(p, ExcessBytes)
      else if |chunk.body| > 0 then WriteChunk(p, id, chunk.body)
      else if chunk.IsLast() then CloseFile(p, id)
      else Step(p, Ok)
  }

  /** A text payload ends at the first byte 16. */
  function Cut(b: Bytes): Bytes {
    if |b| == 0 || b[0] == 16 then [] else [b[0]] + Cut(b[1..])
  }

  function OnText(p: Peer, data: Bytes): (s: Step)
    ensures s.p.disk == p.disk && s.p.env == p.env
  {
    var text := Cut(data);
    if !p.env.lib.utf8(text) then Fail(p, Undecodable)
    else
      var meta := match p.st.meta case None => None case Some(m) => Some(m.(text := Some(text)));
      End(p.(st := p.st.(meta := meta)), Finished)
  }

  function OnSetupV1(p: Peer, v1: ShareV1): (s: Step)
    ensures s.p.disk == p.disk && s.p.env == p.env
  {
    match p.st.state
    case SentConnectionResponse =>
      if !v1.hasPairedKeyEncryption then Fail(p, MissingField)
      else
        var s := SendEncrypted(p, PairedKeyResultFrame());
        if s.r.Err? then s else Step(Enter(s.p, SentPairedKeyResult, false), Ok)
    case SentPairedKeyResult =>
      if !v1.hasPairedKeyResult then Fail(p, MissingField)
      else Step(Enter(p, ReceivedPairedKeyResult, false), Ok)
    case ReceivedPairedKeyResult => ProcessIntroduction(p, v1)
    case _ => Step(p, Ok)
  }

  /** `process_transfer_setup`. */
  function OnSetup(p: Peer, frame: ShareFrame): (s: Step)
    ensures s.p.disk == p.disk && s.p.env == p.env
  {
    match frame.v1
    case None => Fail(p, MissingField)
    case Some(v1) => if v1.stype == CancelType then End(p, Cancelled) else OnSetupV1(p, v1)
  }

  /** The sharing frame that an event makes the receiver handle. */
  function SetupBy(p: Peer, e: Event): Option<ShareFrame> {
    match CompletedBy(p, e)
    case None => None
    case Some(Parcel(id, data)) => if p.st.text == Some(id) then None else p.env.lib.decShare(data)
  }

  /** A byte payload is complete: the announced text, or another sharing frame. */
  function OnComplete(p: Peer, id: int, data: Bytes): (s: Step)
    ensures s.p.disk == p.disk && s.p.env == p.env
  {
    if p.st.text == Some(id) then OnText(p, data)
    else
      match p.env.lib.decShare(data)
      case None => Fail(p, Undecodable)
      case Some(frame) => OnSetup(p, frame)
  }

  function OnBytes(p: Peer, header: PayloadHeader, chunk: PayloadChunk): (s: Step)
    ensures s.p.disk == p.disk && s.p.env == p.env
  {
    var g := Gather(p, header, chunk);
    if g.r.Err? then Step(g.p, g.r)
    else if g.complete.None? then Step(g.p, Ok)
    else OnComplete(g.p, header.id, g.complete.value)
  }

  // --- Dispatch --------------------------------------------------------------------------------

  function OnV1(p: Peer, v1: V1Frame): Step {
    match v1
    case Payload(None) => Fail(p, MissingField)
    case Payload(Some(PayloadTransfer(header, chunk))) =>
      if header.None? || chunk.None? then Fail(p, MissingField)
      else if header.value.ptype == BytesPayload then OnBytes(p, header.value, chunk.value)
      else if header.value.ptype == FilePayload then OnFileChunk(p, header.value, chunk.value)
      else Step(p, Ok)
    case KeepAlive(_) => EncryptAndSend(p, OfflineFrame(Some(KeepAlive(true))))
    case _ => Step(p, Ok)
  }

  function OnSecure(p: Peer, wire: Bytes): Step {
    var i := ReceiveSecure(p, wire);
    if i.r.Err? then Step(i.p, i.r) else OnV1(i.p, i.frame)
  }

  function OnFrame(p: Peer, wire: Bytes): Step {
    if |wire| > SANE_FRAME_LENGTH then Fail(p, FrameTooBig)
    else
      match p.st.state
      case Initial => OnConnectionRequest(p, wire)
      case ReceivedConnectionRequest => OnClientInit(p, wire)
      case SentUkeyServerInit => OnClientFinish(p, wire)
      case ReceivedUkeyClientFinish => OnConnectionResponse(p, wire)
      case _ => OnSecure(p, wire)
  }

  function OnAction(p: Peer, action: ChannelAction): Step {
    match action
    case AcceptTransfer => AcceptTransfer(p)
    case RejectTransfer =>
      var s := RejectTransfer(Enter(p, Rejected, true), Reject);
      if s.r.Err? then s else Step(s.p, Err(NotAnError))
    case CancelTransfer => End(p, Cancelled)
  }

  /** `handle`: one event. */
  function Handle(p: Peer, e: Event): Step {
    match e
    case Frame(wire) => OnFrame(p, wire)
    case Front(id, action) => if id == p.env.id then OnAction(p, action) else Step(p, Ok)
    case Closed => Step(p, Err(Io))
  }
}
