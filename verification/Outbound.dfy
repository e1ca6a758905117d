/** The sender as functions on its value: what each method of `OutboundRequest` (hdl/outbound.rs) does. */
module Outbound {
  import opened Wrappers
  import opened Messages
  import opened Libraries
  import opened SecureChannel
  import opened Peers
  import opened Ledgers
  import EndpointInfo
  import PinCode
  import PointCodec

  /** The paths the user chose, whether or not there is a file. */
  function Paths(payload: seq<SourceFile>): seq<string> {
    seq(|payload|, i requires 0 <= i < |payload| => payload[i].path)
  }

  function Start(env: Env, io: Option<nat>): Peer {
    Fresh(env, io, {}, Some(TransferMetadata(None, Paths(env.payload), 0, 0, None)))
  }

  /** A handshake step touches neither the files nor the counters. */
  ghost predicate Untouched(p: Peer, q: Peer) {
    && q.env == p.env && q.disk == p.disk && q.st.files == p.st.files && q.st.lastNotified == p.st.lastNotified
    && Acked(q.st.meta) == Acked(p.st.meta) && (q.st.meta.Some? <==> p.st.meta.Some?)
    && (p.st.meta.Some? ==> q.st.meta.value.totalBytes == p.st.meta.value.totalBytes)
  }

  // --- Handshake -------------------------------------------------------------------------------

  function SendConnectionRequest(p: Peer): Step {
    var info := EndpointInfo.EndpointRecord(p.env.device, p.env.tape.salt);
    SendOffline(p, OfflineFrame(Some(ConnectionRequest(Some(Some(info))))))
  }

  function FinishMessage(env: Env): Ukey2Message {
    var point := env.lib.publicKey(env.tape.privateKey);
    ClientFinishMsg(Some(ClientFinished(Some(PublicKeyMsg(Some(PointCodec.Published(point)))))))
  }

  function InitMessage(env: Env): Ukey2Message {
    var commitment := env.lib.sha512(env.lib.encUkey(FinishMessage(env)));
    ClientInitMsg(Some(ClientInit(
      1, env.tape.random, [CipherCommitment(P256Sha512, commitment)], NEXT_PROTOCOL)))
  }

  function SendClientInit(p: Peer): Step {
    var init := p.env.lib.encUkey(InitMessage(p.env));
    var s := SendFrame(p, init);
    if s.r.Err? then s
    else
      var hs := s.p.st.hs.(
        privateKey := Some(p.env.tape.privateKey),
        clientInit := Some(init),
        clientFinish := Some(p.env.lib.encUkey(FinishMessage(p.env))));
      Step(Update(s.p, s.p.st.(state := SentUkeyClientInit, hs := hs), false), Ok)
  }

  function ClientKeys(s: KeySchedule): SessionKeys {
    SessionKeys(s.clientKey, s.serverKey, s.clientMac, s.serverMac)
  }

  function WithPin(meta: Option<TransferMetadata>, pin: string): Option<TransferMetadata> {
    match meta
    case None => None
    case Some(m) => Some(m.(pin := Some(pin)))
  }

  function Finalize(p: Peer, key: PublicKeyMsg): (s: Step)
    ensures Untouched(p, s.p)
  {
    match Derive(p, key)
    case Underived(f) => Step(p, Err(f))
    case Derived(s) =>
      var pin := PinCode.Pin(s.auth);
      var q := p.(keys := Some(ClientKeys(s)));
      Step(Update(q, q.st.(pin := Some(pin), meta := WithPin(q.st.meta, pin)), true), Ok)
  }

  function CheckServerInit(m: Ukey2Message): Option<Reason> {
    match m
    case ServerInitMsg(None) => Some(Undecodable)
    case ServerInitMsg(Some(si)) =>
      if si.version != 1 then Some(BadVersion)
      else if |si.random| != 32 then Some(BadRandom)
      else if si.cipher != P256Sha512 then Some(BadCipher)
      else if si.publicKey.None? then Some(Undecodable)
      else None
    case _ => Some(UnexpectedType)
  }

  /** A refused server init: an alert goes out first, except when a part of it does not decode. */
  function RefuseServerInit(p: Peer, reason: Reason): Step {
    match reason
    case UnexpectedType => Alert(p, BadMessageType, reason)
    case BadVersion => Alert(p, BadVersionAlert, reason)
    case BadRandom => Alert(p, BadRandomAlert, reason)
    case BadCipher => Alert(p, BadCipherAlert, reason)
    case _ => Fail(p, reason)
  }

  const ACCEPT_CONNECTION := OfflineFrame(Some(ConnectionResponse(Some(true))))

  /** The client finish and the connection response go out together. */
  function SendFinish(p: Peer): (s: Step)
    ensures s.p == p.(io := s.p.io, out := s.p.out)
    ensures p.st.hs.clientFinish.Some? ==> s.r.Ok? || s.r == Err(Io)
  {
    if p.st.hs.clientFinish.None? then Step(p, Err(Panic(NoHandshakeData)))
    else
      var s := SendFrame(p, p.st.hs.clientFinish.value);
      if s.r.Err? then s else SendOffline(s.p, ACCEPT_CONNECTION)
  }

  function ProcessServerInit(p: Peer, m: Ukey2Message): (s: Step)
    ensures Untouched(p, s.p)
  {
    var bad := CheckServerInit(m);
    if bad.Some? then RefuseServerInit(p, bad.value)
    else
      var s := Finalize(p, m.serverInit.value.publicKey.value);
      if s.r.Err? then s else SendFinish(s.p)
  }

  function OnServerInit(p: Peer, wire: Bytes): (s: Step)
    ensures Untouched(p, s.p)
  {
    match p.env.lib.decUkey(wire)
    case None => Fail(p, Undecodable)
    case Some(m) =>
      var s := ProcessServerInit(p.(st := p.st.(hs := p.st.hs.(serverInit := Some(wire)))), m);
      if s.r.Err? then s else Step(Enter(s.p, SentUkeyClientFinish, false), Ok)
  }

  function ProcessConnectionResponse(p: Peer, frame: OfflineFrame): Step {
    match frame.v1
    case None => Fail(p, MissingField)
    case Some(ConnectionResponse(None)) => Fail(p, MissingField)
    case Some(ConnectionResponse(Some(accepted))) =>
      if !accepted then Fail(p, ConnectionDenied) else SendEncrypted(p, PairedKeyEncryptionFrame())
    case Some(_) => Fail(p, UnexpectedType)
  }

  function OnConnectionResponse(p: Peer, wire: Bytes): (s: Step)
    ensures Untouched(p, s.p)
  {
    match p.env.lib.decOffline(wire)
    case None => Fail(p, Undecodable)
    case Some(frame) =>
      var s := ProcessConnectionResponse(p, frame);
      if s.r.Err? then s
      else
        var st := s.p.st;
        Step(s.p.(st := st.(state := SentPairedKeyEncryption, hs := st.hs.(serverInit := Some(wire)))), Ok)
  }

  // --- Announcing the files --------------------------------------------------------------------

  const NO_FILES := Announcement([], map[], 0)

  /** One more path of the payload; what is not a readable file is passed over. */
  function Announce(a: Announcement, env: Env, f: SourceFile): Announcement {
    match f
    case Regular(_, name, data) =>
      var id := env.tape.fileIds(|a.list|);
      Announcement(
        a.list + [FileMetadata(id, name, |data|)],
        a.files[id := FileInfo(name, 0, |data|, Some(OpenFile(data, 0)))],
        a.total + |data|)
    case _ => a
  }

  /** The announcement after the first k paths. */
  function Announced(env: Env, k: nat): Announcement
    requires k <= |env.payload|
  {
    if k == 0 then NO_FILES else Announce(Announced(env, k - 1), env, env.payload[k - 1])
  }

  function WithTotal(meta: Option<TransferMetadata>, total: int): Option<TransferMetadata> {
    match meta
    case None => None
    case Some(m) => Some(m.(totalBytes := total))
  }

  function ProcessPairedKeyResult(p: Peer, v1: ShareV1): Step {
    if !v1.hasPairedKeyResult then Fail(p, MissingField)
    else
      var a := Announced(p.env, |p.env.payload|);
      var q := Update(p, p.st.(meta := WithTotal(p.st.meta, a.total), files := a.files), false);
      SendEncrypted(q, IntroductionFrame(a.list))
  }

  function OnPairedKeyResult(p: Peer, v1: ShareV1): Step {
    var s := ProcessPairedKeyResult(p, v1);
    if s.r.Err? then s else Step(Enter(s.p, SentIntroduction, true), Ok)
  }

  // --- Sending the files -----------------------------------------------------------------------

  /** What a read into the buffer returns: at least one byte and at most what the buffer and the file hold. */
  function ReadSize(tape: Tape, id: int, offset: int, left: nat): (n: nat)
    ensures n <= left && n <= READ_BUFFER && (left > 0 ==> n > 0)
  {
    var most := if left <= READ_BUFFER then left else READ_BUFFER;
    var n := tape.chunkSizes(id, offset);
    if 1 <= n <= most then n else most
  }

  /** An open source file: the cursor is what was sent, and the file keeps its announced length. */
  predicate FileOk(f: FileInfo) {
    match f.handle
    case None => true
    case Some(h) => h.cursor == f.transferred && h.cursor <= |h.data| == f.total
  }

  ghost predicate FilesOk(files: map<int, FileInfo>) {
    forall id | id in files :: FileOk(files[id])
  }

  function ChunkFrame(id: int, f: FileInfo, body: Bytes): OfflineFrame {
    PayloadFrame(id, FilePayload, f.total, f.transferred, 0, body)
  }

  function EndFrame(id: int, f: FileInfo): OfflineFrame {
    PayloadFrame(id, FilePayload, f.total, f.total, 1, [])
  }

  /** The bytes one read of an open file returns. */
  function Slice(tape: Tape, id: int, f: FileInfo): (body: Bytes)
    requires f.handle.Some? && FileOk(f)
  {
    var h := f.handle.value;
    h.data[h.cursor..h.cursor + ReadSize(tape, id, f.transferred, |h.data| - h.cursor)]
  }

  function Advance(f: FileInfo, n: nat): FileInfo
    requires f.handle.Some?
  {
    var h := f.handle.value;
    f.(transferred := f.transferred + n, handle := Some(h.(cursor := h.cursor + n)))
  }

  /** One pass of the inner loop over an unfinished file: read, send the chunk, account for it, and send
      the last chunk when the file is done. */
  function SendChunk(p: Peer, id: int): Step
    requires id in p.st.files && FileOk(p.st.files[id]) && p.st.files[id].handle.Some?
  {
    var f := p.st.files[id];
    if Broken(p) then Step(p, Err(Io)) else SendRead(Spend(p), id, f, Slice(p.env.tape, id, f))
  }

  /** What happens with the bytes read. */
  function SendRead(p: Peer, id: int, f: FileInfo, body: Bytes): Step
    requires f.handle.Some?
  {
    var s := EncryptAndSend(p, ChunkFrame(id, f, body));
    if s.r.Err? then s
    else
      var q := Progress(s.p, p.st.files[id := Advance(f, |body|)], |body|);
      if f.transferred + |body| == f.total then EncryptAndSend(q, EndFrame(id, f)) else Step(q, Ok)
  }

  datatype Turned = Turned(p: Peer, r: Outcome, job: seq<int>)

  /** One turn of the loops, with the ids still to send; the head of the list is the current file. */
  function Turn(p: Peer, job: seq<int>): Turned
    requires |job| > 0 && FilesOk(p.st.files)
  {
    var id, rest := job[0], job[1..];
    if id !in p.st.files then Turned(p, Ok, rest)
    else
      var f := p.st.files[id];
      if f.transferred == f.total then
        Turned(Update(p, p.st.(files := p.st.files - {id}), false), Ok, rest)
      else if f.handle.None? then Turned(p, Ok, rest)
      else
        var s := SendChunk(p, id);
        var done := id in s.p.st.files && s.p.st.files[id].transferred == f.total;
        Turned(s.p, s.r, if done then rest else job)
  }

  /** All files sent: say so and disconnect; the request lives on until the peer hangs up. */
  function FinishSending(p: Peer): Step {
    Disconnect(Enter(p, Finished, true))
  }

  // What is left to do: whole files, then bytes of the current one.
  ghost function BytesLeft(files: map<int, FileInfo>, job: seq<int>): nat
    requires FilesOk(files)
  {
    if |job| > 0 && job[0] in files && files[job[0]].handle.Some? then
      Left(files[job[0]])
    else 0
  }

  lemma ChunkKeepsFiles(p: Peer, id: int)
    requires FilesOk(p.st.files) && id in p.st.files && p.st.files[id].handle.Some?
    requires p.st.files[id].transferred != p.st.files[id].total
    ensures var s := SendChunk(p, id);
            && FilesOk(s.p.st.files)
            && id in s.p.st.files
            && s.p.st.files[id].total == p.st.files[id].total
            && s.p.st.files[id].handle.Some?
            && (s.r.Ok? ==> Left(s.p.st.files[id]) < Left(p.st.files[id]))
  {
    var f := p.st.files[id];
    var body := Slice(p.env.tape, id, f);
    assert FileOk(Advance(f, |body|));
  }

  lemma TurnKeepsFiles(p: Peer, job: seq<int>)
    requires |job| > 0 && FilesOk(p.st.files)
    ensures var t := Turn(p, job);
            && FilesOk(t.p.st.files)
            && (t.r.Ok? && t.job != job[1..]
                ==> t.job == job && BytesLeft(t.p.st.files, t.job) < BytesLeft(p.st.files, job))
  {
    var id := job[0];
    if id in p.st.files && p.st.files[id].transferred != p.st.files[id].total && p.st.files[id].handle.Some? {
      ChunkKeepsFiles(p, id);
    }
  }

  /** The nested loops of `process_consent` from any point on. */
  ghost function SendLoop(p: Peer, job: seq<int>): Step
    requires FilesOk(p.st.files)
    decreases |job|, BytesLeft(p.st.files, job)
  {
    if |job| == 0 then FinishSending(p)
    else
      var t := Turn(p, job);
      TurnKeepsFiles(p, job);
      if t.r.Err? then Step(t.p, t.r) else SendLoop(t.p, t.job)
  }

  function BeginSending(p: Peer): Peer {
    Enter(p, SendingFiles, true)
  }

  ghost function ProcessConsent(p: Peer, v1: ShareV1): Step
    requires FilesOk(p.st.files)
  {
    if v1.stype != ResponseType || v1.response.None? then Fail(p, MissingField)
    else if v1.response.value == Accept then
      var q := BeginSending(p);
      SendLoop(q, p.env.tape.order(q.st.files.Keys))
    else End(p, Disconnected)
  }

  // --- Dispatch --------------------------------------------------------------------------------

  ghost function OnSetupV1(p: Peer, v1: ShareV1): Step
    requires FilesOk(p.st.files)
  {
    match p.st.state
    case SentPairedKeyEncryption =>
      if !v1.hasPairedKeyEncryption then Fail(p, MissingField)
      else
        var s := SendEncrypted(p, PairedKeyResultFrame());
        if s.r.Err? then s else Step(Enter(s.p, SentPairedKeyResult, false), Ok)
    case SentPairedKeyResult => OnPairedKeyResult(p, v1)
    case SentIntroduction => ProcessConsent(p, v1)
    case _ => Step(p, Ok)
  }

  /** `process_transfer_setup`. */
  ghost function OnSetup(p: Peer, frame: ShareFrame): Step
    requires FilesOk(p.st.files)
  {
    match frame.v1
    case None => Fail(p, MissingField)
    case Some(v1) => if v1.stype == CancelType then End(p, Cancelled) else OnSetupV1(p, v1)
  }

  /** The sharing frame that an event makes the sender handle. */
  function SetupBy(p: Peer, e: Event): Option<ShareFrame> {
    match CompletedBy(p, e)
    case None => None
    case Some(parcel) => p.env.lib.decShare(parcel.data)
  }

  ghost function OnComplete(p: Peer, data: Bytes): Step
    requires FilesOk(p.st.files)
  {
    match p.env.lib.decShare(data)
    case None => Fail(p, Undecodable)
    case Some(frame) => OnSetup(p, frame)
  }

  ghost function OnBytes(p: Peer, header: PayloadHeader, chunk: PayloadChunk): Step
    requires FilesOk(p.st.files)
  {
    var g := Gather(p, header, chunk);
    if g.r.Err? then Step(g.p, g.r)
    else if g.complete.None? then Step(g.p, Ok)
    else OnComplete(g.p, g.complete.value)
  }

  ghost function OnV1(p: Peer, v1: V1Frame): Step
    requires FilesOk(p.st.files)
  {
    match v1
    case Payload(None) => Fail(p, MissingField)
    case Payload(Some(PayloadTransfer(header, chunk))) =>
      if header.None? || chunk.None? then Fail(p, MissingField)
      else if header.value.ptype == BytesPayload then OnBytes(p, header.value, chunk.value)
      else Step(p, Ok)
    case KeepAlive(_) => EncryptAndSend(p, OfflineFrame(Some(KeepAlive(true))))
    case _ => Step(p, Ok)
  }

  ghost function OnSecure(p: Peer, wire: Bytes): Step
    requires FilesOk(p.st.files)
  {
    var i := ReceiveSecure(p, wire);
    if i.r.Err? then Step(i.p, i.r) else OnV1(i.p, i.frame)
  }

  ghost function OnFrame(p: Peer, wire: Bytes): Step
    requires FilesOk(p.st.files)
  {
    if |wire| > SANE_FRAME_LENGTH then Fail(p, FrameTooBig)
    else
      match p.st.state
      case SentUkeyClientInit => OnServerInit(p, wire)
      case SentUkeyClientFinish => OnConnectionResponse(p, wire)
      case _ => OnSecure(p, wire)
  }

  /** `handle`: one event. */
  ghost function Handle(p: Peer, e: Event): Step
    requires FilesOk(p.st.files)
  {
    match e
    case Frame(wire) => OnFrame(p, wire)
    case Front(id, action) =>
      if id == p.env.id && action == CancelTransfer then End(p, Cancelled) else Step(p, Ok)
    case Closed => Step(p, Err(Io))
  }

  // --- The sending loops in small steps --------------------------------------------------------

  predicate IsAcceptance(frame: Option<ShareFrame>) {
    && frame.Some? && frame.value.v1.Some?
    && frame.value.v1.value.stype == ResponseType && frame.value.v1.value.response == Some(Accept)
  }

  /** The sender at the point where this message makes it enter the sending loops, if it does. */
  function Consented(p: Peer, wire: Bytes): Option<Peer> {
    if |wire| > SANE_FRAME_LENGTH || p.st.state != SentIntroduction then None
    else
      match ReceiveSecure(p, wire)
      case Incoming(q, Ok, Payload(Some(PayloadTransfer(Some(header), Some(chunk))))) =>
        if header.ptype != BytesPayload then None
        else
          var g := Gather(q, header, chunk);
          if g.r.Ok? && g.complete.Some? && IsAcceptance(p.env.lib.decShare(g.complete.value)) then Some(g.p)
          else None
      case _ => None
  }

  lemma AcceptedLoop(q: Peer, data: Bytes)
    requires FilesOk(q.st.files) && q.st.state == SentIntroduction && IsAcceptance(q.env.lib.decShare(data))
    ensures var b := BeginSending(q); OnComplete(q, data) == SendLoop(b, q.env.tape.order(b.st.files.Keys))
  {
  }

  /** Handling such a message is entering the loops and running them to the end. */
  lemma ConsentedLoop(p: Peer, wire: Bytes)
    requires FilesOk(p.st.files) && Consented(p, wire).Some?
    ensures var q := BeginSending(Consented(p, wire).value);
            FilesOk(q.st.files) && OnFrame(p, wire) == SendLoop(q, p.env.tape.order(q.st.files.Keys))
  {
    var i := ReceiveSecure(p, wire);
    var header, chunk := i.frame.transfer.value.header.value, i.frame.transfer.value.chunk.value;
    var g := Gather(i.p, header, chunk);
    assert OnV1(i.p, i.frame) == OnBytes(i.p, header, chunk);
    assert OnBytes(i.p, header, chunk) == OnComplete(g.p, g.complete.value);
    AcceptedLoop(g.p, g.complete.value);
  }
}
