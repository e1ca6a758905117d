/** One side of a session as a value: what `InboundRequest` and `OutboundRequest` hold (hdl/mod.rs), the
    traces the proofs speak about, and the operations the two declare identically. */
module Peers {
  import opened Wrappers
  import opened Messages
  import opened Libraries
  import opened SecureChannel
  import PointCodec

  // Every random or external choice of one side. `ivs` and `payloadIds` are indexed by the sequence
  // number in force when they are drawn, so any series of draws is some tape.
  datatype Tape = Tape(
    privateKey: nat,
    random: Bytes,                  // the 32 bytes of the UKEY2 init message
    salt: Bytes,                    // the 16 bytes of the endpoint info
    ivs: int -> Bytes,
    payloadIds: int -> int,
    fileIds: nat -> int,            // by position in the announced list
    chunkSizes: (int, int) -> int,       // bytes a read of this file at this offset returns
    order: set<int> -> seq<int>)    // how a map's keys are listed

  // A path the user chose to send.
  datatype SourceFile =
    | NotAFile(path: string)
    | Unreadable(path: string)
    | Regular(path: string, name: string, data: Bytes)

  datatype Env = Env(
    lib: Library, tape: Tape, id: string, device: RemoteDeviceInfo, payload: seq<SourceFile>)

  datatype Handshake = Handshake(
    commitment: Option<CipherCommitment>,
    privateKey: Option<nat>,
    serverInit: Option<Bytes>,
    clientInit: Option<Bytes>,
    clientFinish: Option<Bytes>)

  datatype InnerState = InnerState(
    state: State,
    serverSeq: int,                 // secure messages sent
    clientSeq: int,                 // secure messages received
    hs: Handshake,
    remote: Option<RemoteDeviceInfo>,
    pin: Option<string>,
    meta: Option<TransferMetadata>,
    files: map<int, FileInfo>,
    text: Option<int>,              // payload id of an announced text
    buffers: map<int, Bytes>,
    lastNotified: int)

  // Files announced for sending: the list the peer is told, the table kept for it, the byte total.
  datatype Announcement = Announcement(list: seq<FileMetadata>, files: map<int, FileInfo>, total: int)

  // The download directory: the names in it, what was written for each payload id, and what the files that
  // were created hold. Files with different ids may have the same path.
  datatype Disk = Disk(names: set<string>, written: map<int, Bytes>, contents: map<string, Bytes>)
  {
    function Created(id: int, path: string): Disk {
      Disk(names + {path}, written[id := []], contents[path := []])
    }

    /** `data` is all that was written for this id, of which `body` goes to position `at` now. */
    function Grown(id: int, path: string, data: Bytes, at: nat, body: Bytes): Disk {
      var before := if path in contents then contents[path] else [];
      Disk(names, written[id := data], contents[path := Overwritten(before, at, body)])
    }
  }

  /** A write into the middle of a file, or behind its end. */
  function Overwritten(data: Bytes, at: nat, body: Bytes): Bytes {
    if |data| < at then data + Fill(at - |data|, 0) + body
    else data[..at] + body + if at + |body| < |data| then data[at + |body|..] else []
  }

  datatype Peer = Peer(
    env: Env,
    st: InnerState,
    keys: Option<SessionKeys>,
    io: Option<nat>,                // how many more I/O operations succeed; None means all
    out: seq<Bytes>,                // messages written to the socket
    sent: seq<OfflineFrame>,        // frames sent through the secure channel
    told: seq<ChannelMessage>,      // messages broadcast to the front end
    disk: Disk)

  datatype Step = Step(p: Peer, r: Outcome)

  const NO_HANDSHAKE := Handshake(None, None, None, None, None)

  function Fresh(env: Env, io: Option<nat>, names: set<string>, meta: Option<TransferMetadata>): Peer {
    Peer(env, InnerState(Initial, 0, 0, NO_HANDSHAKE, None, None, meta, map[], None, map[], 0),
         None, io, [], [], [], Disk(names, map[], map[]))
  }

  // --- State changes and broadcasts ----------------------------------------------------------

  function Told(p: Peer): ChannelMessage {
    ChannelMessage(p.env.id, p.st.state, p.st.meta)
  }

  /** `update_state`: the new inner state, announced to the front end when `inform` holds. */
  function Update(p: Peer, st: InnerState, inform: bool): Peer {
    var q := p.(st := st);
    if inform then q.(told := q.told + [Told(q)]) else q
  }

  function Enter(p: Peer, state: State, inform: bool): Peer {
    Update(p, p.st.(state := state), inform)
  }

  function Fail(p: Peer, reason: Reason): Step {
    Step(p, Err(Refused(reason)))
  }

  // --- I/O -------------------------------------------------------------------------------------

  predicate Broken(p: Peer) {
    p.io == Some(0)
  }

  function Spend(p: Peer): Peer {
    match p.io
    case None => p
    case Some(n) => p.(io := Some(if n == 0 then 0 else n - 1))
  }

  /** `send_frame`. */
  function SendFrame(p: Peer, data: Bytes): (s: Step)
    ensures s.p == p.(io := s.p.io, out := s.p.out)
    ensures s.r.Ok? || s.r == Err(Io)
  {
    if Broken(p) then Step(p, Err(Io))
    else
      var q := Spend(p);
      Step(q.(out := q.out + [data]), Ok)
  }

  function SendOffline(p: Peer, frame: OfflineFrame): Step {
    SendFrame(p, p.env.lib.encOffline(frame))
  }

  function Transmit(p: Peer, wire: Bytes, frame: OfflineFrame): (s: Step)
    ensures s.p == p.(io := s.p.io, out := s.p.out, sent := s.p.sent)
    ensures s.r.Ok? || s.r == Err(Io)
  {
    var s := SendFrame(p, wire);
    if s.r.Err? then s else Step(s.p.(sent := s.p.sent + [frame]), Ok)
  }

  /** `encrypt_and_send`. */
  function EncryptAndSend(p: Peer, frame: OfflineFrame): (s: Step)
    ensures s.p == p.(st := p.st.(serverSeq := p.st.serverSeq + 1), io := s.p.io, out := s.p.out, sent := s.p.sent)
    ensures s.r.Ok? || s.r == Err(Io) || s.r == Err(Panic(NoSessionKeys))
  {
    var n := p.st.serverSeq + 1;
    var q := p.(st := p.st.(serverSeq := n));
    if p.keys.None? then Step(q, Err(Panic(NoSessionKeys)))
    else
      Transmit(q, Seal(p.env.lib, p.keys.value, p.env.tape.ivs(n), n, frame), frame)
  }

  function PayloadFrame(id: int, ptype: PayloadType, total: int, offset: int, flags: int, body: Bytes): OfflineFrame {
    OfflineFrame(Some(Payload(Some(PayloadTransfer(
      Some(PayloadHeader(id, ptype, total)), Some(PayloadChunk(offset, flags, body)))))))
  }

  /** The two chunks that carry a byte payload: the whole body, then an empty last chunk. */
  function BodyChunk(id: int, body: Bytes): OfflineFrame {
    PayloadFrame(id, BytesPayload, |body|, 0, 0, body)
  }

  function LastChunk(id: int, body: Bytes): OfflineFrame {
    PayloadFrame(id, BytesPayload, |body|, |body|, 1, [])
  }

  /** `send_encrypted_frame`. */
  function SendEncrypted(p: Peer, frame: ShareFrame): (s: Step)
    ensures s.p == p.(st := p.st.(serverSeq := s.p.st.serverSeq), io := s.p.io, out := s.p.out, sent := s.p.sent)
    ensures s.r.Ok? || s.r == Err(Io) || s.r == Err(Panic(NoSessionKeys))
  {
    var body := p.env.lib.encShare(frame);
    var id := p.env.tape.payloadIds(p.st.serverSeq);
    var s := EncryptAndSend(p, BodyChunk(id, body));
    if s.r.Err? then s else EncryptAndSend(s.p, LastChunk(id, body))
  }

  /** `disconnection`, which always encrypts: `encryption_done` is true from the start. */
  function Disconnect(p: Peer): Step {
    EncryptAndSend(p, OfflineFrame(Some(Disconnection)))
  }

  /** Enter a final state, say so, send a disconnection frame and end the session. */
  function End(p: Peer, state: State): (s: Step)
    ensures s.p == p.(st := p.st.(state := state, serverSeq := p.st.serverSeq + 1), io := s.p.io, out := s.p.out,
                      sent := s.p.sent, told := p.told + [ChannelMessage(p.env.id, state, p.st.meta)])
    ensures s.r == Err(NotAnError) || s.r == Err(Io) || s.r == Err(Panic(NoSessionKeys))
  {
    var s := Disconnect(Enter(p, state, true));
    if s.r.Err? then s else Step(s.p, Err(NotAnError))
  }

  function Alert(p: Peer, alert: AlertType, reason: Reason): (s: Step)
    ensures s.p == p.(io := s.p.io, out := s.p.out)
    ensures s.r == Err(Refused(reason)) || s.r == Err(Io)
  {
    var s := SendFrame(p, p.env.lib.encUkey(AlertMsg(alert)));
    if s.r.Err? then s else Fail(s.p, reason)
  }

  // --- Receiving -------------------------------------------------------------------------------

  datatype Incoming = Incoming(p: Peer, r: Outcome, frame: V1Frame)

  /** `decrypt_and_process_secure_message` up to the dispatch on the frame type. */
  function ReceiveSecure(p: Peer, wire: Bytes): (i: Incoming)
    ensures i.p == p.(st := p.st.(clientSeq := i.p.st.clientSeq))
    ensures i.r.Err? ==> i.r.error.Refused? || i.r.error == Panic(NoSessionKeys)
  {
    if p.env.lib.decSm(wire).None? then Incoming(p, Err(Refused(Undecodable)), OtherV1)
    else if p.keys.None? then Incoming(p, Err(Panic(NoSessionKeys)), OtherV1)
    else
      match Open(p.env.lib, p.keys.value, wire)
      case Refusal(reason) => Incoming(p, Err(Refused(reason)), OtherV1)
      case Message(d2d) =>
        var q := p.(st := p.st.(clientSeq := p.st.clientSeq + 1));
        if d2d.sequence != q.st.clientSeq then Incoming(q, Err(Refused(BadSequence)), OtherV1)
        else
          match p.env.lib.decOffline(d2d.message)
          case None => Incoming(q, Err(Refused(Undecodable)), OtherV1)
          case Some(OfflineFrame(None)) => Incoming(q, Err(Refused(MissingField)), OtherV1)
          case Some(OfflineFrame(Some(v1))) => Incoming(q, Ok, v1)
  }

  datatype Gathered = Gathered(p: Peer, r: Outcome, complete: Option<Bytes>)

  /** The Bytes branch: append a chunk to its buffer, and hand the buffer over on the last chunk. */
  function Gather(p: Peer, header: PayloadHeader, chunk: PayloadChunk): (g: Gathered)
    ensures g.p == p.(st := p.st.(buffers := g.p.st.buffers))
    ensures g.r.Err? ==> g.r.error.Refused? || g.r.error == Panic(Overflow)
  {
    var id, held := header.id, p.st.buffers;
    if header.totalSize > SANE_FRAME_LENGTH then
      Gathered(WithBuffers(p, held - {id}), Err(Refused(PayloadTooLarge)), None)
    else if id !in held && header.totalSize < 0 then
      Gathered(p, Err(Panic(Overflow)), None)    // the capacity of the new buffer
    else
      var buffer := if id in held then held[id] else [];
      if chunk.offset != |buffer| then
        Gathered(WithBuffers(p, held - {id}), Err(Refused(BadOffset)), None)
      else
        var grown := buffer + chunk.body;
        Gathered(WithBuffers(p, held[id := grown]), Ok, if chunk.IsLast() then Some(grown) else None)
  }

  // A byte payload that is complete.
  datatype Parcel = Parcel(id: int, data: Bytes)

  /** The payload that an event completes: the event is a message that opens, verifies and comes in its turn, and
      brings the last chunk of a byte payload. */
  function CompletedBy(p: Peer, e: Event): Option<Parcel> {
    if !e.Frame? || !Fits(e.wire) || Rank(p.st.state) < 4 then None
    else
      match ReceiveSecure(p, e.wire)
      case Incoming(q, Ok, Payload(Some(PayloadTransfer(Some(header), Some(chunk))))) =>
        if !header.ptype.BytesPayload? then None
        else
          (match Gather(q, header, chunk).complete
           case None => None
           case Some(data) => Some(Parcel(header.id, data)))
      case _ => None
  }

  function WithBuffers(p: Peer, buffers: map<int, Bytes>): Peer {
    p.(st := p.st.(buffers := buffers))
  }

  // --- Progress ------------------------------------------------------------------------------

  function Acked(meta: Option<TransferMetadata>): int {
    match meta
    case None => 0
    case Some(m) => m.ackBytes
  }

  function WithAck(meta: Option<TransferMetadata>, ack: int): Option<TransferMetadata> {
    match meta
    case None => None
    case Some(m) => Some(m.(ackBytes := ack))
  }

  /** The accounting after n more bytes: the count, and a broadcast once 256 KiB have gone by. */
  function Progress(p: Peer, files: map<int, FileInfo>, n: nat): Peer {
    var ack := Acked(p.st.meta) + n;
    var notify := ack - p.st.lastNotified >= NOTIFY_STEP;
    Update(p, p.st.(files := files, meta := WithAck(p.st.meta, ack),
                    lastNotified := if notify then ack else p.st.lastNotified), notify)
  }

  // --- Key exchange ----------------------------------------------------------------------------

  datatype Derivation = Derived(schedule: KeySchedule) | Underived(failure: Failure)

  /** `finalize_key_exchange` up to the choice of keys: rebuild the peer's point, run Diffie-Hellman and
      derive everything from the shared secret and the two init messages. */
  function Derive(p: Peer, key: PublicKeyMsg): Derivation {
    if key.ec.None? then Underived(Refused(MissingField))
    else
      var point := PointCodec.Recover(key.ec.value);
      if point.None? then Underived(Refused(BadPoint))
      else if !p.env.lib.onCurve(point.value) then Underived(Panic(PointOffCurve))
      else if p.st.hs.privateKey.None? || p.st.hs.clientInit.None? || p.st.hs.serverInit.None? then
        Underived(Panic(NoHandshakeData))
      else
        Derived(Schedule(p.env.lib, p.env.lib.dh(p.st.hs.privateKey.value, point.value),
                         p.st.hs.clientInit.value, p.st.hs.serverInit.value))
  }

  // --- What reaches a request ------------------------------------------------------------------

  datatype Event =
    | Frame(wire: Bytes)                              // one length-prefixed message
    | Front(id: string, action: ChannelAction)        // a message from the front end
    | Closed                                          // end of stream or a read error

  // --- The rank along which states only move forward -------------------------------------------

  function Rank(s: State): nat {
    match s
    case Initial => 0
    case ReceivedConnectionRequest => 1
    case SentUkeyServerInit => 2
    case SentUkeyClientInit => 2
    case ReceivedUkeyClientFinish => 3
    case SentUkeyClientFinish => 3
    case SentConnectionResponse => 4
    case SentPairedKeyEncryption => 4
    case SentPairedKeyResult => 5
    case ReceivedPairedKeyResult => 6
    case SentIntroduction => 6
    case WaitingForUserConsent => 7
    case ReceivingFiles => 8
    case SendingFiles => 8
    case Finished => 9
    case Disconnected => 10
    case Rejected => 10
    case Cancelled => 10
  }

  /** A state that tells the front end the session is over. */
  predicate Terminal(s: State) {
    s.Finished? || s.Cancelled? || s.Rejected? || s.Disconnected?
  }
}
