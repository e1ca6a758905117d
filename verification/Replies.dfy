/** What each request of the other side or of the user is answered with: what goes out, what the front end is
    told, and what stays as it was. */
module Replies {
  import opened Wrappers
  import opened Messages
  import opened Libraries
  import opened SecureChannel
  import opened Peers
  import opened Reassembly
  import opened Sessions
  import opened ChannelOrder
  import opened LetterCalls
  import I = Inbound
  import O = Outbound
  import InboundSafety
  import OutboundSafety
  import Destination

  const GOODBYE := OfflineFrame(Some(Disconnection))

  /** The files, the disk and the metadata are as before. */
  ghost predicate Spared(p: Peer, q: Peer) {
    && q.env == p.env && q.keys == p.keys && q.disk == p.disk && q.st.files == p.st.files && q.st.meta == p.st.meta
    && q.st.text == p.st.text && q.st.lastNotified == p.st.lastNotified
  }

  /** The session is over: the front end is told this state, and the other side is sent a goodbye. */
  ghost predicate Closes(p: Peer, s: Step, state: State) {
    && Spared(p, s.p) && s.p.st.state == state
    && s.p.told == p.told + [ChannelMessage(p.env.id, state, p.st.meta)]
    && s.r.Err? && p.sent <= s.p.sent <= p.sent + [GOODBYE]
    && (s.r.error.NotAnError? ==> s.p.sent == p.sent + [GOODBYE])
    && (p.io.None? && p.keys.Some? ==> s.r.error.NotAnError?)
  }

  lemma EndCloses(p: Peer, state: State)
    ensures Closes(p, End(p, state), state)
  {
  }

  /** One letter goes out, or as much of it as I/O allows. */
  ghost predicate Mails(p: Peer, s: Step, frame: ShareFrame) {
    var letter := Letter(p.env.tape.payloadIds(p.st.serverSeq), frame);
    && p.sent <= s.p.sent <= p.sent + Envelope(p.env.lib, letter)
    && (s.r.Ok? || s.r == Err(NotAnError) ==> s.p.sent == p.sent + Envelope(p.env.lib, letter))
    && (p.io.None? && p.keys.Some? ==> s.r.Ok? || s.r == Err(NotAnError))
  }

  lemma LetterMails(p: Peer, frame: ShareFrame)
    ensures var s := SendEncrypted(p, frame);
            Mails(p, s, frame) && Spared(p, s.p) && s.p.told == p.told && s.p.st.state == p.st.state
  {
    var body, id := p.env.lib.encShare(frame), p.env.tape.payloadIds(p.st.serverSeq);
    var s := EncryptAndSend(p, BodyChunk(id, body));
    assert s.r.Ok? ==> s.p.sent == p.sent + [BodyChunk(id, body)];
    assert p.sent + [BodyChunk(id, body)] + [LastChunk(id, body)] == p.sent + Envelope(p.env.lib, Letter(id, frame));
  }

  // --- The receiving user ----------------------------------------------------------------------------

  /** A decline: the front end is told so, and the sender is sent one letter, a rejection. */
  lemma DeclineExactly(p: Peer)
    ensures var s := I.OnAction(p, RejectTransfer);
            && Mails(p, s, ResponseFrame(Reject)) && Spared(p, s.p) && s.p.st.state.Rejected? && s.r.Err?
            && s.p.told == p.told + [ChannelMessage(p.env.id, Rejected, p.st.meta)]
  {
    var q := Enter(p, Rejected, true);
    LetterMails(q, ResponseFrame(Reject));
  }

  lemma CancelExactly(p: Peer)
    ensures Closes(p, I.OnAction(p, CancelTransfer), Cancelled)
  {
    EndCloses(p, Cancelled);
  }

  lemma {:induction false} CreatingSends(p: Peer, ids: seq<int>)
    ensures var s := I.CreateAll(p, ids);
            && s.p.sent == p.sent && s.p.told == p.told && s.p.st.serverSeq == p.st.serverSeq && s.p.env == p.env
            && s.p.keys == p.keys && s.p.st.meta == p.st.meta && s.r != Err(NotAnError)
    decreases |ids|
  {
    if |ids| > 0 && ids[0] in p.st.files && !Broken(p) {
      CreatingSends(I.Create(Spend(p), ids[0]), ids[1..]);
    }
  }

  /** An acceptance that goes through: one letter, an acceptance, and the front end is told that files are coming. */
  lemma AcceptExactly(p: Peer)
    requires I.OnAction(p, AcceptTransfer).r.Ok?
    ensures var s := I.OnAction(p, AcceptTransfer);
            var letter := Letter(p.env.tape.payloadIds(p.st.serverSeq), ResponseFrame(Accept));
            && s.p.sent == p.sent + Envelope(p.env.lib, letter)
            && s.p.st.state.ReceivingFiles?
            && s.p.told == p.told + [ChannelMessage(p.env.id, ReceivingFiles, p.st.meta)]
  {
    var ids := p.env.tape.order(p.st.files.Keys);
    CreatingSends(p, ids);
    LetterMails(I.CreateAll(p, ids).p, ResponseFrame(Accept));
  }

  /** Every announced file is there and open. */
  ghost predicate AllThere(files: map<int, FileInfo>, p: Peer) {
    && p.st.files.Keys == files.Keys
    && forall id | id in files :: p.st.files[id].handle.Some? && id in p.disk.written
  }

  lemma {:induction false} AllCreated(p: Peer)
    requires InboundSafety.Inv(p) && InboundSafety.LawfulTape(p.env.tape) && p.st.state.WaitingForUserConsent?
    ensures var s := I.CreateAll(p, p.env.tape.order(p.st.files.Keys)); s.r.Ok? ==> AllThere(p.st.files, s.p)
  {
    InboundSafety.FilesOpen(p);
    var s := I.CreateAll(p, p.env.tape.order(p.st.files.Keys));
    if s.r.Ok? {
      forall id | id in p.st.files
        ensures s.p.st.files[id].handle.Some? && id in s.p.disk.written
      {
        assert InboundSafety.FileKept(id, s.p.st.files[id], s.p.disk.written);
      }
    }
  }

  /** However an acceptance goes: no part of the answer leaves before every announced file is there, and what leaves
      is the acceptance; the front end is told only when all of it has left. */
  lemma AcceptedAfterCreating(p: Peer)
    requires InboundSafety.Inv(p) && InboundSafety.LawfulTape(p.env.tape) && p.st.state.WaitingForUserConsent?
    ensures var s := I.OnAction(p, AcceptTransfer);
            var letter := Letter(p.env.tape.payloadIds(p.st.serverSeq), ResponseFrame(Accept));
            && p.sent <= s.p.sent <= p.sent + Envelope(p.env.lib, letter)
            && (s.p.sent != p.sent ==> AllThere(p.st.files, s.p))
            && (s.r.Err? ==> s.p.told == p.told)
  {
    var ids := p.env.tape.order(p.st.files.Keys);
    AllCreated(p);
    CreatingSends(p, ids);
    LetterMails(I.CreateAll(p, ids).p, ResponseFrame(Accept));
  }

  /** What is meant for another session changes nothing, and of its own actions the sender heeds the cancellation
      only. */
  lemma OthersIgnored(p: Peer, id: string, action: ChannelAction)
    ensures id != p.env.id ==> I.Handle(p, Front(id, action)) == Step(p, Ok)
    ensures O.FilesOk(p.st.files) && (id != p.env.id || !action.CancelTransfer?)
            ==> O.Handle(p, Front(id, action)) == Step(p, Ok)
  {
  }

  lemma SenderCancelExactly(p: Peer)
    requires O.FilesOk(p.st.files)
    ensures Closes(p, O.Handle(p, Front(p.env.id, CancelTransfer)), Cancelled)
  {
    EndCloses(p, Cancelled);
  }

  // --- Sharing frames ----------------------------------------------------------------------------------

  predicate IsCancel(frame: ShareFrame) {
    frame.v1.Some? && frame.v1.value.stype.CancelType?
  }

  /** A cancel frame from the other side, in whatever state, closes the session as cancelled. */
  lemma CancelFrameCloses(p: Peer, frame: ShareFrame)
    requires IsCancel(frame)
    ensures Closes(p, I.OnSetup(p, frame), Cancelled)
    ensures O.FilesOk(p.st.files) ==> Closes(p, O.OnSetup(p, frame), Cancelled)
  {
    EndCloses(p, Cancelled);
  }

  /** What the receiver waits for in this state is not in the frame. */
  predicate ReceiverMisses(state: State, frame: ShareFrame) {
    match frame.v1
    case None => true
    case Some(v1) =>
      && !v1.stype.CancelType?
      && match state
         case SentConnectionResponse => !v1.hasPairedKeyEncryption
         case SentPairedKeyResult => !v1.hasPairedKeyResult
         case ReceivedPairedKeyResult => v1.introduction.None?
         case _ => false
  }

  lemma IntroductionTaken(p: Peer, v1: ShareV1)
    requires v1.introduction.Some?
    ensures I.ProcessIntroduction(p, v1).r != Err(Refused(MissingField))
  {
  }

  /** Exactly such a frame is refused as incomplete, with nothing moved. */
  lemma ReceiverMissesExactly(p: Peer, frame: ShareFrame)
    ensures var s := I.OnSetup(p, frame);
            if ReceiverMisses(p.st.state, frame) then s == Step(p, Err(Refused(MissingField)))
            else s.r != Err(Refused(MissingField))
  {
    if frame.v1.Some? && frame.v1.value.introduction.Some? {
      IntroductionTaken(p, frame.v1.value);
    }
  }

  predicate SenderMisses(state: State, frame: ShareFrame) {
    match frame.v1
    case None => true
    case Some(v1) =>
      && !v1.stype.CancelType?
      && match state
         case SentPairedKeyEncryption => !v1.hasPairedKeyEncryption
         case SentPairedKeyResult => !v1.hasPairedKeyResult
         case SentIntroduction => v1.stype != ResponseType || v1.response.None?
         case _ => false
  }

  lemma SenderMissesMoveNothing(p: Peer, frame: ShareFrame)
    requires O.FilesOk(p.st.files) && SenderMisses(p.st.state, frame)
    ensures O.OnSetup(p, frame) == Step(p, Err(Refused(MissingField)))
  {
  }

  /** Any answer but an acceptance ends the sender's session: the front end is told, no file frame goes out. */
  lemma RefusalCloses(p: Peer, frame: ShareFrame)
    requires O.FilesOk(p.st.files) && p.st.state.SentIntroduction?
    requires !IsCancel(frame) && !SenderMisses(SentIntroduction, frame) && frame.v1.value.response != Some(Accept)
    ensures Closes(p, O.OnSetup(p, frame), Disconnected)
  {
    EndCloses(p, Disconnected);
  }

  /** In states that wait for nothing, sharing frames change nothing. */
  lemma LateFramesIgnored(p: Peer, v1: ShareV1)
    requires !v1.stype.CancelType? && Rank(p.st.state) >= 7
    ensures I.OnSetup(p, ShareFrame(Some(v1))) == Step(p, Ok)
    ensures O.FilesOk(p.st.files) ==> O.OnSetup(p, ShareFrame(Some(v1))) == Step(p, Ok)
  {
  }

  // --- Secure frames -------------------------------------------------------------------------------------

  /** A keep-alive is answered with a keep-alive that acknowledges it, and changes nothing else. */
  ghost predicate KeptAlive(p: Peer, s: Step) {
    && (s.r.Ok? ==> s.p.sent == p.sent + [OfflineFrame(Some(KeepAlive(true)))])
    && (s.r.Err? ==> s.p.sent == p.sent)
    && s.p == p.(st := p.st.(serverSeq := p.st.serverSeq + 1), io := s.p.io, out := s.p.out, sent := s.p.sent)
    && (p.io.None? && p.keys.Some? ==> s.r.Ok?)
  }

  lemma KeepAliveAnswered(p: Peer, ack: bool)
    ensures KeptAlive(p, I.OnV1(p, KeepAlive(ack)))
    ensures O.FilesOk(p.st.files) ==> KeptAlive(p, O.OnV1(p, KeepAlive(ack)))
  {
  }

  /** Frames that carry nothing for either side. */
  predicate Idle(v1: V1Frame) {
    match v1
    case Payload(Some(PayloadTransfer(Some(header), Some(_)))) =>
      header.ptype.UnknownPayloadType? || header.ptype.StreamPayload?
    case Payload(_) => false
    case KeepAlive(_) => false
    case _ => true
  }

  lemma IdleIgnored(p: Peer, v1: V1Frame)
    requires Idle(v1)
    ensures I.OnV1(p, v1) == Step(p, Ok)
    ensures O.FilesOk(p.st.files) ==> O.OnV1(p, v1) == Step(p, Ok)
  {
  }

  /** A payload without its header or its chunk. */
  predicate Headless(v1: V1Frame) {
    match v1
    case Payload(Some(PayloadTransfer(Some(_), Some(_)))) => false
    case Payload(_) => true
    case _ => false
  }

  lemma HeadlessRefused(p: Peer, v1: V1Frame)
    requires Headless(v1)
    ensures I.OnV1(p, v1) == Step(p, Err(Refused(MissingField)))
    ensures O.FilesOk(p.st.files) ==> O.OnV1(p, v1) == Step(p, Err(Refused(MissingField)))
  {
  }

  /** Files are not sent to a sender. */
  lemma SenderTakesNoFiles(p: Peer, header: PayloadHeader, chunk: PayloadChunk)
    requires O.FilesOk(p.st.files) && header.ptype.FilePayload?
    ensures O.OnV1(p, Payload(Some(PayloadTransfer(Some(header), Some(chunk))))) == Step(p, Ok)
  {
  }

  /** A chunk of a byte payload that is refused takes what was held for its id with it, and nothing else; it is never
      a complete payload. */
  lemma RefusedChunkForgets(p: Peer, header: PayloadHeader, chunk: PayloadChunk)
    ensures var g := Gather(p, header, chunk);
            g.r.Err? && g.r.error.Refused? ==>
              && g.complete.None? && header.id !in g.p.st.buffers && Spared(p, g.p)
              && forall id | id != header.id ::
                   (id in g.p.st.buffers <==> id in p.st.buffers)
                   && (id in p.st.buffers ==> g.p.st.buffers[id] == p.st.buffers[id])
  {
  }

  lemma TooBigRefused(p: Peer, wire: Bytes)
    requires |wire| > SANE_FRAME_LENGTH
    ensures I.Handle(p, Frame(wire)) == Step(p, Err(Refused(FrameTooBig)))
    ensures O.FilesOk(p.st.files) ==> O.Handle(p, Frame(wire)) == Step(p, Err(Refused(FrameTooBig)))
  {
  }

  /** What is wrong with a file chunk, if anything. */
  function ChunkFault(p: Peer, header: PayloadHeader, chunk: PayloadChunk): Option<Reason> {
    if header.id !in p.st.files then Some(UnknownPayload)
    else if chunk.offset != p.st.files[header.id].transferred then Some(BadOffset)
    else if p.st.files[header.id].transferred + |chunk.body| > p.st.files[header.id].total then Some(ExcessBytes)
    else None
  }

  /** A faulty chunk is refused for its fault with nothing moved; one without bytes that is not the last of its
      file changes nothing. */
  lemma FaultyChunkRefused(p: Peer, header: PayloadHeader, chunk: PayloadChunk)
    ensures var s := I.OnFileChunk(p, header, chunk);
            match ChunkFault(p, header, chunk)
            case Some(reason) => s == Step(p, Err(Refused(reason)))
            case None =>
              (s.r.Err? ==> !s.r.error.Refused?) && (|chunk.body| == 0 && !chunk.IsLast() ==> s == Step(p, Ok))
  {
  }

  /** The last chunk of a file closes it; the last file closes the session as finished. */
  lemma LastChunkExactly(p: Peer, header: PayloadHeader, chunk: PayloadChunk)
    requires ChunkFault(p, header, chunk).None? && |chunk.body| == 0 && chunk.IsLast()
    ensures var q := p.(st := p.st.(files := p.st.files - {header.id}));
            if q.st.files == map[] then Closes(q, I.OnFileChunk(p, header, chunk), Finished)
            else I.OnFileChunk(p, header, chunk) == Step(q, Ok)
  {
    EndCloses(p.(st := p.st.(files := p.st.files - {header.id})), Finished);
  }

  // --- Texts -----------------------------------------------------------------------------------------------

  /** The text is the payload up to the first byte 16. */
  lemma {:induction false} CutMeaning(b: Bytes)
    ensures var n := |I.Cut(b)|;
            && I.Cut(b) <= b && (forall i | 0 <= i < n :: b[i] != 16)
            && (n < |b| ==> b[n] == 16)
  {
    if |b| > 0 && b[0] != 16 {
      CutMeaning(b[1..]);
      var n := |I.Cut(b)|;
      forall i | 0 <= i < n
        ensures b[i] != 16 && I.Cut(b)[i] == b[i]
      {
        assert i > 0 ==> b[i] == b[1..][i - 1];
      }
    }
  }

  /** The payload announced as a text finishes the session and shows the text; bytes that are not UTF-8 are refused
      with nothing shown. */
  lemma {:induction false} TextExactly(p: Peer, data: Bytes)
    requires p.st.meta.Some?
    ensures var s, text := I.OnText(p, data), I.Cut(data);
            if p.env.lib.utf8(text)
            then Closes(p.(st := p.st.(meta := Some(p.st.meta.value.(text := Some(text))))), s, Finished)
            else s == Step(p, Err(Refused(Undecodable)))
  {
    EndCloses(p.(st := p.st.(meta := Some(p.st.meta.value.(text := Some(I.Cut(data)))))), Finished);
  }

  /** The announced text is taken as such, every other byte payload as a sharing frame. */
  lemma CompletedExactly(p: Peer, id: int, data: Bytes)
    ensures I.OnComplete(p, id, data)
         == if p.st.text == Some(id) then I.OnText(p, data)
            else match p.env.lib.decShare(data)
                 case None => Step(p, Err(Refused(Undecodable)))
                 case Some(frame) => I.OnSetup(p, frame)
  {
  }

  // --- The introduction ---------------------------------------------------------------------------------------

  /** What an introduction asks for. */
  datatype Request = Files | Text(id: int) | Unsupported

  function RequestOf(intro: Introduction): Request {
    if |intro.texts| == 0 && |intro.files| > 0 then Files
    else if |intro.texts| == 1 then
      if intro.texts[0].ttype.UnknownText? then Unsupported else Text(intro.texts[0].payloadId)
    else if |intro.wifis| == 1 then Text(intro.wifis[0])
    else Unsupported
  }

  /** The user is asked: one message in state WaitingForUserConsent, with the PIN, these names and this total, nothing
      acknowledged. */
  ghost predicate Asks(p: Peer, s: Step, names: seq<string>, total: int) {
    && s.r.Ok? && s.p.st.state.WaitingForUserConsent? && s.p.sent == p.sent && s.p.disk == p.disk
    && s.p.st.meta == Some(TransferMetadata(p.st.pin, names, total, 0, None))
    && s.p.told == p.told + [ChannelMessage(p.env.id, WaitingForUserConsent, s.p.st.meta)]
  }

  /** The announced names, in order. */
  lemma {:induction false} TakenNames(files: map<int, FileInfo>, existing: set<string>, list: seq<FileMetadata>, k: nat)
    requires k <= |list|
    ensures I.Taken(files, existing, list, k).names == seq(k, i requires 0 <= i < k => list[i].name)
  {
    if k > 0 {
      TakenNames(files, existing, list, k - 1);
    }
  }

  /** The last of the first k entries with this id. */
  function LastEntry(list: seq<FileMetadata>, k: nat, id: int): (entry: Option<nat>)
    requires k <= |list|
    ensures match entry
            case None => forall j | 0 <= j < k :: list[j].payloadId != id
            case Some(i) => i < k && list[i].payloadId == id && forall j | i < j < k :: list[j].payloadId != id
  {
    if k == 0 then None else if list[k - 1].payloadId == id then Some(k - 1) else LastEntry(list, k - 1, id)
  }

  /** The table: every announced id, with the path chosen for its last entry, nothing transferred, not open. */
  lemma {:induction false} TakenTable(existing: set<string>, list: seq<FileMetadata>, k: nat, id: int)
    requires k <= |list|
    ensures var t := I.Taken(map[], existing, list, k).files;
            match LastEntry(list, k, id)
            case None => id !in t
            case Some(i) =>
              id in t && t[id] == FileInfo(Destination.Path(existing, list[i].name), 0, list[i].size, None)
  {
    if k > 0 {
      TakenTable(existing, list, k - 1, id);
    }
  }

  /** Files are asked for by their names, in order, and by their total. */
  lemma FilesAsked(p: Peer, v1: ShareV1)
    requires v1.introduction.Some? && RequestOf(v1.introduction.value).Files?
    ensures var files, s := v1.introduction.value.files, I.ProcessIntroduction(p, v1);
            var t := I.Taken(p.st.files, p.disk.names, files, |files|);
            && Asks(p, s, seq(|files|, i requires 0 <= i < |files| => files[i].name), t.total)
            && s.p.st.text == p.st.text && s.p.st.files == t.files
  {
    var files := v1.introduction.value.files;
    TakenNames(p.st.files, p.disk.names, files, |files|);
  }

  /** A text is asked for by its id. */
  lemma TextAsked(p: Peer, v1: ShareV1)
    requires v1.introduction.Some? && RequestOf(v1.introduction.value).Text?
    ensures var s := I.ProcessIntroduction(p, v1);
            Asks(p, s, [], 0) && s.p.st.text == Some(RequestOf(v1.introduction.value).id) && s.p.st.files == p.st.files
  {
  }

  /** Anything else is answered with one letter, a refusal, and the user hears nothing. */
  lemma UnsupportedRefused(p: Peer, v1: ShareV1)
    requires v1.introduction.Some? && RequestOf(v1.introduction.value).Unsupported?
    ensures var s := I.ProcessIntroduction(p, v1);
            && Mails(p, s, ResponseFrame(UnsupportedAttachmentType)) && Spared(p, s.p) && s.p.told == p.told
            && s.p.st.state.WaitingForUserConsent?
  {
    var q := Enter(p, WaitingForUserConsent, false);
    LetterMails(q, ResponseFrame(UnsupportedAttachmentType));
    assert I.ProcessIntroduction(p, v1) == SendEncrypted(q, ResponseFrame(UnsupportedAttachmentType));
  }
}
