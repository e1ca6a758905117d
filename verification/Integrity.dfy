/** End-to-end integrity: whatever the network, the users and failing I/O do to a session, what the receiver
    writes for a payload id is the beginning of the file the sender offered under it. */
module Integrity {
  import opened Wrappers
  import opened Messages
  import opened Libraries
  import opened SecureChannel
  import opened Peers
  import opened Ledgers
  import opened Sessions
  import opened Delivery
  import opened ChannelOrder
  import I = Inbound
  import O = Outbound
  import InboundSafety
  import OutboundSafety

  // --- File bytes in frames --------------------------------------------------------------------------

  /** The bytes a frame carries for a file. */
  function BodyFor(frame: OfflineFrame, id: int): Bytes {
    match frame.v1
    case Some(Payload(Some(PayloadTransfer(Some(header), Some(chunk))))) =>
      if header.ptype.FilePayload? && header.id == id then chunk.body else []
    case _ => []
  }

  /** All bytes the frames carry for a file, in order. */
  function BytesFor(frames: seq<OfflineFrame>, id: int): Bytes {
    if |frames| == 0 then [] else BytesFor(frames[..|frames| - 1], id) + BodyFor(frames[|frames| - 1], id)
  }

  lemma {:induction false} BytesForOne(frames: seq<OfflineFrame>, frame: OfflineFrame, id: int)
    ensures BytesFor(frames + [frame], id) == BytesFor(frames, id) + BodyFor(frame, id)
  {
    assert (frames + [frame])[..|frames|] == frames;
  }

  lemma {:induction false} BytesForPrefix(frames: seq<OfflineFrame>, k: nat, id: int)
    requires k <= |frames|
    ensures BytesFor(frames[..k], id) <= BytesFor(frames, id)
    decreases |frames|
  {
    if k < |frames| {
      var front := frames[..|frames| - 1];
      BytesForPrefix(front, k, id);
      assert frames[..k] == front[..k];
    } else {
      assert frames[..k] == frames;
    }
  }

  // --- What the sender has sent of a file ------------------------------------------------------------

  function OfferOf(env: Env, id: int): Bytes {
    if id in Offered(env) then Offered(env)[id] else []
  }

  /** What was sent of a file goes up to the cursor, or up to where the file was given up. */
  predicate Share(entry: Option<FileInfo>, file: Bytes, sent: Bytes, early: bool) {
    match entry
    case None => sent <= file && (early ==> sent == [])
    case Some(f) =>
      f.handle.Some? && f.handle.value.data == file && f.handle.value.cursor <= |file|
      && sent == file[..f.handle.value.cursor]
  }

  function Entry(files: map<int, FileInfo>, id: int): Option<FileInfo> {
    if id in files then Some(files[id]) else None
  }

  ghost predicate SentFor(p: Peer, id: int) {
    Share(Entry(p.st.files, id), OfferOf(p.env, id), BytesFor(p.sent, id), Rank(p.st.state) < 6)
  }

  /** The secure messages that carry these frames. */
  function Wires(env: Env, keys: SessionKeys, frames: seq<OfflineFrame>): seq<Bytes> {
    if |frames| == 0 then []
    else
      var n := |frames|;
      Wires(env, keys, frames[..n - 1]) + [Seal(env.lib, keys, env.tape.ivs(n), n, frames[n - 1])]
  }

  /** After its clear messages p has written its frames in order, sealed. */
  ghost predicate Lined(p: Peer, head: seq<Bytes>) {
    p.keys.Some? && p.out == head + Wires(p.env, p.keys.value, p.sent)
  }

  lemma {:induction false} WiresOne(env: Env, keys: SessionKeys, frames: seq<OfflineFrame>, frame: OfflineFrame)
    ensures var n := |frames| + 1;
            Wires(env, keys, frames + [frame])
            == Wires(env, keys, frames) + [Seal(env.lib, keys, env.tape.ivs(n), n, frame)]
  {
    assert (frames + [frame])[..|frames|] == frames;
  }

  lemma {:induction false} WiresAt(env: Env, keys: SessionKeys, frames: seq<OfflineFrame>, i: nat)
    requires i < |frames|
    ensures |Wires(env, keys, frames)| == |frames|
    ensures Wires(env, keys, frames)[i] == Seal(env.lib, keys, env.tape.ivs(i + 1), i + 1, frames[i])
  {
    var front := frames[..|frames| - 1];
    if i < |front| {
      WiresAt(env, keys, front, i);
    } else if |front| > 0 {
      WiresAt(env, keys, front, 0);
    }
  }

  lemma {:induction false} LinedSealed(p: Peer, head: seq<Bytes>)
    requires Lined(p, head)
    ensures Sealed(p, |head|) && head <= p.out
  {
    forall i | 0 <= i < |p.sent|
      ensures |p.out| == |head| + |p.sent|
      ensures p.out[|head| + i] == Seal(p.env.lib, p.keys.value, p.env.tape.ivs(i + 1), i + 1, p.sent[i])
    {
      WiresAt(p.env, p.keys.value, p.sent, i);
    }
    if |p.sent| > 0 {
      WiresAt(p.env, p.keys.value, p.sent, 0);
    }
  }

  /** The sender's traffic is in order, and carries its files. */
  ghost predicate Fair(p: Peer, head: seq<Bytes>, id: int) {
    Lined(p, head) && p.st.serverSeq == |p.sent| && SentFor(p, id)
  }

  /** So is what it has sent when a step is over, however the step ended. */
  ghost predicate Ends(s: Step, head: seq<Bytes>, id: int) {
    Lined(s.p, head) && SentFor(s.p, id) && (s.r.Ok? ==> s.p.st.serverSeq == |s.p.sent|)
  }

  /** q has the traffic and the files of p. */
  ghost predicate Beside(p: Peer, q: Peer) {
    && q.env == p.env && q.keys == p.keys && q.out == p.out && q.sent == p.sent
    && q.st.serverSeq == p.st.serverSeq && q.st.files == p.st.files && Rank(p.st.state) <= Rank(q.st.state)
  }

  lemma BesideFair(p: Peer, q: Peer, head: seq<Bytes>, id: int)
    requires Fair(p, head, id) && Beside(p, q)
    ensures Fair(q, head, id)
  {
  }

  lemma BesideEnds(p: Peer, s: Step, head: seq<Bytes>, id: int)
    requires Fair(p, head, id) && Beside(p, s.p)
    ensures Ends(s, head, id)
  {
  }

  lemma FailEnds(p: Peer, head: seq<Bytes>, reason: Reason, id: int)
    requires Fair(p, head, id)
    ensures Ends(Fail(p, reason), head, id)
  {
  }

  /** Moving on after a step, if it went well. */
  lemma ThenEnds(s: Step, q: Peer, head: seq<Bytes>, id: int)
    requires Ends(s, head, id) && (s.r.Ok? ==> Beside(s.p, q))
    ensures Ends(if s.r.Err? then s else Step(q, Ok), head, id)
  {
  }

  lemma {:induction false} SentSealed(p: Peer, head: seq<Bytes>, frame: OfflineFrame)
    requires Lined(p, head) && p.st.serverSeq == |p.sent|
    ensures var s := EncryptAndSend(p, frame);
            && Lined(s.p, head) && s.p.st.files == p.st.files && s.p.env == p.env && s.p.st.state == p.st.state
            && (s.r.Ok? ==> s.p.st.serverSeq == |s.p.sent| && s.p.sent == p.sent + [frame])
            && (s.r.Err? ==> s.p.sent == p.sent)
  {
    WiresOne(p.env, p.keys.value, p.sent, frame);
  }

  lemma SendEnds(p: Peer, head: seq<Bytes>, frame: OfflineFrame, id: int)
    requires Fair(p, head, id) && BodyFor(frame, id) == []
    ensures Ends(EncryptAndSend(p, frame), head, id)
  {
    SentSealed(p, head, frame);
    BytesForOne(p.sent, frame, id);
  }

  lemma LetterEnds(p: Peer, head: seq<Bytes>, frame: ShareFrame, id: int)
    requires Fair(p, head, id)
    ensures Ends(SendEncrypted(p, frame), head, id)
  {
    var body, pid := p.env.lib.encShare(frame), p.env.tape.payloadIds(p.st.serverSeq);
    SendEnds(p, head, BodyChunk(pid, body), id);
    var s := EncryptAndSend(p, BodyChunk(pid, body));
    if s.r.Ok? {
      SendEnds(s.p, head, LastChunk(pid, body), id);
    }
  }

  lemma DisconnectEnds(p: Peer, head: seq<Bytes>, id: int)
    requires Fair(p, head, id)
    ensures Ends(Disconnect(p), head, id)
  {
    SendEnds(p, head, OfflineFrame(Some(Disconnection)), id);
  }

  lemma RankTop(s: State, top: State)
    requires top.Cancelled? || top.Disconnected?
    ensures Rank(s) <= Rank(top)
  {
  }

  lemma EndEnds(p: Peer, head: seq<Bytes>, state: State, id: int)
    requires Fair(p, head, id) && (state.Cancelled? || state.Disconnected?)
    ensures Ends(End(p, state), head, id)
  {
    RankTop(p.st.state, state);
    BesideFair(p, Enter(p, state, true), head, id);
    DisconnectEnds(Enter(p, state, true), head, id);
  }

  /** Send a sharing frame, then move on. */
  function SendThen(p: Peer, frame: ShareFrame, state: State, inform: bool): Step {
    var s := SendEncrypted(p, frame);
    if s.r.Err? then s else Step(Enter(s.p, state, inform), Ok)
  }

  lemma SendThenEnds(p: Peer, head: seq<Bytes>, frame: ShareFrame, state: State, inform: bool, id: int)
    requires Fair(p, head, id) && Rank(p.st.state) <= Rank(state)
    ensures Ends(SendThen(p, frame, state, inform), head, id)
  {
    LetterEnds(p, head, frame, id);
    var s := SendEncrypted(p, frame);
    ThenEnds(s, Enter(s.p, state, inform), head, id);
  }

  // --- The sending loops -------------------------------------------------------------------------------

  /** The bytes are the next ones of the file. */
  predicate NextBytes(f: FileInfo, body: Bytes) {
    match f.handle
    case None => false
    case Some(h) => h.cursor + |body| <= |h.data| && body == h.data[h.cursor..h.cursor + |body|]
  }

  lemma ShareMore(f: FileInfo, file: Bytes, sent: Bytes, early: bool, body: Bytes)
    requires Share(Some(f), file, sent, early) && NextBytes(f, body)
    ensures Share(Some(O.Advance(f, |body|)), file, sent + body, early)
  {
    var cursor := f.handle.value.cursor;
    assert file[..cursor] + body == file[..cursor + |body|];
  }

  /** The file moves on by what was sent of it. */
  lemma {:induction false} SentMore(p: Peer, at: int, body: Bytes, frames: seq<OfflineFrame>, id: int)
    requires SentFor(p, id) && at in p.st.files && NextBytes(p.st.files[at], body)
    requires frames == p.sent + [O.ChunkFrame(at, p.st.files[at], body)]
    ensures Share(Entry(p.st.files[at := O.Advance(p.st.files[at], |body|)], id), OfferOf(p.env, id),
                  BytesFor(frames, id), Rank(p.st.state) < 6)
  {
    var frame := O.ChunkFrame(at, p.st.files[at], body);
    BytesForOne(p.sent, frame, id);
    if at == id {
      ShareMore(p.st.files[at], OfferOf(p.env, id), BytesFor(p.sent, id), Rank(p.st.state) < 6, body);
    } else {
      assert BytesFor(p.sent, id) + [] == BytesFor(p.sent, id);
    }
  }

  /** The chunk of one read goes out, or does not. */
  lemma {:induction false} ReadSent(p: Peer, head: seq<Bytes>, at: int, body: Bytes, id: int)
    requires Fair(p, head, id) && at in p.st.files && NextBytes(p.st.files[at], body)
    ensures var f := p.st.files[at];
            var s := EncryptAndSend(p, O.ChunkFrame(at, f, body));
            if s.r.Err? then Ends(s, head, id)
            else Fair(Progress(s.p, p.st.files[at := O.Advance(f, |body|)], |body|), head, id)
  {
    var f := p.st.files[at];
    SentSealed(p, head, O.ChunkFrame(at, f, body));
    SentMore(p, at, body, p.sent + [O.ChunkFrame(at, f, body)], id);
  }

  /** After the chunk, the end frame if the file is done. */
  lemma LastEnds(q: Peer, head: seq<Bytes>, at: int, f: FileInfo, done: bool, id: int)
    requires Fair(q, head, id)
    ensures Ends(if done then EncryptAndSend(q, O.EndFrame(at, f)) else Step(q, Ok), head, id)
  {
    SendEnds(q, head, O.EndFrame(at, f), id);
  }

  lemma ReadEnds(p: Peer, head: seq<Bytes>, at: int, body: Bytes, id: int)
    requires Fair(p, head, id) && at in p.st.files && NextBytes(p.st.files[at], body)
    ensures Ends(O.SendRead(p, at, p.st.files[at], body), head, id)
  {
    var f := p.st.files[at];
    ReadSent(p, head, at, body, id);
    var s := EncryptAndSend(p, O.ChunkFrame(at, f, body));
    if s.r.Ok? {
      var q := Progress(s.p, s.p.st.files[at := O.Advance(f, |body|)], |body|);
      LastEnds(q, head, at, f, f.transferred + |body| == f.total, id);
    }
  }

  lemma DropEnds(p: Peer, head: seq<Bytes>, at: int, id: int)
    requires Fair(p, head, id) && at in p.st.files && O.FileOk(p.st.files[at])
    requires p.st.files[at].transferred == p.st.files[at].total && Rank(p.st.state) >= 6
    ensures Fair(Update(p, p.st.(files := p.st.files - {at}), false), head, id)
  {
  }

  lemma SliceIsNext(tape: Tape, id: int, f: FileInfo)
    requires f.handle.Some? && O.FileOk(f)
    ensures NextBytes(f, O.Slice(tape, id, f))
  {
  }

  lemma ChunkEnds(p: Peer, head: seq<Bytes>, at: int, id: int)
    requires Fair(p, head, id) && at in p.st.files && p.st.files[at].handle.Some? && O.FileOk(p.st.files[at])
    ensures Ends(O.SendChunk(p, at), head, id)
  {
    var f := p.st.files[at];
    BesideFair(p, Spend(p), head, id);
    SliceIsNext(p.env.tape, at, f);
    ReadEnds(Spend(p), head, at, O.Slice(p.env.tape, at, f), id);
  }

  lemma TurnEnds(p: Peer, head: seq<Bytes>, job: seq<int>, id: int)
    requires Fair(p, head, id) && |job| > 0 && O.FilesOk(p.st.files) && Rank(p.st.state) >= 6
    ensures var t := O.Turn(p, job); Ends(Step(t.p, t.r), head, id)
  {
    var at := job[0];
    if at in p.st.files {
      if p.st.files[at].transferred == p.st.files[at].total {
        DropEnds(p, head, at, id);
      } else if p.st.files[at].handle.Some? {
        ChunkEnds(p, head, at, id);
      }
    }
  }

  lemma FinishEnds(p: Peer, head: seq<Bytes>, id: int)
    requires Fair(p, head, id) && Rank(p.st.state) <= 9
    ensures Ends(O.FinishSending(p), head, id)
  {
    BesideFair(p, Enter(p, Finished, true), head, id);
    DisconnectEnds(Enter(p, Finished, true), head, id);
  }

  lemma {:induction false} LoopCases(p: Peer, job: seq<int>)
    requires O.FilesOk(p.st.files)
    ensures |job| == 0 ==> O.SendLoop(p, job) == O.FinishSending(p)
    ensures |job| > 0 ==>
              var t := O.Turn(p, job);
              if t.r.Err? then O.SendLoop(p, job) == Step(t.p, t.r)
              else O.FilesOk(t.p.st.files) && O.SendLoop(p, job) == O.SendLoop(t.p, t.job)
  {
    if |job| > 0 {
      O.TurnKeepsFiles(p, job);
    }
  }

  lemma TurnGoes(p: Peer, head: seq<Bytes>, job: seq<int>, id: int)
    requires Fair(p, head, id) && |job| > 0 && O.FilesOk(p.st.files) && p.st.state.SendingFiles?
    ensures var t := O.Turn(p, job);
            if t.r.Err? then Ends(Step(t.p, t.r), head, id)
            else Fair(t.p, head, id) && O.FilesOk(t.p.st.files) && t.p.st.state.SendingFiles?
  {
    var t := O.Turn(p, job);
    TurnEnds(p, head, job, id);
    TurnState(p, job);
    O.TurnKeepsFiles(p, job);
    if t.r.Ok? {
      EndsFair(Step(t.p, t.r), head, id);
    }
  }

  lemma {:induction false} LoopEnds(p: Peer, head: seq<Bytes>, job: seq<int>, id: int)
    requires Fair(p, head, id) && O.FilesOk(p.st.files) && p.st.state.SendingFiles?
    ensures Ends(O.SendLoop(p, job), head, id)
    decreases |job|, O.BytesLeft(p.st.files, job)
  {
    LoopCases(p, job);
    if |job| == 0 {
      FinishEnds(p, head, id);
    } else {
      TurnGoes(p, head, job, id);
      O.TurnKeepsFiles(p, job);
      if O.Turn(p, job).r.Ok? {
        LoopEnds(O.Turn(p, job).p, head, O.Turn(p, job).job, id);
      }
    }
  }

  lemma EndsFair(s: Step, head: seq<Bytes>, id: int)
    requires Ends(s, head, id) && s.r.Ok?
    ensures Fair(s.p, head, id)
  {
  }

  lemma TurnState(p: Peer, job: seq<int>)
    requires |job| > 0 && O.FilesOk(p.st.files)
    ensures O.Turn(p, job).p.st.state == p.st.state && O.Turn(p, job).p.env == p.env
  {
  }

  // --- The sender's events -----------------------------------------------------------------------------

  lemma {:induction false} BeginEnds(p: Peer, head: seq<Bytes>, job: seq<int>, id: int)
    requires Fair(p, head, id) && O.FilesOk(p.st.files) && p.st.state.SentIntroduction?
    ensures Ends(O.SendLoop(O.BeginSending(p), job), head, id)
  {
    BesideFair(p, O.BeginSending(p), head, id);
    LoopEnds(O.BeginSending(p), head, job, id);
  }

  lemma ConsentCases(p: Peer, v1: ShareV1)
    requires O.FilesOk(p.st.files)
    ensures var s, q := O.ProcessConsent(p, v1), O.BeginSending(p);
            || s == Fail(p, MissingField) || s == End(p, Disconnected)
            || s == O.SendLoop(q, p.env.tape.order(p.st.files.Keys))
  {
  }

  lemma ConsentEnds(p: Peer, head: seq<Bytes>, v1: ShareV1, id: int)
    requires Fair(p, head, id) && O.FilesOk(p.st.files) && p.st.state.SentIntroduction?
    ensures Ends(O.ProcessConsent(p, v1), head, id)
  {
    ConsentCases(p, v1);
    FailEnds(p, head, MissingField, id);
    EndEnds(p, head, Disconnected, id);
    BeginEnds(p, head, p.env.tape.order(p.st.files.Keys), id);
  }

  /** Nothing of a file was sent when the table is filled. */
  lemma ListedFair(p: Peer, head: seq<Bytes>, id: int)
    requires Fair(p, head, id) && p.st.files == map[] && Rank(p.st.state) < 6
    requires forall i | i in Offer(p.env).files :: i in Offered(p.env) && Fresh(Offer(p.env).files[i])
    ensures Fair(OutboundSafety.Listed(p), head, id)
  {
  }

  // A file that was just opened for sending.
  predicate Fresh(f: FileInfo) {
    f.handle.Some? && f.handle.value.cursor == 0
  }

  lemma {:induction false} OfferFresh(env: Env, k: nat)
    requires k <= |env.payload|
    ensures forall i | i in O.Announced(env, k).files :: Fresh(O.Announced(env, k).files[i])
  {
    if k > 0 {
      OfferFresh(env, k - 1);
    }
  }

  lemma OfferCases(p: Peer, v1: ShareV1)
    ensures O.OnPairedKeyResult(p, v1)
         == if !v1.hasPairedKeyResult then Fail(p, MissingField)
            else SendThen(OutboundSafety.Listed(p), IntroductionFrame(Offer(p.env).list), SentIntroduction, true)
  {
  }

  lemma OfferGoes(p: Peer, head: seq<Bytes>, id: int)
    requires Fair(p, head, id) && p.st.files == map[] && p.st.state.SentPairedKeyResult?
    ensures var frame := IntroductionFrame(Offer(p.env).list);
            Ends(SendThen(OutboundSafety.Listed(p), frame, SentIntroduction, true), head, id)
  {
    OfferFresh(p.env, |p.env.payload|);
    ListedFair(p, head, id);
    SendThenEnds(OutboundSafety.Listed(p), head, IntroductionFrame(Offer(p.env).list), SentIntroduction, true, id);
  }

  lemma OfferEnds(p: Peer, head: seq<Bytes>, v1: ShareV1, id: int)
    requires Fair(p, head, id) && p.st.files == map[] && p.st.state.SentPairedKeyResult?
    ensures Ends(O.OnPairedKeyResult(p, v1), head, id)
  {
    OfferCases(p, v1);
    if v1.hasPairedKeyResult {
      OfferGoes(p, head, id);
    } else {
      FailEnds(p, head, MissingField, id);
    }
  }

  lemma SetupCases(p: Peer, v1: ShareV1)
    requires O.FilesOk(p.st.files)
    ensures var t := O.OnSetupV1(p, v1);
            match p.st.state
            case SentPairedKeyEncryption =>
              t == Fail(p, MissingField) || t == SendThen(p, PairedKeyResultFrame(), SentPairedKeyResult, false)
            case SentPairedKeyResult => t == O.OnPairedKeyResult(p, v1)
            case SentIntroduction => t == O.ProcessConsent(p, v1)
            case _ => t == Step(p, Ok)
  {
  }

  lemma SetupEnds(p: Peer, head: seq<Bytes>, v1: ShareV1, id: int)
    requires Fair(p, head, id) && O.FilesOk(p.st.files) && OutboundSafety.NotYetAnnounced(p)
    ensures Ends(O.OnSetupV1(p, v1), head, id)
  {
    SetupCases(p, v1);
    match p.st.state {
      case SentPairedKeyEncryption =>
        FailEnds(p, head, MissingField, id);
        SendThenEnds(p, head, PairedKeyResultFrame(), SentPairedKeyResult, false, id);
      case SentPairedKeyResult => OfferEnds(p, head, v1, id);
      case SentIntroduction => ConsentEnds(p, head, v1, id);
      case _ => BesideEnds(p, Step(p, Ok), head, id);
    }
  }

  lemma CompleteCases(p: Peer, data: Bytes)
    requires O.FilesOk(p.st.files)
    ensures var t := O.OnComplete(p, data);
            match p.env.lib.decShare(data)
            case Some(ShareFrame(Some(v1))) =>
              t == if v1.stype.CancelType? then End(p, Cancelled) else O.OnSetupV1(p, v1)
            case Some(_) => t == Fail(p, MissingField)
            case None => t == Fail(p, Undecodable)
  {
  }

  lemma CompleteEnds(p: Peer, head: seq<Bytes>, data: Bytes, id: int)
    requires Fair(p, head, id) && O.FilesOk(p.st.files) && OutboundSafety.NotYetAnnounced(p)
    ensures Ends(O.OnComplete(p, data), head, id)
  {
    CompleteCases(p, data);
    match p.env.lib.decShare(data) {
      case Some(ShareFrame(Some(v1))) =>
        if v1.stype.CancelType? {
          EndEnds(p, head, Cancelled, id);
        } else {
          SetupEnds(p, head, v1, id);
        }
      case Some(_) => FailEnds(p, head, MissingField, id);
      case None => FailEnds(p, head, Undecodable, id);
    }
  }

  lemma BytesEnd(p: Peer, head: seq<Bytes>, header: PayloadHeader, chunk: PayloadChunk, id: int)
    requires Fair(p, head, id) && O.FilesOk(p.st.files) && OutboundSafety.NotYetAnnounced(p)
    ensures Ends(O.OnBytes(p, header, chunk), head, id)
  {
    var g := Gather(p, header, chunk);
    BesideFair(p, g.p, head, id);
    if g.complete.Some? {
      CompleteEnds(g.p, head, g.complete.value, id);
    }
  }

  lemma FrameCases(p: Peer, v1: V1Frame)
    requires O.FilesOk(p.st.files)
    ensures O.OnV1(p, v1)
         == match v1
            case Payload(Some(PayloadTransfer(Some(header), Some(chunk)))) =>
              if header.ptype.BytesPayload? then O.OnBytes(p, header, chunk) else Step(p, Ok)
            case Payload(_) => Fail(p, MissingField)
            case KeepAlive(_) => EncryptAndSend(p, OfflineFrame(Some(KeepAlive(true))))
            case _ => Step(p, Ok)
  {
  }

  lemma FrameEnds(p: Peer, head: seq<Bytes>, v1: V1Frame, id: int)
    requires Fair(p, head, id) && O.FilesOk(p.st.files) && OutboundSafety.NotYetAnnounced(p)
    ensures Ends(O.OnV1(p, v1), head, id)
  {
    FrameCases(p, v1);
    BesideEnds(p, Step(p, Ok), head, id);
    match v1 {
      case Payload(Some(PayloadTransfer(Some(header), Some(chunk)))) =>
        if header.ptype.BytesPayload? {
          BytesEnd(p, head, header, chunk, id);
        }
      case Payload(_) => FailEnds(p, head, MissingField, id);
      case KeepAlive(_) => SendEnds(p, head, OfflineFrame(Some(KeepAlive(true))), id);
      case _ =>
    }
  }

  lemma SecureEnds(p: Peer, head: seq<Bytes>, wire: Bytes, id: int)
    requires Fair(p, head, id) && O.FilesOk(p.st.files) && OutboundSafety.NotYetAnnounced(p)
    ensures Ends(O.OnSecure(p, wire), head, id)
  {
    var i := ReceiveSecure(p, wire);
    BesideFair(p, i.p, head, id);
    if i.r.Ok? {
      FrameEnds(i.p, head, i.frame, id);
    }
  }

  // The sender after an accepting response.
  function Responded(s: Step, wire: Bytes): Step {
    if s.r.Err? then s else Step(s.p.(st := s.p.st.(hs := s.p.st.hs.(serverInit := Some(wire)))), Ok)
  }

  lemma RespondedEnds(s: Step, head: seq<Bytes>, wire: Bytes, id: int)
    requires Ends(s, head, id)
    ensures Ends(Responded(s, wire), head, id)
  {
  }

  lemma ResponseCases(p: Peer, wire: Bytes)
    ensures var t := O.OnConnectionResponse(p, wire);
            || t == Fail(p, Undecodable) || t == Fail(p, MissingField) || t == Fail(p, UnexpectedType)
            || t == Fail(p, ConnectionDenied)
            || t == Responded(SendThen(p, PairedKeyEncryptionFrame(), SentPairedKeyEncryption, false), wire)
  {
  }

  lemma ResponseEnds(p: Peer, head: seq<Bytes>, wire: Bytes, id: int)
    requires Fair(p, head, id) && p.st.state.SentUkeyClientFinish?
    ensures Ends(O.OnConnectionResponse(p, wire), head, id)
  {
    ResponseCases(p, wire);
    FailEnds(p, head, Undecodable, id);
    FailEnds(p, head, MissingField, id);
    FailEnds(p, head, UnexpectedType, id);
    FailEnds(p, head, ConnectionDenied, id);
    SendThenEnds(p, head, PairedKeyEncryptionFrame(), SentPairedKeyEncryption, false, id);
    RespondedEnds(SendThen(p, PairedKeyEncryptionFrame(), SentPairedKeyEncryption, false), head, wire, id);
  }

  lemma WireCases(p: Peer, wire: Bytes)
    requires O.FilesOk(p.st.files) && Rank(p.st.state) >= 3
    ensures O.Handle(p, Frame(wire))
         == if !Fits(wire) then Fail(p, FrameTooBig)
            else if p.st.state.SentUkeyClientFinish? then O.OnConnectionResponse(p, wire)
            else O.OnSecure(p, wire)
  {
  }

  lemma WireEnds(p: Peer, head: seq<Bytes>, wire: Bytes, id: int)
    requires Fair(p, head, id) && OutboundSafety.Inv(p) && Rank(p.st.state) >= 3
    ensures Ends(O.Handle(p, Frame(wire)), head, id)
  {
    WireCases(p, wire);
    if !Fits(wire) {
      FailEnds(p, head, FrameTooBig, id);
    } else if p.st.state.SentUkeyClientFinish? {
      ResponseEnds(p, head, wire, id);
    } else {
      SecureEnds(p, head, wire, id);
    }
  }

  lemma FrontEnds(p: Peer, head: seq<Bytes>, own: string, action: ChannelAction, id: int)
    requires Fair(p, head, id) && O.FilesOk(p.st.files)
    ensures Ends(O.Handle(p, Front(own, action)), head, id)
  {
    EndEnds(p, head, Cancelled, id);
    BesideEnds(p, Step(p, Ok), head, id);
  }

  /** Any event from any peer, once the sender has its keys. */
  lemma EventEnds(p: Peer, head: seq<Bytes>, e: Event, id: int)
    requires Fair(p, head, id) && OutboundSafety.Inv(p) && Rank(p.st.state) >= 3
    ensures Ends(O.Handle(p, e), head, id)
  {
    match e {
      case Frame(wire) => WireEnds(p, head, wire, id);
      case Front(own, action) => FrontEnds(p, head, own, action, id);
      case Closed => BesideEnds(p, Step(p, Err(Io)), head, id);
    }
  }

  lemma {:induction false} RunEnds(p: Peer, head: seq<Bytes>, events: seq<Event>, id: int)
    requires Fair(p, head, id) && OutboundSafety.Inv(p) && OutboundSafety.DistinctIds(p.env) && Rank(p.st.state) >= 3
    requires OutboundSafety.SensibleRun(p, events)
    ensures Ends(OutboundSafety.Run(p, events), head, id)
    decreases |events|
  {
    if |events| > 0 {
      EventEnds(p, head, events[0], id);
      OutboundSafety.HandleSafe(p, events[0]);
      var s := O.Handle(p, events[0]);
      if s.r.Ok? {
        RunEnds(s.p, head, events[1..], id);
      }
    }
  }

  // --- What the receiver writes --------------------------------------------------------------------------

  /** What was written for an id. */
  function WrittenFor(d: Disk, id: int): Bytes {
    if id in d.written then d.written[id] else []
  }

  /** A file chunk is written as a whole, or not at all; and if not, the session is over. */
  lemma ChunkWrites(p: Peer, header: PayloadHeader, chunk: PayloadChunk, id: int)
    requires InboundSafety.Inv(p) && header.ptype.FilePayload?
    ensures var s := I.OnFileChunk(p, header, chunk);
            var body := if header.id == id then chunk.body else [];
            || WrittenFor(s.p.disk, id) == WrittenFor(p.disk, id) + body
            || (WrittenFor(s.p.disk, id) == WrittenFor(p.disk, id) && s.r.Err?)
  {
    InboundSafety.ChunkEffect(p, header, chunk);
    assert WrittenFor(p.disk, id) + [] == WrittenFor(p.disk, id);
  }

  /** Other frames write nothing. */
  lemma OtherWrites(p: Peer, v1: V1Frame)
    requires InboundSafety.Inv(p)
    requires match v1
             case Payload(Some(PayloadTransfer(Some(header), Some(chunk)))) => !header.ptype.FilePayload?
             case _ => true
    ensures I.OnV1(p, v1).p.disk == p.disk
  {
  }

  lemma FrameWrites(p: Peer, v1: V1Frame, id: int)
    requires InboundSafety.Inv(p)
    ensures var s, body := I.OnV1(p, v1), BodyFor(OfflineFrame(Some(v1)), id);
            || WrittenFor(s.p.disk, id) == WrittenFor(p.disk, id) + body
            || (WrittenFor(s.p.disk, id) == WrittenFor(p.disk, id) && s.r.Err?)
  {
    match v1 {
      case Payload(Some(PayloadTransfer(Some(header), Some(chunk)))) =>
        if header.ptype.FilePayload? {
          ChunkWrites(p, header, chunk, id);
        } else {
          OtherWrites(p, v1);
        }
      case _ => OtherWrites(p, v1);
    }
    assert WrittenFor(p.disk, id) + [] == WrittenFor(p.disk, id);
  }

  /** The disk after a step that brought these bytes for an id. */
  ghost predicate Wrote(before: Disk, s: Step, body: Bytes, id: int) {
    || WrittenFor(s.p.disk, id) == WrittenFor(before, id) + body
    || (WrittenFor(s.p.disk, id) == WrittenFor(before, id) && s.r.Err?)
  }

  lemma SecureWrites(p: Peer, wire: Bytes, v1: V1Frame, id: int)
    requires InboundSafety.Inv(p) && ReceiveSecure(p, wire) == Incoming(Counted(p), Ok, v1)
    ensures Wrote(p.disk, I.OnSecure(p, wire), BodyFor(OfflineFrame(Some(v1)), id), id)
  {
    InboundSafety.UnmovedInv(p, Counted(p));
    FrameWrites(Counted(p), v1, id);
  }

  /** The receiver at the j-th message. */
  lemma MessageWrites(mine: Peer, base: nat, p: Peer, j: nat, id: int)
    requires Sound(mine, base, p) && Genuine(mine, base, Arrives(j)) && p.st.clientSeq == j && InboundSafety.Inv(p)
    ensures Wrote(p.disk, I.Handle(p, Frame(mine.out[base + j])), BodyFor(mine.sent[j], id), id)
  {
    MessageRead(mine, base, p, j);
    InboundHandles(p, mine.out[base + j]);
    if mine.sent[j].v1.Some? {
      SecureWrites(p, mine.out[base + j], mine.sent[j].v1.value, id);
    }
  }

  /** What was written so far came from the messages before: after the step it comes from this one too. */
  lemma {:induction false} WroteOn(sent: seq<OfflineFrame>, before: Disk, s: Step, j: nat, id: int)
    requires j < |sent| && WrittenFor(before, id) == BytesFor(sent[..j], id)
    requires Wrote(before, s, BodyFor(sent[j], id), id)
    ensures WrittenFor(s.p.disk, id) <= BytesFor(sent[..j + 1], id)
    ensures s.r.Ok? ==> WrittenFor(s.p.disk, id) == BytesFor(sent[..j + 1], id)
  {
    assert sent[..j + 1] == sent[..j] + [sent[j]];
    BytesForOne(sent[..j], sent[j], id);
  }

  predicate NothingWritten(d: Disk) {
    forall id | id in d.written :: d.written[id] == []
  }

  lemma {:induction false} CreatingWrites(p: Peer, ids: seq<int>)
    requires NothingWritten(p.disk)
    ensures NothingWritten(I.CreateAll(p, ids).p.disk)
    decreases |ids|
  {
    if |ids| > 0 && ids[0] in p.st.files && !Broken(p) {
      CreatingWrites(I.Create(Spend(p), ids[0]), ids[1..]);
    }
  }

  lemma AcceptWrites(p: Peer, id: int)
    requires InboundSafety.Inv(p) && p.st.state.WaitingForUserConsent?
    ensures WrittenFor(I.AcceptTransfer(p).p.disk, id) == WrittenFor(p.disk, id) == []
  {
    CreatingWrites(p, p.env.tape.order(p.st.files.Keys));
  }

  /** What the user does writes no bytes. */
  lemma ActionWrites(p: Peer, own: string, action: ChannelAction, id: int)
    requires InboundSafety.Inv(p) && InboundSafety.Sensible(p, Front(own, action))
    ensures WrittenFor(I.Handle(p, Front(own, action)).p.disk, id) == WrittenFor(p.disk, id)
  {
    if own == p.env.id && action.AcceptTransfer? {
      AcceptWrites(p, id);
    }
  }

  // --- Together --------------------------------------------------------------------------------------------

  lemma {:induction false} PrefixOn(sent: seq<OfflineFrame>, j: nat, d: Disk, id: int)
    requires j <= |sent| && WrittenFor(d, id) <= BytesFor(sent[..j], id)
    ensures WrittenFor(d, id) <= BytesFor(sent, id)
  {
    BytesForPrefix(sent, j, id);
  }

  /** The receiver has written what was sent up to the messages it has read. */
  ghost predicate Abreast(mine: Peer, p: Peer, id: int) {
    && 0 <= p.st.clientSeq <= |mine.sent|
    && WrittenFor(p.disk, id) == BytesFor(mine.sent[..p.st.clientSeq], id)
  }

  /** After a step: what is written is the beginning of what was sent, and all of it up to the messages read as
      long as the receiver goes on. */
  ghost predicate KeepsUp(mine: Peer, s: Step, id: int) {
    WrittenFor(s.p.disk, id) <= BytesFor(mine.sent, id) && (s.r.Ok? ==> Abreast(mine, s.p, id))
  }

  lemma ReadKeepsUp(mine: Peer, p: Peer, j: nat, s: Step, id: int)
    requires j < |mine.sent| && Abreast(mine, p, id) && Reads(mine, p, j, s)
    requires j == p.st.clientSeq ==> Wrote(p.disk, s, BodyFor(mine.sent[j], id), id)
    ensures KeepsUp(mine, s, id)
  {
    if j == p.st.clientSeq {
      WroteOn(mine.sent, p.disk, s, j, id);
      PrefixOn(mine.sent, j + 1, s.p.disk, id);
    } else {
      PrefixOn(mine.sent, p.st.clientSeq, p.disk, id);
    }
  }

  lemma ActionKeepsUp(mine: Peer, p: Peer, s: Step, id: int)
    requires Abreast(mine, p, id) && s.p.st.clientSeq == p.st.clientSeq
    requires WrittenFor(s.p.disk, id) == WrittenFor(p.disk, id)
    ensures KeepsUp(mine, s, id)
  {
    PrefixOn(mine.sent, p.st.clientSeq, p.disk, id);
  }

  lemma MessageKeepsUp(mine: Peer, base: nat, p: Peer, j: nat, id: int)
    requires Sound(mine, base, p) && Genuine(mine, base, Arrives(j)) && InboundSafety.Inv(p) && Abreast(mine, p, id)
    ensures KeepsUp(mine, I.Handle(p, Frame(mine.out[base + j])), id)
  {
    ReceiverReads(mine, base, p, j);
    if j == p.st.clientSeq {
      MessageWrites(mine, base, p, j, id);
    }
    ReadKeepsUp(mine, p, j, I.Handle(p, Frame(mine.out[base + j])), id);
  }

  lemma FrontKeepsUp(mine: Peer, p: Peer, own: string, action: ChannelAction, id: int)
    requires InboundSafety.Inv(p) && InboundSafety.Sensible(p, Front(own, action)) && Rank(p.st.state) >= 4
    requires Abreast(mine, p, id)
    ensures KeepsUp(mine, I.Handle(p, Front(own, action)), id)
  {
    ActionWrites(p, own, action, id);
    ReceiverActs(p, own, action);
    ActionKeepsUp(mine, p, I.Handle(p, Front(own, action)), id);
  }

  // The receiver's states between events.
  ghost predicate Receiver(mine: Peer, base: nat, p: Peer) {
    Sound(mine, base, p) && InboundSafety.Inv(p) && InboundSafety.Grounded(p.env)
  }

  lemma ReadArrives(mine: Peer, base: nat, p: Peer, a: Arrival, id: int)
    requires Receiver(mine, base, p) && Genuine(mine, base, a) && a.Arrives? && Abreast(mine, p, id)
    ensures KeepsUp(mine, I.Handle(p, Deliver(mine, base, a)), id)
  {
    MessageKeepsUp(mine, base, p, a.j, id);
  }

  lemma ActionArrives(mine: Peer, base: nat, p: Peer, a: Arrival, id: int)
    requires Receiver(mine, base, p) && Genuine(mine, base, a) && a.Acts? && Abreast(mine, p, id)
    requires InboundSafety.Sensible(p, Deliver(mine, base, a))
    ensures KeepsUp(mine, I.Handle(p, Deliver(mine, base, a)), id)
  {
    FrontKeepsUp(mine, p, a.id, a.action, id);
  }

  lemma ArrivalKeepsUp(mine: Peer, base: nat, p: Peer, a: Arrival, id: int)
    requires Receiver(mine, base, p) && Genuine(mine, base, a)
    requires InboundSafety.Sensible(p, Deliver(mine, base, a)) && Abreast(mine, p, id)
    ensures KeepsUp(mine, I.Handle(p, Deliver(mine, base, a)), id)
  {
    if a.Arrives? {
      ReadArrives(mine, base, p, a, id);
    } else {
      ActionArrives(mine, base, p, a, id);
    }
  }

  lemma ArrivalGoesOn(mine: Peer, base: nat, p: Peer, a: Arrival)
    requires Receiver(mine, base, p) && Genuine(mine, base, a)
    requires InboundSafety.Sensible(p, Deliver(mine, base, a)) && I.Handle(p, Deliver(mine, base, a)).r.Ok?
    ensures Receiver(mine, base, I.Handle(p, Deliver(mine, base, a)).p)
  {
    ReceiverTurn(mine, base, p, a);
    InboundSafety.HandleSafe(p, Deliver(mine, base, a));
  }

  /** A handler that keeps up, from every good state to good states. */
  ghost predicate Copies(mine: Peer, base: nat, handle: Handler, good: Peer -> bool, id: int) {
    forall p: Peer, a: Arrival |
      good(p) && Genuine(mine, base, a) && InboundSafety.Sensible(p, Deliver(mine, base, a)) && Abreast(mine, p, id) ::
      var s := handle(p, Deliver(mine, base, a));
      KeepsUp(mine, s, id) && (s.r.Ok? ==> good(s.p))
  }

  ghost predicate SensibleGo(handle: Handler, p: Peer, events: seq<Event>)
    decreases |events|
  {
    |events| > 0 ==>
      && InboundSafety.Sensible(p, events[0])
      && (handle(p, events[0]).r.Ok? ==> SensibleGo(handle, handle(p, events[0]).p, events[1..]))
  }

  lemma {:induction false} CopyGoes(
    mine: Peer, base: nat, handle: Handler, good: Peer -> bool, p: Peer, arrivals: seq<Arrival>, id: int)
    requires Copies(mine, base, handle, good, id) && good(p) && AllGenuine(mine, base, arrivals)
    requires SensibleGo(handle, p, Events(mine, base, arrivals)) && Abreast(mine, p, id)
    ensures WrittenFor(Go(handle, p, Events(mine, base, arrivals)).p.disk, id) <= BytesFor(mine.sent, id)
    decreases |arrivals|
  {
    if |arrivals| == 0 {
      PrefixOn(mine.sent, p.st.clientSeq, p.disk, id);
    } else {
      var s := handle(p, Deliver(mine, base, arrivals[0]));
      assert KeepsUp(mine, s, id);
      if s.r.Ok? {
        CopyGoes(mine, base, handle, good, s.p, arrivals[1..], id);
      }
    }
  }

  lemma {:induction false} SensibleGoes(p: Peer, events: seq<Event>)
    requires InboundSafety.SensibleRun(p, events)
    ensures SensibleGo(I.Handle, p, events)
    decreases |events|
  {
    if |events| > 0 && I.Handle(p, events[0]).r.Ok? {
      SensibleGoes(I.Handle(p, events[0]).p, events[1..]);
    }
  }

  lemma ReceiverCopies(mine: Peer, base: nat, id: int)
    ensures Copies(mine, base, I.Handle, p => Receiver(mine, base, p), id)
  {
    forall p: Peer, a: Arrival |
      Receiver(mine, base, p) && Genuine(mine, base, a) && InboundSafety.Sensible(p, Deliver(mine, base, a))
      && Abreast(mine, p, id)
      ensures var s := I.Handle(p, Deliver(mine, base, a));
              KeepsUp(mine, s, id) && (s.r.Ok? ==> Receiver(mine, base, s.p))
    {
      ArrivalKeepsUp(mine, base, p, a, id);
      if I.Handle(p, Deliver(mine, base, a)).r.Ok? {
        ArrivalGoesOn(mine, base, p, a);
      }
    }
  }

  /** Whatever a network drops, repeats or reorders, whatever the user does and whichever write fails: what a
      receiver writes for an id is the beginning of what was sent for it. */
  lemma {:induction false} DeliveryWrites(mine: Peer, base: nat, p: Peer, arrivals: seq<Arrival>, id: int)
    requires Receiver(mine, base, p) && AllGenuine(mine, base, arrivals)
    requires InboundSafety.SensibleRun(p, Events(mine, base, arrivals)) && Abreast(mine, p, id)
    ensures WrittenFor(InboundSafety.Run(p, Events(mine, base, arrivals)).p.disk, id) <= BytesFor(mine.sent, id)
  {
    ReceiverCopies(mine, base, id);
    SensibleGoes(p, Events(mine, base, arrivals));
    CopyGoes(mine, base, I.Handle, q => Receiver(mine, base, q), p, arrivals, id);
    ReceiverGoes(p, Events(mine, base, arrivals));
  }

  /** End-to-end integrity. A sender that has its keys runs against any peer and any failing I/O; whatever is then
      made of its messages on the way, a receiver with the paired keys writes for each id the beginning of the
      file the sender offers under it, and nothing for an id that is not offered. */
  lemma {:induction false} WrittenIsOffered(
    p: Peer, head: seq<Bytes>, events: seq<Event>, yours: Peer, arrivals: seq<Arrival>, id: int)
    requires Fair(p, head, id) && OutboundSafety.Inv(p) && OutboundSafety.DistinctIds(p.env) && Rank(p.st.state) >= 3
    requires OutboundSafety.SensibleRun(p, events)
    requires var mine := OutboundSafety.Run(p, events).p;
             && Receiver(mine, |head|, yours) && AllGenuine(mine, |head|, arrivals)
             && InboundSafety.SensibleRun(yours, Events(mine, |head|, arrivals))
    requires yours.st.clientSeq == 0 && WrittenFor(yours.disk, id) == []
    ensures var mine := OutboundSafety.Run(p, events).p;
            WrittenFor(InboundSafety.Run(yours, Events(mine, |head|, arrivals)).p.disk, id) <= OfferOf(p.env, id)
  {
    RunEnds(p, head, events, id);
    OutboundSafety.RunSafe(p, events);
    DeliveryIsOffered(OutboundSafety.Run(p, events).p, |head|, yours, arrivals, id);
  }

  lemma {:induction false} DeliveryIsOffered(mine: Peer, base: nat, p: Peer, arrivals: seq<Arrival>, id: int)
    requires SentFor(mine, id) && Receiver(mine, base, p) && AllGenuine(mine, base, arrivals)
    requires InboundSafety.SensibleRun(p, Events(mine, base, arrivals))
    requires p.st.clientSeq == 0 && WrittenFor(p.disk, id) == []
    ensures WrittenFor(InboundSafety.Run(p, Events(mine, base, arrivals)).p.disk, id) <= OfferOf(mine.env, id)
  {
    assert mine.sent[..0] == [];
    DeliveryWrites(mine, base, p, arrivals, id);
    SentIsOffered(mine, id);
  }

  lemma {:induction false} SentIsOffered(p: Peer, id: int)
    requires SentFor(p, id)
    ensures BytesFor(p.sent, id) <= OfferOf(p.env, id)
  {
  }
}
