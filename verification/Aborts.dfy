/** When a session past the key exchange aborts: the exact events that make either side panic. */
module Aborts {
  import opened Wrappers
  import opened Messages
  import opened Libraries
  import opened SecureChannel
  import opened Peers
  import I = Inbound
  import O = Outbound
  import InboundSafety
  import OutboundSafety

  predicate Aborted(r: Outcome) {
    r.Err? && r.error.Panic?
  }

  /** A byte chunk that announces a negative size for a payload without a buffer: its buffer cannot be
      allocated. */
  predicate Unallocatable(p: Peer, header: PayloadHeader) {
    header.ptype.BytesPayload? && header.totalSize < 0 && header.id !in p.st.buffers
  }

  /** A file chunk with bytes, in sequence and within its announced size, for a file that was never created. */
  predicate Premature(p: Peer, header: PayloadHeader, chunk: PayloadChunk) {
    && header.ptype.FilePayload? && header.id in p.st.files && |chunk.body| > 0
    && var f := p.st.files[header.id];
       f.handle.None? && chunk.offset == f.transferred && f.transferred + |chunk.body| <= f.total
  }

  /** The chunk an event brings, if it is a message that opens, verifies and comes in its turn. */
  function ChunkIn(p: Peer, e: Event): Option<(PayloadHeader, PayloadChunk)> {
    if !e.Frame? || |e.wire| > SANE_FRAME_LENGTH then None
    else
      match ReceiveSecure(p, e.wire)
      case Incoming(_, Ok, Payload(Some(PayloadTransfer(Some(header), Some(chunk))))) => Some((header, chunk))
      case _ => None
  }

  lemma GatherAborts(p: Peer, header: PayloadHeader, chunk: PayloadChunk)
    requires header.ptype.BytesPayload?
    ensures var g := Gather(p, header, chunk);
            if Unallocatable(p, header) then g.r == Err(Panic(Overflow)) else !Aborted(g.r)
  {
  }

  // --- The receiver ------------------------------------------------------------------------------

  lemma AskingGoes(p: Peer, v1: ShareV1)
    requires p.keys.Some?
    ensures !Aborted(I.ProcessIntroduction(p, v1).r)
  {
  }

  lemma SetupGoes(p: Peer, v1: ShareV1)
    requires p.keys.Some?
    ensures !Aborted(I.OnSetupV1(p, v1).r)
  {
    if p.st.state.ReceivedPairedKeyResult? {
      AskingGoes(p, v1);
    }
  }

  lemma CompleteGoes(p: Peer, id: int, data: Bytes)
    requires p.keys.Some?
    ensures !Aborted(I.OnComplete(p, id, data).r)
  {
    match p.env.lib.decShare(data) {
      case Some(ShareFrame(Some(v1))) => SetupGoes(p, v1);
      case _ =>
    }
  }

  lemma BytesAbort(p: Peer, header: PayloadHeader, chunk: PayloadChunk)
    requires p.keys.Some? && header.ptype.BytesPayload?
    ensures var s := I.OnBytes(p, header, chunk);
            if Unallocatable(p, header) then s.r == Err(Panic(Overflow)) else !Aborted(s.r)
  {
    GatherAborts(p, header, chunk);
    var g := Gather(p, header, chunk);
    if g.complete.Some? {
      CompleteGoes(g.p, header.id, g.complete.value);
    }
  }

  lemma FileChunkAborts(p: Peer, header: PayloadHeader, chunk: PayloadChunk)
    requires p.keys.Some? && header.ptype.FilePayload?
    ensures var s := I.OnFileChunk(p, header, chunk);
            if Premature(p, header, chunk) then s.r == Err(Panic(NoOpenFile)) else !Aborted(s.r)
  {
  }

  lemma AcceptGoes(p: Peer)
    requires InboundSafety.Inv(p) && InboundSafety.Grounded(p.env) && p.st.state.WaitingForUserConsent?
    ensures !Aborted(I.AcceptTransfer(p).r)
  {
    InboundSafety.FilesOpen(p);
  }

  lemma ActionGoes(p: Peer, action: ChannelAction)
    requires InboundSafety.Inv(p) && InboundSafety.Grounded(p.env) && p.keys.Some?
    requires action.AcceptTransfer? ==> p.st.state.WaitingForUserConsent?
    ensures !Aborted(I.OnAction(p, action).r)
  {
    if action.AcceptTransfer? {
      AcceptGoes(p);
    }
  }

  /** What an event from the peer does to a receiver past the key exchange, as far as aborts go. */
  ghost predicate AbortsAs(p: Peer, chunk: Option<(PayloadHeader, PayloadChunk)>, r: Outcome) {
    match chunk
    case Some((header, body)) =>
      if Unallocatable(p, header) then r == Err(Panic(Overflow))
      else if Premature(p, header, body) then r == Err(Panic(NoOpenFile))
      else !Aborted(r)
    case None => !Aborted(r)
  }

  lemma SecureAborts(p: Peer, wire: Bytes)
    requires p.keys.Some? && Fits(wire)
    ensures AbortsAs(p, ChunkIn(p, Frame(wire)), I.OnSecure(p, wire).r)
  {
    var i := ReceiveSecure(p, wire);
    match i.frame {
      case Payload(Some(PayloadTransfer(Some(header), Some(chunk)))) =>
        if header.ptype.BytesPayload? {
          BytesAbort(i.p, header, chunk);
        } else if header.ptype.FilePayload? {
          FileChunkAborts(i.p, header, chunk);
        }
      case _ =>
    }
  }

  /** Past the key exchange a receiver aborts in two cases only, and in these it does: a byte chunk of negative
      size for a new payload, and a file chunk with bytes, in sequence and within bounds, before consent. */
  lemma ReceiverAborts(p: Peer, e: Event)
    requires InboundSafety.Inv(p) && InboundSafety.Grounded(p.env) && InboundSafety.Sensible(p, e)
    requires Rank(p.st.state) >= 4
    ensures AbortsAs(p, ChunkIn(p, e), I.Handle(p, e).r)
  {
    match e {
      case Frame(wire) =>
        if Fits(wire) {
          SecureAborts(p, wire);
        }
      case Front(id, action) =>
        if id == p.env.id {
          ActionGoes(p, action);
        }
      case Closed =>
    }
  }

  /** Such a file chunk can only come before consent. */
  lemma PrematureIsBeforeConsent(p: Peer, header: PayloadHeader, chunk: PayloadChunk)
    requires InboundSafety.Inv(p) && Premature(p, header, chunk)
    ensures p.st.state.WaitingForUserConsent? && chunk.offset == 0
  {
  }

  // --- The sender --------------------------------------------------------------------------------

  lemma ConsentGoes(p: Peer, v1: ShareV1)
    requires OutboundSafety.Inv(p) && p.st.state.SentIntroduction?
    ensures !Aborted(O.ProcessConsent(p, v1).r)
  {
    if v1.stype == ResponseType && v1.response == Some(Accept) {
      OutboundSafety.BeginLoop(p);
      var q := O.BeginSending(p);
      OutboundSafety.SendLoopSafe(q, p.env.tape.order(q.st.files.Keys));
    }
  }

  lemma SenderSetupGoes(p: Peer, v1: ShareV1)
    requires OutboundSafety.Inv(p) && p.keys.Some?
    ensures !Aborted(O.OnSetupV1(p, v1).r)
  {
    if p.st.state.SentIntroduction? {
      ConsentGoes(p, v1);
    }
  }

  lemma SenderCompleteGoes(p: Peer, data: Bytes)
    requires OutboundSafety.Inv(p) && p.keys.Some?
    ensures !Aborted(O.OnComplete(p, data).r)
  {
    match p.env.lib.decShare(data) {
      case Some(ShareFrame(Some(v1))) => SenderSetupGoes(p, v1);
      case _ =>
    }
  }

  lemma SenderBytesAbort(p: Peer, header: PayloadHeader, chunk: PayloadChunk)
    requires OutboundSafety.Inv(p) && p.keys.Some? && header.ptype.BytesPayload?
    ensures var s := O.OnBytes(p, header, chunk);
            if Unallocatable(p, header) then s.r == Err(Panic(Overflow)) else !Aborted(s.r)
  {
    GatherAborts(p, header, chunk);
    var g := Gather(p, header, chunk);
    OutboundSafety.UnmovedInv(p, g.p);
    if g.complete.Some? {
      SenderCompleteGoes(g.p, g.complete.value);
    }
  }

  /** A sender aborts in the first case only, and there it does. */
  ghost predicate SenderAbortsAs(p: Peer, chunk: Option<(PayloadHeader, PayloadChunk)>, r: Outcome) {
    if chunk.Some? && Unallocatable(p, chunk.value.0) then r == Err(Panic(Overflow)) else !Aborted(r)
  }

  lemma SenderSecureAborts(p: Peer, wire: Bytes)
    requires OutboundSafety.Inv(p) && p.keys.Some? && Fits(wire)
    ensures SenderAbortsAs(p, ChunkIn(p, Frame(wire)), O.OnSecure(p, wire).r)
  {
    var i := ReceiveSecure(p, wire);
    OutboundSafety.UnmovedInv(p, i.p);
    match i.frame {
      case Payload(Some(PayloadTransfer(Some(header), Some(chunk)))) =>
        if header.ptype.BytesPayload? {
          SenderBytesAbort(i.p, header, chunk);
        }
      case _ =>
    }
  }

  lemma SenderAborts(p: Peer, e: Event)
    requires OutboundSafety.Inv(p) && Rank(p.st.state) >= 4
    ensures SenderAbortsAs(p, ChunkIn(p, e), O.Handle(p, e).r)
  {
    if e.Frame? && Fits(e.wire) {
      SenderSecureAborts(p, e.wire);
    }
  }
}
