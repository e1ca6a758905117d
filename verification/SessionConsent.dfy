/** Consent when things may go wrong: until the user accepts, no file frame goes out, whoever cancels or declines and
    whatever fails on the way. */
module SessionConsent {
  import opened Wrappers
  import opened Messages
  import opened Libraries
  import opened SecureChannel
  import opened Peers
  import opened Histories
  import opened Reassembly
  import opened Sessions
  import opened ChannelOrder
  import opened Integrity
  import opened SessionDisruptions
  import SessionHandshake
  import I = Inbound
  import O = Outbound
  import InboundSafety
  import OutboundSafety

  const GOODBYE := OfflineFrame(Some(Disconnection))

  // --- What the receiver sends before the user has accepted ------------------------------------------

  function Ids(c: Plan): int -> int {
    c.rEnv.tape.payloadIds
  }

  /** An answer that is no acceptance. */
  ghost predicate Refusal(l: Library, body: Bytes) {
    exists status: ConsentStatus :: status != Accept && body == l.encShare(ResponseFrame(status))
  }

  /** One of the receiver's letters, by its payload id. */
  ghost predicate IsLetter(c: Plan, id: int, body: Bytes) {
    || (id == Ids(c)(0) && body == c.Lib().encShare(PairedKeyEncryptionFrame()))
    || (id == Ids(c)(2) && body == c.Lib().encShare(PairedKeyResultFrame()))
    || (id == Ids(c)(4) && Refusal(c.Lib(), body))
  }

  ghost predicate IsMail(c: Plan, f: OfflineFrame) {
    f == GOODBYE || exists id, body :: IsLetter(c, id, body) && (f == BodyChunk(id, body) || f == LastChunk(id, body))
  }

  ghost predicate AllMail(c: Plan, frames: seq<OfflineFrame>) {
    forall i | 0 <= i < |frames| :: IsMail(c, frames[i])
  }

  lemma MailOne(c: Plan, frames: seq<OfflineFrame>, f: OfflineFrame)
    requires AllMail(c, frames) && IsMail(c, f)
    ensures AllMail(c, frames + [f])
  {
  }

  /** The receiver's clear messages. */
  function Reply(c: Plan): (head: seq<Bytes>)
    ensures |head| == 2
  {
    [c.script.serverInit, c.script.accept]
  }

  /** The receiver's traffic is in order and holds nothing but such letters. */
  ghost predicate Mailing(c: Plan, r: Peer) {
    && r.env == c.rEnv && r.keys == Some(I.ServerKeys(c.script.schedule))
    && Lined(r, Reply(c)) && r.st.serverSeq == |r.sent| && AllMail(c, r.sent)
  }

  ghost predicate Posts(c: Plan, s: Step) {
    && s.p.env == c.rEnv && s.p.keys == Some(I.ServerKeys(c.script.schedule))
    && Lined(s.p, Reply(c)) && AllMail(c, s.p.sent)
    && (s.r.Ok? ==> s.p.st.serverSeq == |s.p.sent|)
  }

  /** How many secure messages the receiver has sent in each state, until the user acts. */
  ghost predicate InStep(r: Peer) {
    match r.st.state
    case SentConnectionResponse => r.st.serverSeq == 2
    case SentPairedKeyResult => r.st.serverSeq == 4
    case ReceivedPairedKeyResult => r.st.serverSeq == 4
    case WaitingForUserConsent => r.told != [] ==> r.st.serverSeq == 4
    case _ => Rank(r.st.state) >= 9
  }

  lemma FramePosts(c: Plan, r: Peer, f: OfflineFrame)
    requires Mailing(c, r) && IsMail(c, f)
    ensures Posts(c, EncryptAndSend(r, f)) && EncryptAndSend(r, f).p.told == r.told
    ensures EncryptAndSend(r, f).p.st.state == r.st.state
    ensures EncryptAndSend(r, f).r.Ok? ==> |EncryptAndSend(r, f).p.sent| == |r.sent| + 1
  {
    SentSealed(r, Reply(c), f);
    MailOne(c, r.sent, f);
  }

  lemma LetterPosts(c: Plan, r: Peer, frame: ShareFrame)
    requires Mailing(c, r) && IsLetter(c, Ids(c)(r.st.serverSeq), r.env.lib.encShare(frame))
    ensures var s := SendEncrypted(r, frame);
            && Posts(c, s) && s.p.told == r.told && s.p.st.state == r.st.state
            && (s.r.Ok? ==> s.p.st.serverSeq == r.st.serverSeq + 2)
  {
    var id, body := Ids(c)(r.st.serverSeq), r.env.lib.encShare(frame);
    FramePosts(c, r, BodyChunk(id, body));
    var s := EncryptAndSend(r, BodyChunk(id, body));
    if s.r.Ok? {
      FramePosts(c, s.p, LastChunk(id, body));
    }
  }

  /** q has the traffic of r. */
  ghost predicate Alike(r: Peer, q: Peer) {
    q.env == r.env && q.keys == r.keys && q.out == r.out && q.sent == r.sent && q.st.serverSeq == r.st.serverSeq
  }

  lemma AlikeMailing(c: Plan, r: Peer, q: Peer)
    requires Mailing(c, r) && Alike(r, q)
    ensures Mailing(c, q)
  {
  }

  lemma AlikePosts(c: Plan, r: Peer, s: Step)
    requires Mailing(c, r) && Alike(r, s.p)
    ensures Posts(c, s)
  {
  }

  lemma EndPosts(c: Plan, r: Peer, state: State)
    requires Mailing(c, r)
    ensures Posts(c, End(r, state)) && End(r, state).r.Err?
  {
    AlikeMailing(c, r, Enter(r, state, true));
    FramePosts(c, Enter(r, state, true), GOODBYE);
  }

  // --- The receiver's steps ----------------------------------------------------------------------------

  /** What a step before acceptance has to show. */
  ghost predicate Steady(c: Plan, s: Step) {
    Posts(c, s) && (s.r.Ok? ==> InStep(s.p))
  }

  lemma PairedSteady(c: Plan, r: Peer)
    requires Mailing(c, r) && InStep(r) && r.st.state.SentConnectionResponse? && c.rEnv.lib == c.sEnv.lib
    ensures var s := SendEncrypted(r, PairedKeyResultFrame());
            Steady(c, if s.r.Err? then s else Step(Enter(s.p, SentPairedKeyResult, false), Ok))
  {
    LetterPosts(c, r, PairedKeyResultFrame());
  }

  lemma RefusalIsLetter(c: Plan, status: ConsentStatus)
    requires status != Accept && c.rEnv.lib == c.sEnv.lib
    ensures IsLetter(c, Ids(c)(4), c.rEnv.lib.encShare(ResponseFrame(status)))
  {
  }

  /** Nothing was sent, and the user may have been asked. */
  lemma AskedSteady(c: Plan, r: Peer, s: Step)
    requires Mailing(c, r) && r.st.serverSeq == 4 && Alike(r, s.p) && s.p.st.state.WaitingForUserConsent?
    ensures Steady(c, s)
  {
    AlikePosts(c, r, s);
  }

  lemma AskingAlike(r: Peer, list: seq<FileMetadata>, id: int)
    requires r.st.state.WaitingForUserConsent?
    ensures var s := I.AskForFiles(r, list); Alike(r, s.p) && s.p.st.state.WaitingForUserConsent?
    ensures var s := I.AskForText(r, id); Alike(r, s.p) && s.p.st.state.WaitingForUserConsent?
  {
  }

  lemma UnsupportedSteady(c: Plan, r: Peer)
    requires Mailing(c, r) && r.st.serverSeq == 4 && c.rEnv.lib == c.sEnv.lib && r.told == []
    requires r.st.state.WaitingForUserConsent?
    ensures Steady(c, I.RejectTransfer(r, UnsupportedAttachmentType))
  {
    RefusalIsLetter(c, UnsupportedAttachmentType);
    LetterPosts(c, r, ResponseFrame(UnsupportedAttachmentType));
  }

  lemma IntroductionCases(r: Peer, v1: ShareV1)
    requires v1.introduction.Some?
    ensures var intro, s := v1.introduction.value, I.ProcessIntroduction(r, v1);
            var q := Enter(r, WaitingForUserConsent, false);
            || s == I.AskForFiles(q, intro.files)
            || (|intro.texts| > 0 && s == I.AskForText(q, intro.texts[0].payloadId))
            || (|intro.wifis| > 0 && s == I.AskForText(q, intro.wifis[0]))
            || s == I.RejectTransfer(q, UnsupportedAttachmentType)
  {
  }

  lemma IntroductionSteady(c: Plan, r: Peer, v1: ShareV1)
    requires Mailing(c, r) && r.st.serverSeq == 4 && c.rEnv.lib == c.sEnv.lib && r.told == []
    ensures Steady(c, I.ProcessIntroduction(r, v1))
  {
    if v1.introduction.None? {
      AlikePosts(c, r, I.ProcessIntroduction(r, v1));
    } else {
      var intro, q, s := v1.introduction.value, Enter(r, WaitingForUserConsent, false), I.ProcessIntroduction(r, v1);
      AlikeMailing(c, r, q);
      IntroductionCases(r, v1);
      if s == I.RejectTransfer(q, UnsupportedAttachmentType) {
        UnsupportedSteady(c, q);
      } else {
        var id := if |intro.texts| > 0 && s == I.AskForText(q, intro.texts[0].payloadId) then intro.texts[0].payloadId
                  else if |intro.wifis| > 0 then intro.wifis[0] else 0;
        AskingAlike(q, intro.files, id);
        AskedSteady(c, q, s);
      }
    }
  }

  lemma SetupSteady(c: Plan, r: Peer, v1: ShareV1)
    requires Mailing(c, r) && InStep(r) && InboundSafety.Inv(r) && c.rEnv.lib == c.sEnv.lib
    ensures Steady(c, I.OnSetupV1(r, v1))
  {
    match r.st.state {
      case SentConnectionResponse =>
        PairedSteady(c, r);
        AlikePosts(c, r, Fail(r, MissingField));
      case SentPairedKeyResult =>
        AlikePosts(c, r, I.OnSetupV1(r, v1));
      case ReceivedPairedKeyResult => IntroductionSteady(c, r, v1);
      case _ => AlikePosts(c, r, Step(r, Ok));
    }
  }

  lemma TextSteady(c: Plan, r: Peer, data: Bytes)
    requires Mailing(c, r)
    ensures Posts(c, I.OnText(r, data)) && I.OnText(r, data).r.Err?
  {
    var meta := match r.st.meta case None => None case Some(m) => Some(m.(text := Some(I.Cut(data))));
    var q := r.(st := r.st.(meta := meta));
    AlikeMailing(c, r, q);
    EndPosts(c, q, Finished);
    AlikePosts(c, r, Fail(r, Undecodable));
  }

  lemma CompleteSteady(c: Plan, r: Peer, id: int, data: Bytes)
    requires Mailing(c, r) && InStep(r) && InboundSafety.Inv(r) && c.rEnv.lib == c.sEnv.lib
    ensures Steady(c, I.OnComplete(r, id, data))
  {
    if r.st.text == Some(id) {
      TextSteady(c, r, data);
    } else {
      match r.env.lib.decShare(data) {
        case Some(ShareFrame(Some(v1))) =>
          if v1.stype.CancelType? {
            EndPosts(c, r, Cancelled);
          } else {
            SetupSteady(c, r, v1);
          }
        case _ => AlikePosts(c, r, I.OnComplete(r, id, data));
      }
    }
  }

  lemma BytesSteady(c: Plan, r: Peer, header: PayloadHeader, chunk: PayloadChunk)
    requires Mailing(c, r) && InStep(r) && InboundSafety.Inv(r) && c.rEnv.lib == c.sEnv.lib
    ensures Steady(c, I.OnBytes(r, header, chunk))
  {
    var g := Gather(r, header, chunk);
    AlikeMailing(c, r, g.p);
    AlikePosts(c, r, Step(g.p, g.r));
    InboundSafety.UnmovedInv(r, g.p);
    if g.complete.Some? {
      CompleteSteady(c, g.p, header.id, g.complete.value);
    }
  }

  /** A frame that is neither a keep-alive nor part of a file. */
  predicate Tame(f: OfflineFrame) {
    match f.v1
    case Some(KeepAlive(_)) => false
    case _ => !CarriesFile(f)
  }

  lemma FrameSteady(c: Plan, r: Peer, v1: V1Frame)
    requires Mailing(c, r) && InStep(r) && InboundSafety.Inv(r) && c.rEnv.lib == c.sEnv.lib
    requires Tame(OfflineFrame(Some(v1)))
    ensures Steady(c, I.OnV1(r, v1))
  {
    match v1 {
      case Payload(Some(PayloadTransfer(Some(header), Some(chunk)))) =>
        if header.ptype.BytesPayload? {
          BytesSteady(c, r, header, chunk);
        } else {
          AlikePosts(c, r, I.OnV1(r, v1));
        }
      case _ => AlikePosts(c, r, I.OnV1(r, v1));
    }
  }

  // --- What the sender makes of it -----------------------------------------------------------------------

  ghost predicate AllTame(frames: seq<OfflineFrame>) {
    forall i | 0 <= i < |frames| :: Tame(frames[i])
  }

  /** The sender has sent no part of a file, and is not about to. */
  ghost predicate Hushed(s: Peer) {
    AllTame(s.sent) && !s.st.state.SendingFiles? && !s.st.state.Finished?
  }

  lemma TameSent(s: Peer, f: OfflineFrame)
    requires Hushed(s) && Tame(f)
    ensures Hushed(EncryptAndSend(s, f).p)
  {
  }

  lemma LetterHushed(s: Peer, frame: ShareFrame)
    requires Hushed(s)
    ensures Hushed(SendEncrypted(s, frame).p)
  {
    var body, id := s.env.lib.encShare(frame), s.env.tape.payloadIds(s.st.serverSeq);
    TameSent(s, BodyChunk(id, body));
    var t := EncryptAndSend(s, BodyChunk(id, body));
    TameSent(t.p, LastChunk(id, body));
  }

  /** q is s in traffic, in no state of sending. */
  lemma MovedHushed(s: Peer, q: Peer)
    requires Hushed(s) && q.sent == s.sent && !q.st.state.SendingFiles? && !q.st.state.Finished?
    ensures Hushed(q)
  {
  }

  lemma EndHushed(s: Peer, state: State)
    requires Hushed(s) && !state.SendingFiles? && !state.Finished?
    ensures Hushed(End(s, state).p)
  {
    MovedHushed(s, Enter(s, state, true));
    TameSent(Enter(s, state, true), GOODBYE);
  }

  lemma SendThenHushed(s: Peer, frame: ShareFrame, state: State, inform: bool)
    requires Hushed(s) && !state.SendingFiles? && !state.Finished?
    ensures Hushed(SendThen(s, frame, state, inform).p)
  {
    LetterHushed(s, frame);
    var t := SendEncrypted(s, frame);
    MovedHushed(t.p, Enter(t.p, state, inform));
  }

  lemma OfferHushed(s: Peer, v1: ShareV1)
    requires Hushed(s)
    ensures Hushed(O.OnPairedKeyResult(s, v1).p)
  {
    Integrity.OfferCases(s, v1);
    MovedHushed(s, OutboundSafety.Listed(s));
    SendThenHushed(OutboundSafety.Listed(s), IntroductionFrame(Offer(s.env).list), SentIntroduction, true);
  }

  lemma RefusalHushed(s: Peer, v1: ShareV1)
    requires Hushed(s) && O.FilesOk(s.st.files)
    requires v1.stype != ResponseType || v1.response != Some(Accept)
    ensures Hushed(O.ProcessConsent(s, v1).p)
  {
    EndHushed(s, Disconnected);
  }

  /** A sharing frame that is no acceptance: no part of a file goes out. */
  lemma SetupHushed(s: Peer, frame: ShareFrame)
    requires Hushed(s) && O.FilesOk(s.st.files)
    requires s.st.state.SentIntroduction? ==> !O.IsAcceptance(Some(frame))
    ensures Hushed(O.OnSetup(s, frame).p)
  {
    if frame.v1.Some? {
      var v1 := frame.v1.value;
      if v1.stype.CancelType? {
        EndHushed(s, Cancelled);
      } else {
        Integrity.SetupCases(s, v1);
        match s.st.state {
          case SentPairedKeyEncryption => SendThenHushed(s, PairedKeyResultFrame(), SentPairedKeyResult, false);
          case SentPairedKeyResult => OfferHushed(s, v1);
          case SentIntroduction => RefusalHushed(s, v1);
          case _ =>
        }
      }
    }
  }

  /** The buffers hold the receiver's letters. */
  ghost predicate Letters(c: Plan, buffers: map<int, Bytes>) {
    forall id | id in buffers :: IsLetter(c, id, buffers[id])
  }

  /** A chunk of a letter leaves letters in the buffers, and completes a letter. */
  lemma LetterGathered(c: Plan, s: Peer, id: int, body: Bytes, f: OfflineFrame)
    requires Letters(c, s.st.buffers) && IsLetter(c, id, body) && (f == BodyChunk(id, body) || f == LastChunk(id, body))
    ensures var t := f.v1.value.transfer.value;
            var g := Gather(s, t.header.value, t.chunk.value);
            && (g.r.Ok? ==> Letters(c, g.p.st.buffers))
            && (g.complete.Some? ==> IsLetter(c, id, g.complete.value))
  {
    var t := f.v1.value.transfer.value;
    var buffer := if id in s.st.buffers then s.st.buffers[id] else [];
    assert buffer + [] == buffer && [] + body == body;
  }

  lemma LetterIsNoAcceptance(c: Plan, id: int, data: Bytes)
    requires LawfulCodecs(c.Lib()) && IsLetter(c, id, data)
    ensures c.Lib().decShare(data).Some? && !O.IsAcceptance(c.Lib().decShare(data))
  {
    var l := c.Lib();
    assert l.decShare(l.encShare(PairedKeyEncryptionFrame())) == Some(PairedKeyEncryptionFrame());
    assert l.decShare(l.encShare(PairedKeyResultFrame())) == Some(PairedKeyResultFrame());
    forall status: ConsentStatus
      ensures l.decShare(l.encShare(ResponseFrame(status))) == Some(ResponseFrame(status))
    {
    }
  }

  /** A frame of the receiver's mail reaches the sender. */
  ghost predicate Undisturbed(c: Plan, s: Peer, t: Step) {
    Hushed(t.p) && (t.r.Ok? ==> Letters(c, t.p.st.buffers))
  }

  lemma ChunkUndisturbed(c: Plan, s: Peer, id: int, body: Bytes, f: OfflineFrame)
    requires LawfulCodecs(c.Lib()) && s.env.lib == c.Lib()
    requires Hushed(s) && OutboundSafety.Inv(s) && Rank(s.st.state) >= 4 && Letters(c, s.st.buffers)
    requires IsLetter(c, id, body) && (f == BodyChunk(id, body) || f == LastChunk(id, body))
    ensures Undisturbed(c, s, O.OnV1(s, f.v1.value))
  {
    var t := f.v1.value.transfer.value;
    var g := Gather(s, t.header.value, t.chunk.value);
    LetterGathered(c, s, id, body, f);
    MovedHushed(s, g.p);
    SenderFrameKeeps(s, f.v1.value);
    if g.complete.Some? {
      LetterIsNoAcceptance(c, id, g.complete.value);
      SetupHushed(g.p, c.Lib().decShare(g.complete.value).value);
    }
  }

  lemma MailUndisturbed(c: Plan, s: Peer, f: OfflineFrame)
    requires LawfulCodecs(c.Lib()) && s.env.lib == c.Lib()
    requires Hushed(s) && OutboundSafety.Inv(s) && Rank(s.st.state) >= 4 && Letters(c, s.st.buffers)
    requires IsMail(c, f)
    ensures f.v1.Some? && Undisturbed(c, s, O.OnV1(s, f.v1.value))
  {
    if f != GOODBYE {
      var id, body :| IsLetter(c, id, body) && (f == BodyChunk(id, body) || f == LastChunk(id, body));
      ChunkUndisturbed(c, s, id, body, f);
    }
  }

  /** And it does not put the sender into its loops. */
  lemma MailIsNoConsent(c: Plan, s: Peer, wire: Bytes, f: OfflineFrame)
    requires LawfulCodecs(c.Lib()) && s.env.lib == c.Lib() && Letters(c, s.st.buffers)
    requires IsMail(c, f) && f.v1.Some? && ReceiveSecure(s, wire) == Incoming(Counted(s), Ok, f.v1.value)
    ensures O.Consented(s, wire).None?
  {
    if f != GOODBYE {
      var id, body :| IsLetter(c, id, body) && (f == BodyChunk(id, body) || f == LastChunk(id, body));
      LetterGathered(c, Counted(s), id, body, f);
      var t := f.v1.value.transfer.value;
      var g := Gather(Counted(s), t.header.value, t.chunk.value);
      if g.complete.Some? {
        LetterIsNoAcceptance(c, id, g.complete.value);
      }
    }
  }

  // --- The invariant -------------------------------------------------------------------------------------

  ghost predicate ReceiverHush(c: Plan, r: Peer, end: Outcome) {
    && AllMail(c, r.sent) && r.disk == Disk(c.names, map[], map[]) && InboundSafety.Unclaimed(r.st.files, c.names)
    && (if r.sent == [] then |r.out| <= 2 else Lined(r, Reply(c)) && r.keys == Some(I.ServerKeys(c.script.schedule)))
    && (end.Ok? ==> if Rank(r.st.state) < 4 then r.sent == [] && r.st.serverSeq == 0 else Mailing(c, r) && InStep(r))
  }

  ghost predicate SenderHush(c: Plan, s: Peer, end: Outcome, n: nat) {
    && Hushed(s)
    && (end.Ok? ==>
          && Letters(c, s.st.buffers)
          && if n < 2 then s.st.clientSeq == 0 && (n == 1 ==> s.st.state.SentUkeyClientFinish?)
             else Rank(s.st.state) >= 4 && s.st.clientSeq == n - 2)
  }

  /** Until the user accepts. */
  ghost predicate Unasked(c: Plan, x: Sys) {
    !x.accepted ==> x.job.None? && SenderHush(c, x.s, x.sEnd, x.sRead) && ReceiverHush(c, x.r, x.rEnd)
  }

  lemma OpeningHush(c: Plan, io: Option<nat>)
    ensures var s := OutboundSafety.Opened(c.sEnv, io); SenderHush(c, s.p, s.r, 0)
  {
  }

  lemma StartUnasked(c: Plan, sIo: Option<nat>, rIo: Option<nat>)
    ensures Unasked(c, Start(c.Sides(), sIo, rIo))
  {
    OpeningHush(c, sIo);
  }

  // --- The receiver's clear messages -----------------------------------------------------------------------

  /** Nothing secure was sent, and at most the two clear messages. */
  ghost predicate Barely(r: Peer, s: Step) {
    && s.p.sent == r.sent && s.p.st.serverSeq == r.st.serverSeq && |s.p.out| <= |r.out| + 1
    && (s.r.Ok? ==> Rank(s.p.st.state) < 4)
  }

  lemma RequestBarely(r: Peer, wire: Bytes)
    ensures Barely(r, I.OnConnectionRequest(r, wire))
  {
  }

  /** At most one clear message goes out. */
  ghost predicate Spoke(r: Peer, q: Peer) {
    q.sent == r.sent && q.st.serverSeq == r.st.serverSeq && |q.out| <= |r.out| + 1
  }

  lemma InitSpoke(r: Peer, m: Ukey2Message)
    ensures Spoke(r, I.ProcessClientInit(r, m).p)
  {
  }

  lemma InitBarely(r: Peer, wire: Bytes)
    ensures Barely(r, I.OnClientInit(r, wire))
  {
    match r.env.lib.decUkey(wire) {
      case None =>
      case Some(m) => InitSpoke(r, m);
    }
  }

  lemma FinishSpoke(r: Peer, m: Ukey2Message, wire: Bytes)
    ensures Spoke(r, I.ProcessClientFinish(r, m, wire).p)
  {
  }

  lemma FinishBarely(r: Peer, wire: Bytes)
    ensures Barely(r, I.OnClientFinish(r, wire))
  {
    match r.env.lib.decUkey(wire) {
      case None =>
      case Some(m) => FinishSpoke(r, m, wire);
    }
  }

  lemma FirstLetterSteady(c: Plan, r: Peer)
    requires Mailing(c, r) && r.st.serverSeq == 0 && c.rEnv.lib == c.sEnv.lib
    ensures Steady(c, InboundSafety.SendAndEnter(r, PairedKeyEncryptionFrame(), SentConnectionResponse))
  {
    LetterPosts(c, r, PairedKeyEncryptionFrame());
  }

  lemma AnsweredMailing(c: Plan, r: Peer)
    requires Drafted(c) && ReceiverClean(c, r, Ok, 3) && r.sent == [] && r.st.serverSeq == 0
    ensures var s := SendOffline(r, I.ACCEPT_CONNECTION);
            if s.r.Err? then s.p == r else Mailing(c, s.p) && s.p.st.serverSeq == 0
  {
    var s := SendOffline(r, I.ACCEPT_CONNECTION);
    if s.r.Ok? {
      assert Wires(s.p.env, s.p.keys.value, []) == [] && Reply(c) + [] == Reply(c);
      assert s.p.out == Reply(c);
    }
  }

  /** The first of the receiver's letters. */
  lemma RespondHush(c: Plan, r: Peer)
    requires Drafted(c) && ReceiverClean(c, r, Ok, 3) && r.sent == [] && r.st.serverSeq == 0
    ensures var s := InboundSafety.Respond(r); Steady(c, s) || s == Step(r, Err(Io))
  {
    AnsweredMailing(c, r);
    var s := SendOffline(r, I.ACCEPT_CONNECTION);
    if s.r.Ok? {
      FirstLetterSteady(c, s.p);
    }
  }

  lemma ResponseHush(c: Plan, r: Peer, wire: Bytes)
    requires Drafted(c) && ReceiverClean(c, r, Ok, 3) && r.sent == [] && r.st.serverSeq == 0
    ensures var s := I.OnConnectionResponse(r, wire); Steady(c, s) || (s.p == r && s.r.Err?)
  {
    InboundSafety.ResponseCases(r, wire);
    RespondHush(c, r);
  }

  lemma SteadyHush(c: Plan, s: Step)
    requires Steady(c, s) && s.p.disk == Disk(c.names, map[], map[]) && InboundSafety.Unclaimed(s.p.st.files, c.names)
    ensures ReceiverHush(c, s.p, s.r)
  {
  }

  lemma BarelyHush(c: Plan, r: Peer, s: Step)
    requires Barely(r, s) && r.sent == [] && r.st.serverSeq == 0 && |r.out| <= 1
    requires s.p.disk == Disk(c.names, map[], map[]) && InboundSafety.Unclaimed(s.p.st.files, c.names)
    ensures ReceiverHush(c, s.p, s.r)
  {
  }

  lemma ClearHush(c: Plan, r: Peer, n: nat, wire: Bytes)
    requires Drafted(c) && n < 4 && ReceiverClean(c, r, Ok, n) && ReceiverHush(c, r, Ok)
    ensures var s := I.Handle(r, Frame(wire)); ReceiverHush(c, s.p, s.r)
  {
    var s := I.Handle(r, Frame(wire));
    ClearHandled(r, wire);
    InboundSafety.HandleWritesNothing(r, Frame(wire));
    if !Fits(wire) {
    } else if n == 0 {
      RequestBarely(r, wire);
      BarelyHush(c, r, s);
    } else if n == 1 {
      InitBarely(r, wire);
      BarelyHush(c, r, s);
    } else if n == 2 {
      FinishBarely(r, wire);
      BarelyHush(c, r, s);
    } else {
      ResponseClean(c, r, wire);
      ResponseHush(c, r, wire);
      if Steady(c, s) {
        SteadyHush(c, s);
      }
    }
  }

  // --- The receiver's secure messages ------------------------------------------------------------------------

  lemma ReadHush(c: Plan, r: Peer, wire: Bytes, v1: V1Frame)
    requires c.rEnv.lib == c.sEnv.lib && ReceiverHush(c, r, Ok) && Rank(r.st.state) >= 4 && InboundSafety.Inv(r)
    requires ReceiveSecure(r, wire) == Incoming(Counted(r), Ok, v1) && Tame(OfflineFrame(Some(v1)))
    ensures Steady(c, I.OnSecure(r, wire))
  {
    AlikeMailing(c, r, Counted(r));
    InboundSafety.UnmovedInv(r, Counted(r));
    FrameSteady(c, Counted(r), v1);
  }

  /** The next message as this frame. */
  function Reading(p: Peer, f: OfflineFrame): Incoming {
    match f.v1
    case None => Incoming(Counted(p), Err(Refused(MissingField)), OtherV1)
    case Some(v1) => Incoming(Counted(p), Ok, v1)
  }

  lemma SoundReads(mine: Peer, base: nat, yours: Peer, j: nat)
    requires Sound(mine, base, yours) && j < |mine.sent| && yours.st.clientSeq == j
    ensures ReceiveSecure(yours, mine.out[base + j]) == Reading(yours, mine.sent[j])
  {
    MessageRead(mine, base, yours, j);
  }

  lemma RefusedSteady(c: Plan, r: Peer, wire: Bytes, e: Failure)
    requires Mailing(c, r) && ReceiveSecure(r, wire) == Incoming(Counted(r), Err(e), OtherV1)
    ensures Steady(c, I.OnSecure(r, wire))
  {
    AlikePosts(c, r, I.OnSecure(r, wire));
  }

  lemma SecureSteady(c: Plan, r: Peer, wire: Bytes, f: OfflineFrame)
    requires c.rEnv.lib == c.sEnv.lib && ReceiverHush(c, r, Ok) && Rank(r.st.state) >= 4 && InboundSafety.Inv(r)
    requires ReceiveSecure(r, wire) == Reading(r, f) && Tame(f)
    ensures Steady(c, I.OnSecure(r, wire))
  {
    if f.v1.Some? {
      ReadHush(c, r, wire, f.v1.value);
    } else {
      RefusedSteady(c, r, wire, Refused(MissingField));
    }
  }

  lemma SecureHush(c: Plan, r: Peer, wire: Bytes, f: OfflineFrame)
    requires c.rEnv.lib == c.sEnv.lib && ReceiverHush(c, r, Ok) && Rank(r.st.state) >= 4 && InboundSafety.Inv(r)
    requires ReceiveSecure(r, wire) == Reading(r, f) && Tame(f)
    ensures var t := I.Handle(r, Frame(wire)); ReceiverHush(c, t.p, t.r)
  {
    var t := I.Handle(r, Frame(wire));
    InboundSafety.HandleWritesNothing(r, Frame(wire));
    if Fits(wire) {
      InboundHandles(r, wire);
      SecureSteady(c, r, wire, f);
    } else {
      AlikePosts(c, r, t);
    }
    SteadyHush(c, t);
  }

  lemma Listening(c: Plan, r: Peer, n: nat)
    requires ReceiverClean(c, r, Ok, n) && n >= 4
    ensures Rank(r.st.state) >= 4 && r.st.clientSeq == n - 4
  {
  }

  /** From the fifth message on, the receiver reads the sender's secure ones. */
  lemma SecureForth(s: Peer, r: Peer, n: nat)
    requires Sound(s, 4, r) && 4 <= n && n - 4 < |s.sent| && r.st.clientSeq == n - 4
    ensures ReceiveSecure(r, s.out[n]) == Reading(r, s.sent[n - 4])
  {
    SoundReads(s, 4, r, n - 4);
  }

  lemma QuietReceiver(c: Plan, x: Sys)
    requires Sane(c, x) && Unasked(c, x) && !x.accepted && x.rEnd.Ok?
    ensures ReceiverClean(c, x.r, Ok, x.rRead) && ReceiverHush(c, x.r, Ok) && InboundSafety.Inv(x.r)
    ensures SenderWrote(c, x.s, x.sEnd) && x.s.env == c.sEnv && AllTame(x.s.sent)
  {
  }

  lemma ReceiverReadsHush(c: Plan, x: Sys)
    requires Drafted(c) && Sane(c, x) && Unasked(c, x) && !x.accepted && x.rEnd.Ok? && x.rRead < |x.s.out|
    ensures var t := I.Handle(x.r, Frame(x.s.out[x.rRead])); ReceiverHush(c, t.p, t.r)
  {
    QuietReceiver(c, x);
    ReceiverTakesHush(c, x.s, x.sEnd, x.r, x.rRead);
  }

  lemma ReceiverTakesHush(c: Plan, s: Peer, end: Outcome, r: Peer, n: nat)
    requires Drafted(c) && ReceiverClean(c, r, Ok, n) && ReceiverHush(c, r, Ok) && InboundSafety.Inv(r)
    requires SenderWrote(c, s, end) && s.env == c.sEnv && AllTame(s.sent) && n < |s.out|
    ensures var t := I.Handle(r, Frame(s.out[n])); ReceiverHush(c, t.p, t.r)
  {
    if n < 4 {
      ClearHush(c, r, n, s.out[n]);
    } else {
      Secure(c, s, end, r, n);
      Listening(c, r, n);
      SecureForth(s, r, n);
      SecureHush(c, r, s.out[n], s.sent[n - 4]);
    }
  }

  lemma AskedState(c: Plan, r: Peer)
    requires ReceiverHush(c, r, Ok) && InboundSafety.Inv(r) && r.told != []
    ensures r.st.state.WaitingForUserConsent? && r.st.serverSeq == 4 && Mailing(c, r)
  {
  }

  lemma DeclinePosts(c: Plan, r: Peer)
    requires Mailing(c, r) && r.st.serverSeq == 4 && c.rEnv.lib == c.sEnv.lib
    ensures Posts(c, I.OnAction(r, RejectTransfer)) && I.OnAction(r, RejectTransfer).r.Err?
  {
    var q := Enter(r, Rejected, true);
    AlikeMailing(c, r, q);
    RefusalIsLetter(c, Reject);
    LetterPosts(c, q, ResponseFrame(Reject));
  }

  lemma DeclineHush(c: Plan, r: Peer, action: ChannelAction)
    requires c.rEnv.lib == c.sEnv.lib && ReceiverHush(c, r, Ok) && InboundSafety.Inv(r)
    requires r.told != [] && !action.AcceptTransfer?
    ensures var t := I.Handle(r, Front(r.env.id, action)); ReceiverHush(c, t.p, t.r)
  {
    var t := I.Handle(r, Front(r.env.id, action));
    AskedState(c, r);
    InboundSafety.HandleWritesNothing(r, Front(r.env.id, action));
    if action.RejectTransfer? {
      DeclinePosts(c, r);
    } else {
      EndPosts(c, r, Cancelled);
    }
    SteadyHush(c, t);
  }

  // --- The sender's messages -----------------------------------------------------------------------------------

  lemma InitHush(c: Plan, s: Peer, wire: Bytes)
    requires SenderHush(c, s, Ok, 0) && s.st.state.SentUkeyClientInit? && O.FilesOk(s.st.files)
    ensures var t := O.Handle(s, Frame(wire)); SenderHush(c, t.p, t.r, 1)
  {
    InitHandled(s, wire);
    InitEffect(s, wire);
    MovedHushed(s, O.OnServerInit(s, wire).p);
  }

  lemma InitEffect(s: Peer, wire: Bytes)
    requires s.st.state.SentUkeyClientInit?
    ensures var t := O.OnServerInit(s, wire);
            && t.p.sent == s.sent && t.p.st.buffers == s.st.buffers && t.p.st.clientSeq == s.st.clientSeq
            && t.p.st.state == if t.r.Ok? then SentUkeyClientFinish else SentUkeyClientInit
  {
  }

  lemma ResponseEffects(s: Peer, wire: Bytes)
    ensures var t := O.OnConnectionResponse(s, wire);
            && t.p.st.buffers == s.st.buffers && t.p.st.clientSeq == s.st.clientSeq
            && (t.r.Ok? ==> t.p.st.state.SentPairedKeyEncryption?)
  {
  }

  lemma ResponseQuiet(s: Peer, wire: Bytes)
    requires Hushed(s)
    ensures Hushed(O.OnConnectionResponse(s, wire).p)
  {
    Integrity.ResponseCases(s, wire);
    SendThenHushed(s, PairedKeyEncryptionFrame(), SentPairedKeyEncryption, false);
    var t := SendThen(s, PairedKeyEncryptionFrame(), SentPairedKeyEncryption, false);
    MovedHushed(t.p, Responded(t, wire).p);
  }

  lemma SecondHush(c: Plan, s: Peer, wire: Bytes)
    requires SenderHush(c, s, Ok, 1) && O.FilesOk(s.st.files)
    ensures var t := O.Handle(s, Frame(wire)); SenderHush(c, t.p, t.r, 2)
  {
    Integrity.WireCases(s, wire);
    ResponseQuiet(s, wire);
    ResponseEffects(s, wire);
  }

  lemma MailHeard(c: Plan, s: Peer, wire: Bytes, f: OfflineFrame, n: nat)
    requires LawfulCodecs(c.Lib()) && SenderHush(c, s, Ok, n) && OutboundSafety.Inv(s) && s.env == c.sEnv && n >= 2
    requires IsMail(c, f) && f.v1.Some? && ReceiveSecure(s, wire) == Incoming(Counted(s), Ok, f.v1.value)
    ensures var t := O.OnSecure(s, wire); SenderHush(c, t.p, t.r, n + 1)
  {
    MovedHushed(s, Counted(s));
    OutboundSafety.UnmovedInv(s, Counted(s));
    MailUndisturbed(c, Counted(s), f);
    SenderFrameKeeps(Counted(s), f.v1.value);
  }

  lemma MailIsFramed(c: Plan, f: OfflineFrame)
    requires IsMail(c, f)
    ensures f.v1.Some?
  {
  }

  lemma MailHush(c: Plan, s: Peer, wire: Bytes, f: OfflineFrame, n: nat)
    requires LawfulCodecs(c.Lib()) && SenderHush(c, s, Ok, n) && OutboundSafety.Inv(s) && s.env == c.sEnv && n >= 2
    requires IsMail(c, f) && ReceiveSecure(s, wire) == Reading(s, f)
    ensures O.Consented(s, wire).None?
    ensures var t := O.Handle(s, Frame(wire)); SenderHush(c, t.p, t.r, n + 1)
  {
    MailIsFramed(c, f);
    MailIsNoConsent(c, s, wire, f);
    if Fits(wire) {
      OutboundHandles(s, wire);
      MailHeard(c, s, wire, f, n);
    }
  }

  lemma SoundBack(c: Plan, s: Peer, r: Peer)
    requires HonestChannel(c.sEnv, c.rEnv) && s.env == c.sEnv && r.env == c.rEnv && Rank(s.st.state) >= 4
    requires s.keys == Some(O.ClientKeys(c.script.schedule))
    requires Lined(r, Reply(c)) && r.keys == Some(I.ServerKeys(c.script.schedule))
    ensures Sound(r, 2, s) && |r.out| == 2 + |r.sent|
  {
    LinedSealed(r, Reply(c));
  }

  lemma BackReads(c: Plan, s: Peer, r: Peer, n: nat)
    requires HonestChannel(c.sEnv, c.rEnv) && s.env == c.sEnv && r.env == c.rEnv && Rank(s.st.state) >= 4
    requires s.keys == Some(O.ClientKeys(c.script.schedule))
    requires Lined(r, Reply(c)) && r.keys == Some(I.ServerKeys(c.script.schedule))
    requires 2 <= n < |r.out| && s.st.clientSeq == n - 2
    ensures n - 2 < |r.sent| && ReceiveSecure(s, r.out[n]) == Reading(s, r.sent[n - 2])
  {
    SoundBack(c, s, r);
    SoundReads(r, 2, s, n - 2);
  }

  lemma MailingReceiver(c: Plan, r: Peer, end: Outcome, n: nat)
    requires ReceiverHush(c, r, end) && 2 <= n < |r.out|
    ensures Lined(r, Reply(c)) && r.keys == Some(I.ServerKeys(c.script.schedule))
  {
  }

  lemma ListeningSender(c: Plan, s: Peer, n: nat)
    requires SenderClean(c, s, Ok, n) && SenderHush(c, s, Ok, n) && n >= 2
    ensures s.env == c.sEnv && s.keys == Some(O.ClientKeys(c.script.schedule))
    ensures Rank(s.st.state) >= 4 && s.st.clientSeq == n - 2
  {
  }

  /** From the third message on, the sender reads the receiver's secure ones. */
  lemma SecureBack(c: Plan, s: Peer, r: Peer, end: Outcome, n: nat)
    requires HonestChannel(c.sEnv, c.rEnv) && SenderClean(c, s, Ok, n) && SenderHush(c, s, Ok, n)
    requires r.env == c.rEnv && ReceiverHush(c, r, end) && 2 <= n < |r.out|
    ensures n - 2 < |r.sent| && ReceiveSecure(s, r.out[n]) == Reading(s, r.sent[n - 2])
  {
    ListeningSender(c, s, n);
    MailingReceiver(c, r, end, n);
    BackReads(c, s, r, n);
  }

  lemma SenderSecureHush(c: Plan, s: Peer, r: Peer, end: Outcome, n: nat)
    requires Drafted(c) && SenderClean(c, s, Ok, n) && SenderHush(c, s, Ok, n) && OutboundSafety.Inv(s)
    requires r.env == c.rEnv && ReceiverHush(c, r, end) && 2 <= n < |r.out|
    ensures O.Consented(s, r.out[n]).None?
    ensures var t := O.Handle(s, Frame(r.out[n])); SenderHush(c, t.p, t.r, n + 1)
  {
    SecureBack(c, s, r, end, n);
    assert IsMail(c, r.sent[n - 2]);
    MailHush(c, s, r.out[n], r.sent[n - 2], n);
  }

  /** Each side of a pair of which the receiving user has not accepted. */
  lemma QuietSides(c: Plan, x: Sys)
    requires Sane(c, x) && Unasked(c, x) && !x.accepted && Enabled(x, ToSender)
    ensures SenderClean(c, x.s, Ok, x.sRead) && SenderHush(c, x.s, Ok, x.sRead) && OutboundSafety.Inv(x.s)
    ensures x.r.env == c.rEnv && ReceiverHush(c, x.r, x.rEnd)
  {
  }

  lemma SenderClearHush(c: Plan, s: Peer, n: nat, wire: Bytes)
    requires SenderClean(c, s, Ok, n) && SenderHush(c, s, Ok, n) && O.FilesOk(s.st.files) && n < 2
    ensures O.Consented(s, wire).None?
    ensures var t := O.Handle(s, Frame(wire)); SenderHush(c, t.p, t.r, n + 1)
  {
    NotAskedYet(s, wire);
    if n == 0 {
      InitHush(c, s, wire);
    } else {
      SecondHush(c, s, wire);
    }
  }

  lemma SenderReadsHush(c: Plan, x: Sys)
    requires Drafted(c) && Sane(c, x) && Unasked(c, x) && !x.accepted && Enabled(x, ToSender)
    ensures O.Consented(x.s, x.r.out[x.sRead]).None? && O.FilesOk(x.s.st.files)
    ensures var t := O.Handle(x.s, Frame(x.r.out[x.sRead])); SenderHush(c, t.p, t.r, x.sRead + 1)
  {
    FilesFine(x);
    QuietSides(c, x);
    if x.sRead < 2 {
      SenderClearHush(c, x.s, x.sRead, x.r.out[x.sRead]);
    } else {
      SenderSecureHush(c, x.s, x.r, x.rEnd, x.sRead);
    }
  }

  lemma ReceiverTookUnasked(c: Plan, x: Sys, y: Sys)
    requires Unasked(c, x) && y == x.(r := y.r, rEnd := y.rEnd, rRead := y.rRead)
    requires !x.accepted ==> ReceiverHush(c, y.r, y.rEnd)
    ensures Unasked(c, y)
  {
  }

  lemma SenderTookUnasked(c: Plan, x: Sys, y: Sys)
    requires Unasked(c, x) && y == x.(s := y.s, sEnd := y.sEnd, sRead := y.sRead, job := y.job)
    requires !x.accepted ==> y.job.None? && SenderHush(c, y.s, y.sEnd, y.sRead)
    ensures Unasked(c, y)
  {
  }

  lemma ToReceiverUnasked(c: Plan, x: Sys)
    requires Drafted(c) && Sane(c, x) && Unasked(c, x) && Enabled(x, ToReceiver)
    ensures Unasked(c, ReceiverStep(x))
  {
    if !x.accepted {
      ReceiverReadsHush(c, x);
    }
    ReceiverTookUnasked(c, x, ReceiverStep(x));
  }

  lemma ToSenderUnasked(c: Plan, x: Sys)
    requires Drafted(c) && Sane(c, x) && Unasked(c, x) && Enabled(x, ToSender)
    ensures O.FilesOk(x.s.st.files) && Unasked(c, SenderStep(x))
  {
    FilesFine(x);
    if !x.accepted {
      SenderReadsHush(c, x);
      PlainStep(x);
    }
    SenderTookUnasked(c, x, SenderStep(x));
  }

  lemma TurnUnasked(c: Plan, x: Sys)
    requires Unasked(c, x) && Enabled(x, SenderTurn) && O.FilesOk(x.s.st.files)
    ensures Unasked(c, TurnStep(x))
  {
    SenderTookUnasked(c, x, TurnStep(x));
  }

  lemma DeclineUnasked(c: Plan, x: Sys, action: ChannelAction)
    requires Drafted(c) && Sane(c, x) && Unasked(c, x) && Possible(x, Declines(action))
    ensures Unasked(c, ReceiverGets(x, Front(x.r.env.id, action)))
  {
    if !x.accepted {
      DeclineHush(c, x.r, action);
    }
    ReceiverTookUnasked(c, x, ReceiverGets(x, Front(x.r.env.id, action)));
  }

  lemma ReceiverCutUnasked(c: Plan, x: Sys)
    requires Unasked(c, x) && x.rEnd.Ok?
    ensures Unasked(c, ReceiverGets(x, Closed))
  {
    ReceiverTookUnasked(c, x, ReceiverGets(x, Closed));
  }

  lemma CancelHush(c: Plan, s: Peer, n: nat)
    requires SenderHush(c, s, Ok, n) && O.FilesOk(s.st.files)
    ensures var t := O.Handle(s, Front(s.env.id, CancelTransfer)); SenderHush(c, t.p, t.r, n)
  {
    EndHushed(s, Cancelled);
  }

  lemma CancelUnasked(c: Plan, x: Sys)
    requires Unasked(c, x) && Possible(x, Cancels) && O.FilesOk(x.s.st.files)
    ensures Unasked(c, SenderGets(x, Front(x.s.env.id, CancelTransfer)))
  {
    if !x.accepted {
      CancelHush(c, x.s, x.sRead);
    }
    SenderTookUnasked(c, x, SenderGets(x, Front(x.s.env.id, CancelTransfer)));
  }

  lemma SenderCutUnasked(c: Plan, x: Sys)
    requires Unasked(c, x) && x.sEnd.Ok? && x.job.None? && O.FilesOk(x.s.st.files)
    ensures Unasked(c, SenderGets(x, Closed))
  {
    SenderTookUnasked(c, x, SenderGets(x, Closed));
  }

  lemma AcceptedUnasked(c: Plan, x: Sys)
    requires Enabled(x, UserAccepts)
    ensures Unasked(c, AcceptStep(x))
  {
  }

  lemma UsualUnasked(c: Plan, x: Sys, m: Move)
    requires Drafted(c) && Sane(c, x) && Unasked(c, x) && Enabled(x, m) && (x.sEnd.Ok? ==> O.FilesOk(x.s.st.files))
    ensures Unasked(c, Then(x, Usual(m)))
  {
    match m {
      case ToReceiver => ToReceiverUnasked(c, x);
      case ToSender => ToSenderUnasked(c, x);
      case SenderTurn => TurnUnasked(c, x);
      case UserAccepts => AcceptedUnasked(c, x);
    }
  }

  lemma CutUnasked(c: Plan, x: Sys, t: Turnabout)
    requires Unasked(c, x) && Possible(x, t) && (x.sEnd.Ok? ==> O.FilesOk(x.s.st.files))
    requires t.SenderLeft? || t.SenderCut? || t.ReceiverLeft? || t.ReceiverCut?
    ensures Unasked(c, Then(x, t))
  {
    if t.SenderLeft? || t.SenderCut? {
      SenderCutUnasked(c, x);
    } else {
      ReceiverCutUnasked(c, x);
    }
  }

  lemma UnusualUnasked(c: Plan, x: Sys, t: Turnabout)
    requires Drafted(c) && Sane(c, x) && Unasked(c, x) && Possible(x, t) && (x.sEnd.Ok? ==> O.FilesOk(x.s.st.files))
    requires !t.Usual?
    ensures Unasked(c, Then(x, t))
  {
    match t {
      case Declines(action) => DeclineUnasked(c, x, action);
      case Cancels => CancelUnasked(c, x);
      case Usual(_) =>
      case _ => CutUnasked(c, x, t);
    }
  }

  lemma StepUnasked(c: Plan, x: Sys, t: Turnabout, y: Sys)
    requires Drafted(c) && Sane(c, x) && Unasked(c, x) && SessionDisruptions.Next(x, t) == Some(y)
    ensures Unasked(c, y)
  {
    if t.Usual? {
      UsualUnasked(c, x, t.move);
    } else {
      UnusualUnasked(c, x, t);
    }
  }

  lemma {:induction false} FollowUnasked(c: Plan, sIo: Option<nat>, rIo: Option<nat>, moves: seq<Turnabout>)
    requires Drafted(c) && Reached(c, sIo, rIo, moves).Some?
    ensures Unasked(c, Reached(c, sIo, rIo, moves).value)
    decreases |moves|
  {
    if |moves| == 0 {
      StartUnasked(c, sIo, rIo);
    } else {
      var before := moves[..|moves| - 1];
      FollowSane(c, sIo, rIo, before, 0);
      FollowUnasked(c, sIo, rIo, before);
      StepUnasked(c, Reached(c, sIo, rIo, before).value, moves[|moves| - 1], Reached(c, sIo, rIo, moves).value);
    }
  }

  /** Whoever cancels or declines, whatever I/O fails and wherever a connection breaks: as long as the receiving user
      has not accepted, the sender is not sending and has sent no part of a file, and the receiver has created
      nothing. */
  lemma ConsentFirst(c: Config, sIo: Option<nat>, rIo: Option<nat>, h: SessionDisruptions.Trace, k: nat, x: Sys)
    requires Decent(c) && SessionDisruptions.At(c, sIo, rIo, h, k, x)
    ensures !x.accepted ==>
              && x.job.None? && !x.s.st.state.SendingFiles? && !x.s.st.state.Finished?
              && (forall i | 0 <= i < |x.s.sent| :: !CarriesFile(x.s.sent[i]))
              && x.r.disk == Disk(c.names, map[], map[])
  {
    var p := PlanFor(c);
    FollowLeads(Start(c, sIo, rIo), SessionDisruptions.Next, h, k);
    FollowUnasked(p, sIo, rIo, h.moves[..k]);
    if !x.accepted {
      forall i | 0 <= i < |x.s.sent|
        ensures !CarriesFile(x.s.sent[i])
      {
        assert Tame(x.s.sent[i]);
      }
    }
  }
}
